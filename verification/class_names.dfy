/**
 The class string of a Theme element: the tokens the theme-option parser
 produces for the `use` prop, joined by single spaces (`Array.prototype.join(' ')`).

 The parser lives outside this model and is a parameter (`parse`), so the
 facts below hold for every parser. The partner of the join is
 `String.prototype.split(' ')`, which recovers the tokens from the string.
 */
module ClassNames {

  /** `tokens.join(' ')`: the tokens separated by single spaces; `[]` gives `""`. */
  function JoinWithSpaces(tokens: seq<string>): (r: string)
    ensures |tokens| == 0 ==> r == ""
    ensures |tokens| > 0 ==> tokens[0] <= r
    ensures |tokens| > 1 ==> |r| > |tokens[0]| && r[|tokens[0]|] == ' '
  {
    if |tokens| == 0 then ""
    else if |tokens| == 1 then tokens[0]
    else tokens[0] + " " + JoinWithSpaces(tokens[1..])
  }

  /** `s.split(' ')`: the maximal space-free pieces of `s`, in order; the empty
      string splits into one empty piece. */
  function SplitOnSpaces(s: string): (parts: seq<string>)
    ensures |parts| >= 1
    ensures forall i :: 0 <= i < |parts| ==> ' ' !in parts[i]
  {
    if |s| == 0 then [""]
    else
      var rest := SplitOnSpaces(s[1..]);
      if s[0] == ' ' then [""] + rest
      else [[s[0]] + rest[0]] + rest[1..]
  }

  /** Splitting then joining gives back any string. */
  lemma {:induction false} JoinSplit(s: string)
    ensures JoinWithSpaces(SplitOnSpaces(s)) == s
  {
    if |s| > 0 {
      var rest := SplitOnSpaces(s[1..]);
      JoinSplit(s[1..]);
      if s[0] == ' ' {
        assert ([""] + rest)[1..] == rest;
      } else {
        var parts := [[s[0]] + rest[0]] + rest[1..];
        assert parts[1..] == rest[1..];
        if |rest| > 1 {
          assert JoinWithSpaces(rest) == rest[0] + " " + JoinWithSpaces(rest[1..]);
        }
      }
    }
  }

  /** A space-free prefix glues onto the first piece of the rest. */
  lemma {:induction false} SplitSpaceFreePrefix(a: string, rest: string)
    requires ' ' !in a
    ensures SplitOnSpaces(a + rest) ==
      [a + SplitOnSpaces(rest)[0]] + SplitOnSpaces(rest)[1..]
  {
    var p := SplitOnSpaces(rest);
    if |a| > 0 {
      assert (a + rest)[0] == a[0] != ' ';
      assert (a + rest)[1..] == a[1..] + rest;
      SplitSpaceFreePrefix(a[1..], rest);
      var r := SplitOnSpaces(a[1..] + rest);
      assert r[0] == a[1..] + p[0] && r[1..] == p[1..];
      assert [a[0]] + (a[1..] + p[0]) == a + p[0];
    } else {
      assert a + rest == rest;
      assert a + p[0] == p[0];
      assert p == [p[0]] + p[1..];
    }
  }

  /** Joining then splitting gives back any non-empty token list without spaces. */
  lemma {:induction false} SplitJoin(tokens: seq<string>)
    requires |tokens| > 0
    requires forall i :: 0 <= i < |tokens| ==> ' ' !in tokens[i]
    ensures SplitOnSpaces(JoinWithSpaces(tokens)) == tokens
  {
    if |tokens| == 1 {
      SplitSpaceFreePrefix(tokens[0], "");
      assert tokens[0] + "" == tokens[0];
    } else {
      var tail := JoinWithSpaces(tokens[1..]);
      SplitJoin(tokens[1..]);
      assert tokens[0] + " " + tail == tokens[0] + (" " + tail);
      SplitSpaceFreePrefix(tokens[0], " " + tail);
      assert (" " + tail)[1..] == tail;
      assert SplitOnSpaces(" " + tail) == [""] + tokens[1..];
      assert ([""] + tokens[1..])[1..] == tokens[1..];
      assert tokens[0] + "" == tokens[0];
      assert [tokens[0]] + tokens[1..] == tokens;
    }
  }

  /** The class string of a Theme element for the `use` prop. */
  function ThemeClassName<U>(parse: U -> seq<string>, use: U): (className: string)
    // no theme options, no classes
    ensures parse(use) == [] ==> className == ""
    // the class string opens with the first option's token
    ensures parse(use) != [] ==> parse(use)[0] <= className
  {
    JoinWithSpaces(parse(use))
  }

  /** Whenever the parser yields space-free tokens, the class string
      splits back into exactly those tokens, in order. */
  lemma ThemeClassNameRecoversTokens<U>(parse: U -> seq<string>, use: U)
    requires forall i :: 0 <= i < |parse(use)| ==> ' ' !in parse(use)[i]
    ensures parse(use) != [] ==> SplitOnSpaces(ThemeClassName(parse, use)) == parse(use)
    ensures forall i :: 0 <= i < |parse(use)| ==> parse(use)[i] in SplitOnSpaces(ThemeClassName(parse, use))
  {
    if parse(use) != [] {
      SplitJoin(parse(use));
    }
  }
}

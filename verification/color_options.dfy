/**
 The fold that turns a ThemeProvider's `options` object into the map of CSS
 custom properties handed on to automatic colour derivation.

 The options object is modelled as its entries in `Object.keys` order, since
 that order decides which of two entries landing on the same normalized key
 wins. The fold starts from an empty object and, entry by entry, writes the
 value under the normalized key, so later writes replace earlier ones.
 */
module ColorOptions {
  import opened CssKeys

  /** One property of the `options` object: an option key and its CSS value. */
  datatype Entry = Entry(key: string, value: string)

  /** A ThemeProvider `options` object: its entries in key order. */
  type Options = seq<Entry>

  /** The normalized key of every entry, position by position. */
  function NormalizedKeys(dashCase: string -> string, options: Options): seq<string> {
    seq(|options|, i requires 0 <= i < |options| => NormalizeKey(dashCase, options[i].key))
  }

  /** The position of the last occurrence of `k` in `keys`, or -1 when `k` does not occur. */
  function LastIndexOf(keys: seq<string>, k: string): (r: int)
    ensures -1 <= r < |keys|
    ensures r == -1 <==> k !in keys
    ensures r >= 0 ==> keys[r] == k && forall j :: r < j < |keys| ==> keys[j] != k
  {
    if |keys| == 0 then -1
    else if keys[|keys| - 1] == k then |keys| - 1
    else LastIndexOf(keys[..|keys| - 1], k)
  }

  /** The processed colour map: the options folded, in key order, into an empty
      map, each value written under the normalized form of its key. */
  function ProcessColors(dashCase: string -> string, options: Options): map<string, string> {
    if |options| == 0 then map[]
    else
      var Entry(key, val) := options[|options| - 1];
      ProcessColors(dashCase, options[..|options| - 1])[NormalizeKey(dashCase, key) := val]
  }

  /** The processed map's keys are exactly the normalized option keys. */
  lemma {:induction false} ProcessColorsKeys(dashCase: string -> string, options: Options)
    ensures forall k :: k in ProcessColors(dashCase, options) <==> k in NormalizedKeys(dashCase, options)
  {
    if |options| > 0 {
      var n := |options|;
      var init := options[..n - 1];
      ProcessColorsKeys(dashCase, init);
      assert NormalizedKeys(dashCase, options) == NormalizedKeys(dashCase, init) + [NormalizeKey(dashCase, options[n - 1].key)];
    }
  }

  /** No options, no colours. */
  lemma ProcessColorsEmpty(dashCase: string -> string)
    ensures ProcessColors(dashCase, []) == map[]
  {
  }

  /** The normalized keys of a prefix of the options are a prefix of the normalized keys. */
  lemma NormalizedKeysPrefix(dashCase: string -> string, options: Options, n: nat)
    requires n <= |options|
    ensures NormalizedKeys(dashCase, options[..n]) == NormalizedKeys(dashCase, options)[..n]
  {
  }

  /** Last write wins: every key of the processed map holds the value of the last
      entry, in key order, whose key normalizes to it. */
  lemma {:induction false} ProcessColorsLastWriteWins(dashCase: string -> string, options: Options, k: string)
    requires k in ProcessColors(dashCase, options)
    ensures 0 <= LastIndexOf(NormalizedKeys(dashCase, options), k)
    ensures ProcessColors(dashCase, options)[k] == options[LastIndexOf(NormalizedKeys(dashCase, options), k)].value
  {
    var n := |options|;
    var keys := NormalizedKeys(dashCase, options);
    var init := options[..n - 1];
    if keys[n - 1] != k {
      NormalizedKeysPrefix(dashCase, options, n - 1);
      assert keys[..n - 1] == NormalizedKeys(dashCase, init);
      ProcessColorsLastWriteWins(dashCase, init, k);
    }
  }

  /** Folding one more entry is one more write into the map folded so far. */
  lemma ProcessColorsSnoc(dashCase: string -> string, options: Options, entry: Entry)
    ensures ProcessColors(dashCase, options + [entry]) == ProcessColors(dashCase, options)[NormalizeKey(dashCase, entry.key) := entry.value]
  {
    assert (options + [entry])[..|options|] == options;
  }

  /** True iff entry `i` exists and no later entry's key normalizes to the same key. */
  predicate IsLastWrite(dashCase: string -> string, options: Options, i: nat) {
    && i < |options|
    && forall j :: i < j < |options| ==> NormalizeKey(dashCase, options[j].key) != NormalizeKey(dashCase, options[i].key)
  }

  /** Last write wins, stated per entry: an entry that no later entry overwrites
      is found in the processed map under its normalized key, with its value. */
  lemma {:induction false} ProcessColorsKeepsLastWrite(dashCase: string -> string, options: Options, i: nat)
    requires IsLastWrite(dashCase, options, i)
    ensures NormalizeKey(dashCase, options[i].key) in ProcessColors(dashCase, options)
    ensures ProcessColors(dashCase, options)[NormalizeKey(dashCase, options[i].key)] == options[i].value
  {
    var n := |options|;
    var init := options[..n - 1];
    assert options == init + [options[n - 1]];
    ProcessColorsSnoc(dashCase, init, options[n - 1]);
    if i < n - 1 {
      ProcessColorsKeepsLastWrite(dashCase, init, i);
    }
  }

  /** Adding one entry at the end binds its normalized key to its value and leaves
      every other binding, and every other key's absence, as it was. */
  lemma ProcessColorsAppend(dashCase: string -> string, options: Options, key: string, val: string)
    ensures ProcessColors(dashCase, options + [Entry(key, val)])[NormalizeKey(dashCase, key)] == val
    ensures forall k :: k != NormalizeKey(dashCase, key) ==>
      (k in ProcessColors(dashCase, options + [Entry(key, val)]) <==> k in ProcessColors(dashCase, options))
    ensures forall k :: k != NormalizeKey(dashCase, key) && k in ProcessColors(dashCase, options) ==>
      ProcessColors(dashCase, options + [Entry(key, val)])[k] == ProcessColors(dashCase, options)[k]
  {
    ProcessColorsSnoc(dashCase, options, Entry(key, val));
  }

  /** Writes to two different keys commute. */
  lemma UpdatesCommute(m: map<string, string>, k1: string, v1: string, k2: string, v2: string)
    requires k1 != k2
    ensures m[k1 := v1][k2 := v2] == m[k2 := v2][k1 := v1]
  {
  }

  /** The last two entries, when their keys normalize differently, can be folded in either order. */
  lemma ProcessColorsSwapLast(dashCase: string -> string, before: Options, a: Entry, b: Entry)
    requires NormalizeKey(dashCase, a.key) != NormalizeKey(dashCase, b.key)
    ensures ProcessColors(dashCase, before + [a, b]) == ProcessColors(dashCase, before + [b, a])
  {
    var m := ProcessColors(dashCase, before);
    var ka, kb := NormalizeKey(dashCase, a.key), NormalizeKey(dashCase, b.key);
    assert before + [a, b] == (before + [a]) + [b];
    assert before + [b, a] == (before + [b]) + [a];
    ProcessColorsSnoc(dashCase, before, a);
    ProcessColorsSnoc(dashCase, before + [a], b);
    ProcessColorsSnoc(dashCase, before, b);
    ProcessColorsSnoc(dashCase, before + [b], a);
    UpdatesCommute(m, ka, a.value, kb, b.value);
  }

  /** Two neighbouring entries whose keys normalize differently can be visited in
      either order: the key order only matters through the overwrite rule. */
  lemma {:induction false} ProcessColorsSwap(dashCase: string -> string, before: Options, a: Entry, b: Entry, after: Options)
    requires NormalizeKey(dashCase, a.key) != NormalizeKey(dashCase, b.key)
    ensures ProcessColors(dashCase, before + [a, b] + after) == ProcessColors(dashCase, before + [b, a] + after)
    decreases |after|
  {
    if |after| == 0 {
      assert before + [a, b] + after == before + [a, b];
      assert before + [b, a] + after == before + [b, a];
      ProcessColorsSwapLast(dashCase, before, a, b);
    } else {
      var last := after[|after| - 1];
      var rest := after[..|after| - 1];
      var ab, ba := before + [a, b] + rest, before + [b, a] + rest;
      ProcessColorsSwap(dashCase, before, a, b, rest);
      ProcessColorsSnoc(dashCase, ab, last);
      ProcessColorsSnoc(dashCase, ba, last);
      assert before + [a, b] + after == ab + [last];
      assert before + [b, a] + after == ba + [last];
    }
  }

  /** The `reduce` itself: a loop over the entries in key order, writing each
      value under its normalized key into an accumulator that starts empty. */
  method ReduceOptions(dashCase: string -> string, options: Options) returns (acc: map<string, string>)
    ensures forall k :: k in acc <==> k in NormalizedKeys(dashCase, options)
    ensures forall k :: k in acc ==>
      0 <= LastIndexOf(NormalizedKeys(dashCase, options), k) &&
      acc[k] == options[LastIndexOf(NormalizedKeys(dashCase, options), k)].value
  {
    acc := map[];
    var i := 0;
    while i < |options|
      invariant 0 <= i <= |options|
      invariant acc == ProcessColors(dashCase, options[..i])
    {
      var Entry(key, val) := options[i];
      assert options[..i + 1][..i] == options[..i];
      acc := acc[NormalizeKey(dashCase, key) := val];
      i := i + 1;
    }
    assert options[..i] == options;
    ProcessColorsKeys(dashCase, options);
    forall k | k in acc
      ensures 0 <= LastIndexOf(NormalizedKeys(dashCase, options), k)
      ensures acc[k] == options[LastIndexOf(NormalizedKeys(dashCase, options), k)].value
    {
      ProcessColorsLastWriteWins(dashCase, options, k);
    }
  }

  /** `{primary: a, '--mdc-theme-primary': b}`: both keys land on
      `--mdc-theme-primary`, and the later entry's value is the one kept. */
  lemma ProcessColorsCollisionExample(dashCase: string -> string, a: string, b: string)
    requires dashCase("primary") == "primary"
    ensures ProcessColors(dashCase, [Entry("primary", a), Entry("--mdc-theme-primary", b)]) == map["--mdc-theme-primary" := b]
  {
    assert "primary"[0] == 'p';
    assert NormalizeKey(dashCase, "primary") == "--mdc-theme-primary";
    var options := [Entry("primary", a), Entry("--mdc-theme-primary", b)];
    assert options[..1] == [Entry("primary", a)];
    assert options[..1][..0] == [];
    assert ProcessColors(dashCase, options[..1]) == map["--mdc-theme-primary" := a];
  }
}

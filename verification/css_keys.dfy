/**
 Normalization of theme option keys into CSS custom-property names.

 A ThemeProvider option key is either a raw CSS variable name, recognised by
 its leading `--`, or a theme slot name such as `primary` or `primaryBg`,
 which is dash-cased and placed under the `--mdc-theme-` namespace.

 The dash-casing helper lives outside this model, so it is a parameter
 (`dashCase`): everything proved here holds for every implementation of it.
 */
module CssKeys {

  /** The namespace every non-raw option key is placed under. */
  const ThemePrefix: string := "--mdc-theme-"

  /** True iff `key` is already a CSS custom-property name (`key.startsWith('--')`). */
  predicate IsCssVariable(key: string) {
    "--" <= key
  }

  /** The CSS custom-property name a ThemeProvider option key is written under. */
  function NormalizeKey(dashCase: string -> string, key: string): (r: string)
    // the result is always a CSS variable name ...
    ensures IsCssVariable(r)
    // ... so it can never be the one property name a plain JS object treats specially
    ensures r != "__proto__"
    // a key is left alone exactly when it already is a CSS variable name
    ensures r == key <==> IsCssVariable(key)
    // any other key ends up under the theme namespace, carrying its dash-cased form
    ensures !IsCssVariable(key) ==> ThemePrefix <= r && r[|ThemePrefix|..] == dashCase(key)
  {
    var r := if IsCssVariable(key) then key else ThemePrefix + dashCase(key);
    assert r[0] == '-' != "__proto__"[0];
    r
  }

  /** Normalizing twice is the same as normalizing once. */
  lemma NormalizeKeyIdempotent(dashCase: string -> string, key: string)
    ensures NormalizeKey(dashCase, NormalizeKey(dashCase, key)) == NormalizeKey(dashCase, key)
  {
  }

  /** Two distinct raw keys can only meet after normalization if at least one of
      them was rewritten, i.e. was not already a CSS variable name. */
  lemma CollisionNeedsRewrite(dashCase: string -> string, a: string, b: string)
    requires a != b
    requires NormalizeKey(dashCase, a) == NormalizeKey(dashCase, b)
    ensures !IsCssVariable(a) || !IsCssVariable(b)
  {
  }

  /** The two example keys `primaryBg` and `--custom`. */
  lemma NormalizeKeyExamples(dashCase: string -> string)
    requires dashCase("primaryBg") == "primary-bg"
    ensures NormalizeKey(dashCase, "primaryBg") == "--mdc-theme-primary-bg"
    ensures NormalizeKey(dashCase, "--custom") == "--custom"
  {
    assert "primaryBg"[0] == 'p';
    assert ThemePrefix + "primary-bg" == "--mdc-theme-primary-bg";
  }
}

/**
 The inline style a ThemeProvider puts on its element: the caller's `style`
 prop spread first, the computed theme colours spread second, so that on a
 shared property the theme colour replaces the caller's value.

 The colours are the processed option map passed through automatic colour
 derivation, which lives outside this model and is therefore a parameter
 (`autoColors`).
 */
module ThemeProvider {
  import opened CssKeys
  import opened ColorOptions

  /** An optional prop: `None` when the caller did not pass it. */
  datatype Option<T> = None | Some(value: T)

  /** An inline style object: CSS property name to CSS value. */
  type Style = map<string, string>

  /** The `style` prop after its default: an absent style is the empty object. */
  function StyleOrDefault(style: Option<Style>): Style {
    match style
    case None => map[]
    case Some(s) => s
  }

  /** `{...style, ...colors}`: a right-biased union of the caller's style and the colours. */
  function ThemeStyles(style: Option<Style>, colors: Style): (r: Style)
    // nothing but the caller's properties and the colour properties
    ensures r.Keys == StyleOrDefault(style).Keys + colors.Keys
    // every colour property carries its colour, whatever the caller said
    ensures forall k :: k in colors ==> r[k] == colors[k]
    // a caller property no colour speaks of keeps the caller's value
    ensures forall k :: k in StyleOrDefault(style) && k !in colors ==> r[k] == StyleOrDefault(style)[k]
  {
    StyleOrDefault(style) + colors
  }

  /** Without a `style` prop the element's style is exactly the colours. */
  lemma ThemeStylesWithoutStyle(colors: Style)
    ensures ThemeStyles(None, colors) == colors
  {
  }

  /** Spreading the same colours a second time changes nothing. */
  lemma ThemeStylesIdempotent(style: Option<Style>, colors: Style)
    ensures ThemeStyles(Some(ThemeStyles(style, colors)), colors) == ThemeStyles(style, colors)
  {
  }

  /** The caller's style cannot change a colour property: two styles give the same
      value on every colour key. */
  lemma ThemeStylesColorsWin(style1: Option<Style>, style2: Option<Style>, colors: Style)
    ensures forall k :: k in colors ==>
      && k in ThemeStyles(style1, colors)
      && k in ThemeStyles(style2, colors)
      && ThemeStyles(style1, colors)[k] == ThemeStyles(style2, colors)[k]
  {
  }

  /** The whole style computed by a ThemeProvider: fold the options, derive the
      automatic colours from the result, then merge the caller's style under them. */
  function ProviderStyle(dashCase: string -> string, autoColors: Style -> Style,
                         options: Options, style: Option<Style>): (r: Style)
    ensures forall k :: k in autoColors(ProcessColors(dashCase, options)) ==>
      k in r && r[k] == autoColors(ProcessColors(dashCase, options))[k]
    ensures forall k :: k in StyleOrDefault(style) ==> k in r
  {
    ThemeStyles(style, autoColors(ProcessColors(dashCase, options)))
  }

  /** True iff `derived` keeps the binding `base` has for `k`, if it has one. */
  predicate KeepsBinding(derived: Style, base: Style, k: string) {
    k in base ==> k in derived && derived[k] == base[k]
  }

  /** An option reaches the element when colour derivation keeps its binding: the
      normalized key is set to the value of the last entry writing it, overriding
      the caller's style. */
  lemma ProviderStyleKeepsOptions(dashCase: string -> string, autoColors: Style -> Style,
                                  options: Options, style: Option<Style>, i: nat)
    requires IsLastWrite(dashCase, options, i)
    requires KeepsBinding(autoColors(ProcessColors(dashCase, options)), ProcessColors(dashCase, options),
                          NormalizeKey(dashCase, options[i].key))
    ensures NormalizeKey(dashCase, options[i].key) in ProviderStyle(dashCase, autoColors, options, style)
    ensures ProviderStyle(dashCase, autoColors, options, style)[NormalizeKey(dashCase, options[i].key)] == options[i].value
  {
    ProcessColorsKeepsLastWrite(dashCase, options, i);
  }
}

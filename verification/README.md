# RMWC theme: option keys, colour map and class string

A Dafny model of the logic inside the `Theme` and `ThemeProvider` components of
RMWC (React Material Web Components), `src/theme/index.tsx`:

- **Key normalization** (`CssKeys`): a ThemeProvider option key that already starts
  with `--` is a raw CSS custom-property name and is kept. Any other key becomes
  `--mdc-theme-` followed by its dash-cased form.
- **Option fold** (`ColorOptions`): the `reduce` over `Object.keys(options)`.
  It writes every value under its normalized key into an empty object, so a
  later write replaces an earlier one. Options are a sequence of `Entry(key, value)`
  in key order; that order decides which entry wins when two keys normalize alike.
  `ProcessColors` is the recursive definition. `ReduceOptions` is the loop as
  written in the source, proved to agree with it.
- **Style merge** (`ThemeProvider`): `{...style, ...colors}` with `style`
  defaulting to `{}`. This is a right-biased union: on a shared property the
  computed colour replaces the caller's inline style.
- **Class string** (`ClassNames`): `parseThemeOptions(use).join(' ')`. It is
  partnered with `split(' ')`, and the two round-trip in both directions.

`toDashCase`, `parseThemeOptions` and `getAutoColorsForTheme` are imported from
modules that are not part of this model. Each one is a function-typed parameter
(`dashCase`, `parse`, `autoColors`), so every property is proved for all
implementations of them.

## Model

| member | source | states |
|---|---|---|
| CssKeys.NormalizeKey | src/theme/index.tsx:62 | The result always starts with `--`, so it is never the special `__proto__` property of the accumulator object. A key is returned unchanged exactly when it already starts with `--`. Any other key becomes `--mdc-theme-` followed by `toDashCase(key)`. |
| CssKeys.NormalizeKeyIdempotent | src/theme/index.tsx:62 | Normalizing an already normalized key gives the same key. |
| CssKeys.CollisionNeedsRewrite | src/theme/index.tsx:62 | Two distinct raw keys can share a normalized key only if at least one of them did not start with `--`, i.e. collisions come from normalization alone. |
| CssKeys.NormalizeKeyExamples | src/theme/index.tsx:62 | `primaryBg` becomes `--mdc-theme-primary-bg` when dash-casing gives `primary-bg`; `--custom` stays `--custom`. |
| ColorOptions.LastIndexOf | src/theme/index.tsx:59-67 | The reference for "the last entry writing a key": -1 exactly when the key is absent, otherwise a position holding the key with no later occurrence. |
| ColorOptions.ProcessColorsKeys | src/theme/index.tsx:59-67 | The folded map's key set is exactly the set of normalized option keys. |
| ColorOptions.ProcessColorsEmpty | src/theme/index.tsx:59-67 | Empty options fold to the empty map. |
| ColorOptions.ProcessColorsLastWriteWins | src/theme/index.tsx:59-67 | Every key of the folded map holds the value of the last entry, in key order, whose key normalizes to it. |
| ColorOptions.ProcessColorsKeepsLastWrite | src/theme/index.tsx:59-67 | An entry that no later entry overwrites is in the folded map under its normalized key, with its own value. |
| ColorOptions.ProcessColorsSnoc | src/theme/index.tsx:59-67 | Folding one more entry is one more write of its value under its normalized key into the map folded so far. |
| ColorOptions.ProcessColorsAppend | src/theme/index.tsx:59-67 | Appending an entry binds its normalized key to its value. Every other key keeps its presence or absence and its value. |
| ColorOptions.ProcessColorsSwap | src/theme/index.tsx:59-67 | Swapping two neighbouring entries whose keys normalize differently does not change the folded map. Key order matters only through the overwrite rule. |
| ColorOptions.ReduceOptions | src/theme/index.tsx:59-67 | The loop over the entries builds a map whose keys are exactly the normalized keys. Each key holds the value of the last entry normalizing to it. |
| ColorOptions.ProcessColorsCollisionExample | src/theme/index.tsx:59-67 | `{primary: a, '--mdc-theme-primary': b}` folds to `{'--mdc-theme-primary': b}`. |
| ThemeProvider.ThemeStyles | src/theme/index.tsx:73-78 | The merged key set is the union of the style keys and the colour keys. A colour key always holds its colour, overriding the style. A style key with no colour keeps its style value. |
| ThemeProvider.ThemeStylesWithoutStyle | src/theme/index.tsx:73-78 | When the `style` prop is absent it defaults to `{}`, and the merged style is exactly the colours. |
| ThemeProvider.ThemeStylesIdempotent | src/theme/index.tsx:75-78 | Merging the same colours over an already merged style changes nothing. |
| ThemeProvider.ThemeStylesColorsWin | src/theme/index.tsx:75-78 | Any two caller styles give the same value on every colour key: the caller cannot change a computed colour. |
| ThemeProvider.ProviderStyle | src/theme/index.tsx:56-78 | Every property the colour derivation returns reaches the element with its derived value. Every property of the caller's style is present too. |
| ThemeProvider.ProviderStyleKeepsOptions | src/theme/index.tsx:59-78 | Take an entry that no later entry overwrites, and suppose colour derivation keeps the folded binding of its key. Then that key reaches the element with the entry's value, whatever the caller's style. |
| ClassNames.JoinWithSpaces | src/theme/index.tsx:25 | `join(' ')`: no tokens give `""`. Otherwise the string starts with the first token, and when there are two or more tokens a space follows it. |
| ClassNames.SplitOnSpaces | src/theme/index.tsx:25 | The inverse of the join, `split(' ')`: at least one piece, and no piece contains a space. |
| ClassNames.JoinSplit | src/theme/index.tsx:25 | Splitting any string on spaces and joining the pieces gives back the string. |
| ClassNames.SplitJoin | src/theme/index.tsx:25 | Joining a non-empty list of space-free tokens and splitting the result gives back the list. |
| ClassNames.ThemeClassName | src/theme/index.tsx:25 | No parsed options give the empty class string. Otherwise the class string starts with the first parsed token. |
| ClassNames.ThemeClassNameRecoversTokens | src/theme/index.tsx:25 | When the parsed tokens contain no spaces, the class string splits back into exactly those tokens, in order, and each token is one of the classes. |

## Left out

- `toDashCase` and `parseThemeOptions` (`@rmwc/base`) and `getAutoColorsForTheme` (`./utils`) are not part of this model. They are parameters, so their own rules are not modelled. These are the dash-casing rules, token deduplication and ordering, and luminance and contrast derivation.
- ThemeProvider.ProviderStyleKeepsOptions: assumes that colour derivation keeps the folded binding of the option's key. The derivation's source is not part of this model, so that premise is a hypothesis and is not proved.
- Rendering and composition are not modelled: `forwardRef`, `useTag`, `useClassNames` (merging with the caller's `className`), `wrapChild` and the JSX output (lines 17-36, 80-84). This is UI plumbing with no logic of its own.
- The `useMemo` cache keyed on `JSON.stringify(options)` (lines 56-71) is not modelled. It is a framework memoization concern; the computation inside it is modelled as a pure function.
- JavaScript's `Object.keys` order is not derived. Integer-like keys come first in ascending order, then the other keys in insertion order. The model takes the options sequence to be in that order already. Duplicate raw keys, which a JS object cannot hold, are allowed: every property holds with or without them.
- Property order inside the merged style object is not modelled. Maps are unordered.
- ThemeProvider.ThemeStyles: inline style values other than strings (numbers, for instance) are modelled as strings.
- `src/rmwc/styles.tsx` (CSS imports only) and `src/ripple/readme.tsx` (documentation markup) hold no logic.

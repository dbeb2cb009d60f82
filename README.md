# conventional-recommended-bump, modelled in Dafny

`conventionalRecommendedBump(options, parserOpts, cb)` recommends a semantic
version bump. It checks and defaults its options, picks a preset and the
callback, and resolves the preset's config. From the config it chooses the
`whatBump` policy and the parser options. It then finds the newest semver tag,
reads and parses the commits since that tag, and optionally drops reverted
commits. It warns when no commits are left, asks the policy for a bump and
normalises the answer: a bare level becomes `{level, releaseType}` with
`releaseType` taken from `VERSIONS = ['major', 'minor', 'patch']`. The
normalised result goes to the callback.

The project has three modules:

- `JsValue` (`js_value.dfy`) holds the JavaScript the function relies on:
  - a `Val` datatype, with truthiness, `typeof`, the `||` operator and property reads;
  - `Object.assign`, including the index keys of arrays and strings;
  - `String()` and ASCII `toLowerCase`.
- `RecommendedBump` (`recommended_bump.dfy`) models the function itself:
  - the decision functions, one per piece of the source;
  - the whole call as the specification function `Bump`;
  - the function body as imperative methods, one per continuation of the source: the body, then the config, tags and commits callbacks. Each method is proved equal to its stage of `Bump`;
  - `NormalizeResult` reassigns `result` step by step as the source does, and is proved equal to `Normalize`.
- `BumpProperties` (`bump_properties.dfy`) holds the promised properties. These are the argument check, the precedence rules, the parser-option layering, the warning on an empty commit set, normalisation, and whole-call outcomes for every world the tests' situations can arise in.

Everything the function calls but cannot see is a field of a `World` value:
`require`, preset factories, `git-semver-tags`, the raw-commit stream piped
through the parser and concatenated, the revert filter, and functions that
callers pass in. A `Run` records two things:
- the calls made to `options.warn` and to `whatBump`, in order;
- how the call ended: thrown synchronously, answered through the callback with an error or a result, stalled with no answer, or crashed in an asynchronous continuation.

The type check is `typeof options !== 'object'`. `typeof null` is `'object'`,
so `null` and arrays are accepted as options; only other values throw.

## Model

| member | source | states |
|---|---|---|
| JsValue.Or | packages/conventional-recommended-bump/index.js:49 | `a \|\| b \|\| ...` is the first truthy operand, with every earlier operand falsy; otherwise it is the last operand and all operands are falsy |
| JsValue.NatToString | packages/conventional-recommended-bump/index.js:85 | the decimal key a level is turned into is a non-empty digit string with no leading zero except for 0 |
| JsValue.DigitsValueOfNatToString | packages/conventional-recommended-bump/index.js:85 | reading back the decimal form of n gives n |
| JsValue.IndexRoundTrip | packages/conventional-recommended-bump/index.js:85 | the key of index n is parsed as array index n |
| JsValue.IndexKeyIsCanonical | packages/conventional-recommended-bump/index.js:85 | every key parsed as an index is exactly that index's decimal form |
| JsValue.NatToStringInjective | packages/conventional-recommended-bump/index.js:85 | distinct indices have distinct keys |
| JsValue.IndexMap | packages/conventional-recommended-bump/index.js:18 | an array's own enumerable properties are exactly its indices' keys, each mapped to its element |
| JsValue.PropAgreesWithOwnEnumerable | packages/conventional-recommended-bump/index.js:44-47 | reading a property that `Object.assign` would copy gives the value it copies |
| JsValue.Assign | packages/conventional-recommended-bump/index.js:44-47 | `Object.assign`: the result has the keys of both; the source's properties win; other target properties are kept |
| JsValue.LowerCase | packages/conventional-recommended-bump/index.js:25 | lower-casing keeps the length and lower-cases each character |
| JsValue.LowerCaseIdempotent | packages/conventional-recommended-bump/index.js:25 | lower-casing twice is lower-casing once |
| RecommendedBump.AcceptsOptions | packages/conventional-recommended-bump/index.js:14-16 | options pass the type check exactly when they are an object, an array or `null` |
| RecommendedBump.WithDefaults | packages/conventional-recommended-bump/index.js:18 | the caller's keys are all kept with their values; `ignoreReverted` defaults to `true` and `warn` to the default function; no other key appears |
| RecommendedBump.ChooseCallback | packages/conventional-recommended-bump/index.js:20 | a function second argument is the callback; otherwise `cb` when truthy, else `noop` |
| RecommendedBump.PresetModuleName | packages/conventional-recommended-bump/index.js:25 | the module name is `conventional-changelog-` followed by the preset name lower-cased, character by character |
| RecommendedBump.LoadPreset | packages/conventional-recommended-bump/index.js:23-28 | loading succeeds exactly for a string preset whose module exists, and gives that module; otherwise the error names the preset |
| RecommendedBump.ResolveConfig | packages/conventional-recommended-bump/index.js:33 | a non-function preset package is the config itself; a function that is not a foreign factory never settles |
| RecommendedBump.SelectWhatBump | packages/conventional-recommended-bump/index.js:36-38 | the policy is `options.whatBump \|\| config.recommendedBumpOpts.whatBump \|\| noop`, and is always truthy |
| RecommendedBump.MergeParserOpts | packages/conventional-recommended-bump/index.js:44-49 | the merged keys are the base layer's, the caller's and `warn`; caller keys override base keys one by one; `warn` is the merged truthy value, else `options.warn` |
| RecommendedBump.FromTag | packages/conventional-recommended-bump/index.js:59 | commits are read from the newest tag, or from `''` when there is none |
| RecommendedBump.NoCommits | packages/conventional-recommended-bump/index.js:72 | the set counts as empty exactly when it is nullish, an empty array or string, an object without a truthy `length`, or a boolean, number or function |
| RecommendedBump.ReleaseType | packages/conventional-recommended-bump/index.js:85 | `VERSIONS[level]` names the type for levels 0 to 2, is undefined for every other number, and any string it gives is one of `VERSIONS` |
| RecommendedBump.LevelOnlyOnObjects | packages/conventional-recommended-bump/index.js:84 | only an object can have a non-nullish `level` |
| RecommendedBump.Normalize | packages/conventional-recommended-bump/index.js:78-88 | the result is never nullish. Nullish becomes `{}`. A number becomes `{level, releaseType}`. An object without a level is unchanged; one with a level keeps every other field and gains the matching `releaseType`. Anything else passes through |
| RecommendedBump.Invoke | packages/conventional-recommended-bump/index.js:76 | only functions can be called; `noop` and the default warn return `undefined` |
| RecommendedBump.RecommendBump | packages/conventional-recommended-bump/index.js:13-31 | the function body up to the preset package produces exactly the run `Bump` specifies |
| RecommendedBump.OnPresetPackage | packages/conventional-recommended-bump/index.js:33-35 | resolving the config produces the run specified once the preset package is known |
| RecommendedBump.OnConfig | packages/conventional-recommended-bump/index.js:35-51 | the config callback produces the run specified once the config is known |
| RecommendedBump.OnTags | packages/conventional-recommended-bump/index.js:51-63 | the tags callback produces the run specified once the tags are known |
| RecommendedBump.OnCommits | packages/conventional-recommended-bump/index.js:63-91 | the commits callback produces the run specified once the commits are known |
| RecommendedBump.NormalizeResult | packages/conventional-recommended-bump/index.js:78-88 | the source's sequential updates of `result` give exactly `Normalize` of the policy's answer |
| BumpProperties.OptionsCheckedFirst | packages/conventional-recommended-bump/index.js:14-16 | the call throws the options error exactly when `typeof options` is not `'object'`, and then makes no call to warn or the policy |
| BumpProperties.AfterPresetNeverThrows | packages/conventional-recommended-bump/index.js:33-93 | nothing after the preset package is chosen throws to the caller |
| BumpProperties.ProceedNeverThrows | packages/conventional-recommended-bump/index.js:35-93 | nothing after the config is known throws to the caller |
| BumpProperties.ConcludeNeverThrows | packages/conventional-recommended-bump/index.js:63-91 | the commits callback neither throws to the caller nor reports an error |
| BumpProperties.NoOptionsThrows | packages/conventional-recommended-bump/test/test.js:30-33 | calling with no arguments throws before anything else happens |
| BumpProperties.MissingPresetReported | packages/conventional-recommended-bump/index.js:23-28 | an unloadable truthy preset is reported to the callback as `Preset: "<name>" does not exist`, with no other call |
| BumpProperties.PresetLookupIgnoresCase | packages/conventional-recommended-bump/index.js:25 | a preset name and its lower-cased form load the same package |
| BumpProperties.WhatBumpPrecedence | packages/conventional-recommended-bump/index.js:36-38 | the caller's truthy `whatBump` wins; else the preset's truthy one; else `noop` |
| BumpProperties.NestedParserOptsShadowTopLevel | packages/conventional-recommended-bump/index.js:44-47 | when `recommendedBumpOpts.parserOpts` is truthy it is the base layer, and the top-level `parserOpts` has no effect at all |
| BumpProperties.CallbackAddsNoParserOpts | packages/conventional-recommended-bump/index.js:44-47 | a callback passed in the parser-options position contributes no parser options |
| BumpProperties.CallerParserWarnKept | packages/conventional-recommended-bump/index.js:49 | a truthy caller `warn` in the parser options is kept; a falsy one is replaced by `options.warn` |
| BumpProperties.WarnExactlyWhenNoCommits | packages/conventional-recommended-bump/index.js:72-76 | warn is called once, first, exactly when the commit set is empty. The policy is then called with that same set, and its normalised answer goes to the callback. A non-callable policy crashes |
| BumpProperties.NumericLevelNamesReleaseType | packages/conventional-recommended-bump/index.js:78-85 | levels 0, 1 and 2 become `{level, releaseType}` with `major`, `minor`, `patch` |
| BumpProperties.OtherLevelNamesNothing | packages/conventional-recommended-bump/index.js:78-85 | any other number keeps its level and gets an undefined release type |
| BumpProperties.NormalizeIdempotent | packages/conventional-recommended-bump/index.js:78-88 | normalising a normalised result changes nothing |
| BumpProperties.DefaultsOnly | packages/conventional-recommended-bump/index.js:18 | a key that neither the caller nor the defaults set is undefined |
| BumpProperties.CallerOptionWins | packages/conventional-recommended-bump/index.js:18 | a key the caller gives keeps the caller's value |
| BumpProperties.DefaultsFillIn | packages/conventional-recommended-bump/index.js:18 | a missing `ignoreReverted` is `true` and a missing `warn` is the default function |
| BumpProperties.CallWithoutPreset | packages/conventional-recommended-bump/index.js:29-51 | without preset, config or `lernaPackage`, the call reaches the tag lookup with config `{}` |
| BumpProperties.PresetFreeRun | packages/conventional-recommended-bump/index.js:29-70 | such a call, once the tags are found, concludes on the chosen commits |
| BumpProperties.TagFailureReported | packages/conventional-recommended-bump/index.js:51-55 | with `{}` as options and the callback second, a failing tag lookup hands its error to the callback, with no other call |
| BumpProperties.NoPolicyGivesEmpty | packages/conventional-recommended-bump/test/test.js:44-51 | with no `whatBump` anywhere, the callback receives `{}` |
| BumpProperties.CallerPolicyResult | packages/conventional-recommended-bump/index.js:76-90 | the callback receives, normalised, what the caller's `whatBump` returns for the chosen commits since the newest tag, whatever they are |
| BumpProperties.TestPolicyResults | packages/conventional-recommended-bump/test/test.js:53-87 | the tests' answers normalise to `{}` for `null`, to `{level: 0, releaseType: 'major'}` for `0`, and leave `{test: 'test'}` unchanged |
| BumpProperties.NoNewCommitsWarns | packages/conventional-recommended-bump/test/test.js:89-98 | with the caller's `warn`, whenever no commits are left since the newest tag once reverted ones are dropped, the first call is that warn with `No commits since last release` |

## Left out

- Git and streams: tag discovery, raw commit reading and the stream plumbing are not modelled. Their results are fields of `World`: `semverTags` gives tags or an error, and `parsedCommits` gives the concatenated parser output.
- RecommendedBump.OnTags: every error `git-semver-tags` reports is handed to the callback. The source tests `if (err)`, so a falsy error would instead go on to read `tags[0]`; `git-semver-tags` reports `Error` objects, which are always truthy, so that path is not modelled.
- The commit parser and the revert filter are opaque functions in `World`; `conventional-commits-parser` and `conventional-commits-filter` are not part of this model.
- Module loading: `require` is a map from module names to values. A module that exists but throws while loading is modelled as absent.
- Promises: a preset factory's result is a fixed `Option` per factory in `World`. The timing of callbacks is not modelled. A value that is itself a promise is not adopted, so thenables used as configs are not modelled.
- Exceptions thrown by caller-supplied functions (`whatBump`, `warn`, the callback, a factory) are not modelled. A failing factory, a nullish config or anything else thrown inside the config promise's continuation ends as `Stalled`: the source has no rejection handler, so the callback is never called.
- Numbers are integers: `NaN`, infinities and fractional levels are not modelled.
- Objects are maps of their own enumerable properties. Prototype chains, key order, getters and inherited members are not modelled: `VERSIONS[level]` for a key such as `"map"` reads nothing. The own properties of functions, including `length`, are not modelled either.
- JsValue.LowerCase: only the ASCII letters `A` to `Z` are lower-cased; JavaScript's `toLowerCase` also maps the rest of Unicode.
- RecommendedBump.PresetModuleName: the preset name is lower-cased by `JsValue.LowerCase`, so a name with non-ASCII capitals gives a different module name than in JavaScript.
- RecommendedBump.LoadPreset: a non-string preset that has its own `toLowerCase` method is treated like any other non-string preset.
- Strings are sequences of Unicode code points, while JavaScript strings are sequences of UTF-16 code units. For characters outside the Basic Multilingual Plane the model's string `length`, index keys and the properties `Object.assign` copies from a string differ from JavaScript's (one position where JavaScript has two).
- `String()` of a function gives `"function"` rather than its source text.
- Aliasing: the source writes `releaseType` onto the object `whatBump` returned. The model produces a new value, so a caller that keeps a reference to that object does not see the change.
- `RecommendedBump.NoCommits`: a function commit set always counts as empty, because a function's `length`, its arity, is not modelled.

# yacd dashboard core, modelled in Dafny

yacd is a web dashboard for Clash-style proxy daemons. Most of its code renders
pages. This project models the small pieces of logic that sit between the pages
and the daemon's REST API, and proves what they promise:

- **Settings page** (`ConfigView`). It covers:
  - how an edit of one field changes the local copy of the general config;
  - which PATCH an edit issues;
  - what leaving an input field does;
  - what a successful PATCH triggers;
  - how the proxy mode is labelled;
  - when the local copy is reset to the config the page receives.
- **PATCH shim** (`ConfigsApi`). It mirrors `socks-port` under the legacy key
  `socket-port` in the caller's own object. The shimmed object is the PATCH
  body.
- **Version normalisation** (`VersionApi`). It fills in the default version
  `v1.0.0`, derives `plus_pro` from the version text and normalises `premium`.
  All three fields are overwritten on one object.
- **Log stream controller** (`LogsView`). A one-bit flag, `refFetch`, records
  whether a log stream is open. Pausing, a level change, unmounting and the
  fetch effect all read or write it. The module also covers the choice between
  the placeholder and the log list.
- **Connection table columns** (`ConnectionTable`). It covers:
  - the two column lists, with and without `process`;
  - which columns are shown and the `--col-count` value;
  - the traffic highlight and the row parity class;
  - cell formatting and the initial sort.
- **Byte formatting** (`PrettyBytes`). It covers the `< 1024` branch and the
  choice of unit, over integers.
- **Switch component** (`ToggleSwitch`). Its local `checked` state follows the
  controlling prop, and clicks are ignored while it is disabled.

`Js` holds the parts of JavaScript's value model that these pieces rely on:
- objects as property maps;
- truthiness;
- `parseInt(_, 10)`;
- integer-to-text conversion;
- `JSON.stringify` of `NaN`;
- `indexOf`;
- upper-casing one character.

Code that updates objects or refs in place is modelled as classes:
- `Js.JsObject` is the object that the shim and `fetchVersion` write into;
- the settings page, the logs page and the switch are `ConfigComponent`,
  `LogsComponent` and `ToggleComponent`.

Each method is specified by a pure function of the old state, and the
properties are lemmas about those functions. Calls into code outside the model
are recorded in ghost fields:
- `mutation.mutate`, `fetchLogs`, `stopLogs`, `updateAppConfig`;
- the parent's `onChange`.

Behaviour kept as written:
- A port value that `parseInt` cannot read is accepted while typing, because
  both range comparisons with `NaN` are false.
- Leaving such a port field sends `NaN`, which `JSON.stringify` writes as `null`.
- An empty mode string makes the mode label throw a `TypeError`.
- An undefined `checked` prop never equals the switch's ref. So every run of
  the sync effect resets the switch to off.

## Model

| member | source | states |
|---|---|---|
| Js.JsonValue | src/api/configs.ts:22 | The serialised value has no `NaN` in it. A value without `NaN` is unchanged. Objects keep their keys: a `NaN` field becomes `null`, and every field without `NaN` is written unchanged. |
| Js.ParseInt | src/components/Config.tsx:138 | Text that, after white space, starts with neither a digit nor a sign gives `NaN`. Text that starts with a digit gives a non-negative number, read from its leading digits. |
| Js.ParseIntSkipsWhiteSpace | src/components/Config.tsx:138 | A leading white-space character is skipped: the text parses as the text after it. |
| Js.ParseIntPlus | src/components/Config.tsx:138 | A leading `+` is dropped and the digits after it are read; no digits gives `NaN`. |
| Js.ParseIntMinus | src/components/Config.tsx:138 | A leading `-` negates the number read from the digits after it; no digits gives `NaN`. |
| Js.ParseIntOfDecimal | src/components/Config.tsx:138 | `parseInt` reads back every integer written in decimal, whatever non-digit text follows it. |
| Js.ParseIntValueCases | src/components/Config.tsx:138 | Applied to a non-string value, `parseInt` gives the number back for a number and `NaN` for null, booleans, `NaN` and objects. |
| Js.TrimStart | src/components/Config.tsx:138 | The text `parseInt` reads is a suffix of its input. Only white space is skipped, and the suffix does not start with white space. |
| Js.DigitPrefix | src/components/Config.tsx:138 | The digits `parseInt` consumes are the longest run of digits at the start. |
| Js.IndexOf | src/api/version.ts:12 | The result is -1 or a position where the pattern occurs. No occurrence comes before it. |
| Js.IndexOfFindsOccurrence | src/api/version.ts:12 | `indexOf(p) > -1` holds exactly when `p` occurs in the text. |
| Js.ToUpperAscii | src/components/Config.tsx:209 | A lower-case Latin letter becomes its capital. Every other character is unchanged. |
| ConfigsApi.PatchedProps | src/api/configs.ts:41-47 | With `socks-port` present, `socket-port` gets its value. Without it, the object is unchanged. No other key is added or changed. |
| ConfigsApi.PatchedPropsIdempotent | src/api/configs.ts:41-47 | Applying the shim twice is the same as applying it once. |
| ConfigsApi.PatchedPropsKeepsOthers | src/api/configs.ts:43-45 | Every key other than `socket-port` keeps both its presence and its value. |
| ConfigsApi.ConfigsPatchWorkaround | src/api/configs.ts:41-47 | The caller's object is rewritten in place and that same object is returned. |
| ConfigsApi.UpdateConfigs | src/api/configs.ts:19-25 | The request is a PATCH. Its body is the serialisation of the shimmed object, and the caller's object is left shimmed. |
| ConfigsApi.PatchBody | src/api/configs.ts:22 | The body is a JSON object with the shimmed keys. `socket-port` repeats `socks-port`. Every other field is sent unchanged if it holds no `NaN`, and as `null` if it is `NaN`. |
| ConfigsApi.UpdateConfigsSendsPatchBody | src/api/configs.ts:19-25 | `updateConfigs` sends exactly `PatchBody` of the object it was given. |
| ConfigsApi.SocksPortMirrored | src/api/configs.ts:43-45 | Patching `{socks-port: 1080}` sends `socks-port` and `socket-port`, both 1080. |
| VersionApi.NoAnswer | src/api/version.ts:10 | The object used without an answer has the three keys, and its version and `premium` are falsy, so both defaults apply. |
| VersionApi.FilledVersion | src/api/version.ts:11 | A truthy version is kept. Otherwise the version is `v1.0.0`. |
| VersionApi.Normalised | src/api/version.ts:10-14 | The call fails exactly when the daemon's version is truthy and not a string (the filled-in version is not a string). On success: `plus_pro` is true exactly when the final version contains `PlusPro`; a falsy `premium` becomes false and a truthy one is kept; other fields are untouched. |
| VersionApi.FetchVersion | src/api/version.ts:10-14 | The answer object is overwritten field by field into `Normalised` of its old contents. The same object is returned. With no answer, a fresh default object is returned. |
| VersionApi.NoAnswerDefaults | src/api/version.ts:10-13 | With no answer the result is version `v1.0.0`, `plus_pro` false and `premium` false. |
| VersionApi.PlusProOverridden | src/api/version.ts:12 | Whatever `plus_pro` the daemon sent has no effect on the result. |
| VersionApi.PlusProDetected | src/api/version.ts:11-12 | For every object whose version is a non-empty string: the version is kept, and `plus_pro` is true exactly when it contains `PlusPro`. |
| VersionApi.PlusProAbsent | src/api/version.ts:12 | For every object whose non-empty version string lacks `PlusPro`, `plus_pro` is false. |
| VersionApi.EmptyVersionDefaulted | src/api/version.ts:11-12 | For every object whose version is missing or falsy, the version becomes `v1.0.0` and `plus_pro` is false. |
| VersionApi.PlusProExamples | src/api/version.ts:12 | `v2023.01.01-PlusPro` is flagged and `v1.18.0` is not. |
| PrettyBytes.FloorLog1024 | src/misc/pretty-bytes.ts:9 | The exponent `e` satisfies 1024^e <= n < 1024^(e+1). |
| PrettyBytes.Exponent | src/misc/pretty-bytes.ts:9 | From 1024 bytes on, the exponent is in 1..8 with 1024^e <= n. Below the cap, n < 1024^(e+1). |
| PrettyBytes.MonotonePow | src/misc/pretty-bytes.ts:9 | Powers of 1024 grow with the exponent. |
| PrettyBytes.ExponentIsLargest | src/misc/pretty-bytes.ts:9 | No larger exponent up to 8 fits. The chosen one is the largest. |
| PrettyBytes.UnitFor | src/misc/pretty-bytes.ts:3-11 | The unit is one of `UNITS`. It is `B` exactly when n < 1024. |
| PrettyBytes.PrettyBytes | src/misc/pretty-bytes.ts:5-12 | Below 1024 the text is `n + ' B'`. From 1024 on it is the mantissa, a space and the unit. Either way it ends in a space and the unit. |
| PrettyBytes.UnitBoundaries | src/misc/pretty-bytes.ts:6-11 | 1023 is in `B`, 1024 starts `KB`, 1024²-1 is still `KB` and 1024² is `MB`. |
| PrettyBytes.HugeCountsInYottabytes | src/misc/pretty-bytes.ts:9 | Counts past 1024^9 are still shown in `YB`. |
| ConnectionTable.FullColumns | src/components/ConnectionTable.tsx:15-29 | There are thirteen columns, in the dashboard's order. |
| ConnectionTable.NamesDistinct | src/components/ConnectionTable.tsx:15-29 | Two accessors have the same string exactly when they are the same accessor, so comparing the datatype is comparing yacd's strings. |
| ConnectionTable.WithoutAccessor | src/components/ConnectionTable.tsx:32 | Filtering never lengthens the list. |
| ConnectionTable.WithoutAccessorAppend | src/components/ConnectionTable.tsx:32 | The filter distributes over concatenation, so it keeps the order. |
| ConnectionTable.WithoutAccessorMembers | src/components/ConnectionTable.tsx:32 | The filter keeps exactly the columns with another accessor. |
| ConnectionTable.ColumnsWithoutProcess | src/components/ConnectionTable.tsx:32 | There are twelve columns, and none of them is `process`. |
| ConnectionTable.ColumnsFor | src/components/ConnectionTable.tsx:63 | With the process path there are thirteen columns, `process` among them. Without it there are twelve, none of them `process`. `id` is first either way. |
| ConnectionTable.FullColumnsAccessorsUnique | src/components/ConnectionTable.tsx:15-29 | No two columns share an accessor. |
| ConnectionTable.WithoutProcessDropsOnlyProcess | src/components/ConnectionTable.tsx:15-32 | `columnsWithoutProcess` is the full list with only the `process` column taken out, and the order kept. |
| ConnectionTable.WithoutSingle | src/components/ConnectionTable.tsx:32 | Filtering out an accessor that only one position has removes just that position. |
| ConnectionTable.VisibleWithProcess | src/components/ConnectionTable.tsx:15-63 | With the process column, all columns but `id` are shown, in order. |
| ConnectionTable.VisibleWithoutProcess | src/components/ConnectionTable.tsx:15-63 | Without it, all columns but `id` and `process` are shown, in order. |
| ConnectionTable.HiddenAfterDrop | src/components/ConnectionTable.tsx:32-55 | Dropping one column and then hiding the first leaves the others, in order. |
| ConnectionTable.VisibleAt | src/components/ConnectionTable.tsx:55-63 | Shown column `j` is full column `j+1` with process, or full column `j+2` past the first without it. |
| ConnectionTable.FullColumnsRoles | src/components/ConnectionTable.tsx:15-29 | The positions are: `id` 0, `process` 2, the traffic columns 3..6 and `start` 9. `sortDescFirst` is set at 3..6 and 9. |
| ConnectionTable.ColCount | src/components/ConnectionTable.tsx:79 | The `--col-count` text reads back as 12 with the process path and 11 without. |
| ConnectionTable.ColCountMatchesVisible | src/components/ConnectionTable.tsx:55-79 | 12 columns are shown with process and 11 without. `--col-count` is that number as text. |
| ConnectionTable.IsDuCell | src/components/ConnectionTable.tsx:108-114 | The highlight is four cells in a row, starting at position 2 with the process path and 1 without. |
| ConnectionTable.DuCellsAreTraffic | src/components/ConnectionTable.tsx:108-114 | The `du` range (2..5 with process, 1..4 without) is exactly the shown positions of `download`, `upload` and the two speeds. |
| ConnectionTable.CellClasses | src/components/ConnectionTable.tsx:105-115 | Every cell has `td`. `odd` is present exactly on even rows, and `du` exactly in the highlight range. |
| ConnectionTable.RowParityAlternates | src/components/ConnectionTable.tsx:107 | Adjacent rows differ in the parity class, and the first row has it. |
| ConnectionTable.RenderCell | src/components/ConnectionTable.tsx:34-47 | Only `start` is sent to `formatDistance`. Only the four traffic columns become text: sizes as `prettyBytes(v)`, speeds with `/s` appended. Every other column shows its value as is. |
| ConnectionTable.DuCellsAreFormatted | src/components/ConnectionTable.tsx:108-114 | The highlighted cells are exactly the cells formatted as sizes. |
| ConnectionTable.RateCellShape | src/components/ConnectionTable.tsx:41-43 | A speed cell ends in a space, the unit and `/s`. |
| ConnectionTable.InitialSortOnHiddenId | src/components/ConnectionTable.tsx:49-56 | The initial sort is on `id`, descending, and `id` is hidden. `id` leads both column lists. |
| ConnectionTable.DescFirstColumns | src/components/ConnectionTable.tsx:13-25 | `sortDescFirst` is set on exactly download, upload, both speeds and start. |
| ConfigView.NameClassesDisjoint | src/components/Config.tsx:124-149 | The switch's name groups do not overlap. None of them is `tun` or `latencyTestUrl`. |
| ConfigView.SetConfigState | src/components/Config.tsx:94-99 | The new state sets the named key to the value and changes no other key. |
| ConfigView.SetConfigStateLastWins | src/components/Config.tsx:94-99 | Of two writes to one key, the later wins. |
| ConfigView.SetConfigStateSameValue | src/components/Config.tsx:94-99 | Writing a key's own value back changes nothing. |
| ConfigView.ChangeValue | src/components/Config.tsx:122-153 | For `mode`, `log-level`, `allow-lan` and `sniffing`: set that key and send `{name: value}`. For ports: no PATCH, and the state is set unless the edit is rejected. For `enable` and `stack`: nest the value into `tun` and send `{tun: {name: value}}`. Any other name does nothing. |
| ConfigView.PortEditRejected | src/components/Config.tsx:137-139 | Only a string or a number can be rejected. A number is rejected exactly when it is outside 0..65535. Empty text is never rejected. |
| ConfigView.TunFields | src/components/Config.tsx:145 | The spread copies every field of an object `tun`, and nothing from a missing or non-object `tun`. |
| ConfigView.TunEditKeepsOtherTunFields | src/components/Config.tsx:143-146 | A tun edit keeps the other tun fields. |
| ConfigView.UnparsablePortTextAccepted | src/components/Config.tsx:137-141 | Port text that `parseInt` cannot read is accepted into the local state. |
| ConfigView.EmptyPortTextAccepted | src/components/Config.tsx:137-141 | Clearing a port field is accepted. |
| ConfigView.PortNumberRangeCheck | src/components/Config.tsx:137-141 | A decimal port value is accepted exactly when it is in 0..65535. |
| ConfigView.SwitchOnChange | src/components/Config.tsx:112-120 | The `allow-lan` switch behaves as an `allow-lan` edit. |
| ConfigView.InputOnBlur | src/components/Config.tsx:160-184 | For ports: a number in range is sent, a number out of range is ignored, and unreadable text is sent as `NaN`. `latencyTestUrl` stores the URL. Any other name throws `unknown input name <name>`. |
| ConfigView.UnknownNameIgnoredThenThrows | src/components/Config.tsx:148-180 | An unknown name is a no-op on change but throws on blur. |
| ConfigView.LatencyTestUrlOnlyOnBlur | src/components/Config.tsx:148-177 | Typing the latency URL leaves the config alone. Leaving the field stores the URL. |
| ConfigView.BlurPortPayload | src/components/Config.tsx:165-173 | A blur PATCH carries one key, holding an in-range number or `NaN`. The `NaN` reaches the daemon as `null`. |
| ConfigView.SocksPortBlurSendsBoth | src/components/Config.tsx:165-173 | Leaving the SOCKS field with `1080` sends `socks-port: 1080` and `socket-port: 1080`. |
| ConfigView.OnMutationSuccess | src/components/Config.tsx:104-109 | Connections are closed exactly when the sent object has a truthy `tun`. The `/configs` query is always invalidated. |
| ConfigView.SuccessIgnoresShim | src/components/Config.tsx:104-109 | The shim has rewritten the variables in place, and that does not change the outcome of `onSuccess`. |
| ConfigView.ClosesConnectionsIffTunEdit | src/components/Config.tsx:104-109 | After an edit's PATCH succeeds, connections are closed exactly when the edit was a tun field. |
| ConfigView.BlurNeverClosesConnections | src/components/Config.tsx:104-109 | A port PATCH from a blur never closes connections. |
| ConfigView.ModeOf | src/components/Config.tsx:207-210 | A non-empty string mode is shown with its first character upper-cased and the rest unchanged. An empty one throws. A mode that is not a string gives `false`. |
| ConfigView.ModeLabelIdempotent | src/components/Config.tsx:207-210 | Labelling an already labelled mode changes nothing. |
| ConfigView.ModeLabelsMatchOptions | src/components/Config.tsx:58-63 | `direct`, `rule`, `script` and `global` are labelled as the selector's options. |
| ConfigView.ConfigComponent.constructor | src/components/Config.tsx:86-87 | The state and the ref both start from the `configs` prop. |
| ConfigView.ConfigComponent.ResyncEffect | src/components/Config.tsx:88-93 | The state is reset only when the prop is a different object from the last one seen. The ref then holds the prop. |
| ConfigView.ConfigComponent.Apply | src/components/Config.tsx:141-146 | The state becomes the handler's new state if there is one. The mutation, if any, is appended to the recorded calls. Nothing else changes. |
| ConfigView.ConfigComponent.HandleChangeValue | src/components/Config.tsx:122-153 | The state and the mutations become what `ChangeValue` decided. Nothing else changes. |
| ConfigView.ConfigComponent.HandleSwitchOnChange | src/components/Config.tsx:112-120 | `allow-lan` is set and sent once. |
| ConfigView.ConfigComponent.HandleInputOnBlur | src/components/Config.tsx:160-184 | Applies `InputOnBlur`: it records the PATCH, stores the URL, or reports the error. The config state is unchanged. |
| ConfigView.EditSurvivesSameProp | src/components/Config.tsx:88-93 | A local edit survives a re-render with the same prop object. |
| ConfigView.NewPropDiscardsEdit | src/components/Config.tsx:88-93 | A new prop object replaces local edits, even one with equal contents. |
| LogsView.StopIfActive | src/components/Logs.tsx:88-91 | Stop is called, and the flag cleared, exactly when the flag is 1. Nothing else changes. |
| LogsView.Mounted | src/components/Logs.tsx:85 | The first render is balanced, with the flag at 0 and no call made. |
| LogsView.Step | src/components/Logs.tsx:87-124 | Only the fetch effect opens a stream or calls `fetchLogs`, and it never stops a stream or writes a setting. Each event keeps the earlier calls and adds at most one call of each kind. |
| LogsView.Run | src/components/Logs.tsx:87-124 | Over a sequence of events, the record of calls only grows, by at most one call of each kind per event. |
| LogsView.Balanced | src/components/Logs.tsx:85-124 | In a balanced state, `stopLogs` has been called no more often than a stream was opened, and that no more often than `fetchLogs`. |
| LogsView.StepBalanced | src/components/Logs.tsx:87-124 | Every event keeps the invariant. The flag stays 0 or 1, and each opening of the stream is either stopped once or still open. |
| LogsView.RunBalanced | src/components/Logs.tsx:87-124 | Every event sequence keeps the invariant. `stopLogs` is never called more often than `fetchLogs`. |
| LogsView.StopOnlyWhenActive | src/components/Logs.tsx:88-114 | No event calls `stopLogs` while the flag is 0 or calls it twice. After a stop the flag is 0. |
| LogsView.PausedEffectDoesNothing | src/components/Logs.tsx:118-119 | While paused, the fetch effect changes nothing. |
| LogsView.EffectFetches | src/components/Logs.tsx:120-123 | Not paused, the effect leaves the flag at 1 and calls `fetchLogs` once with the current level. |
| LogsView.ToggleStopsAndFlips | src/components/Logs.tsx:87-93 | The toggle stops exactly when the flag is 1 and clears the flag. It always writes the negated pause setting. |
| LogsView.SameLevelIsNoOp | src/components/Logs.tsx:98 | Choosing the current level changes nothing. |
| LogsView.OtherLevelStops | src/components/Logs.tsx:99-103 | Another level stops an open stream, clears the flag and stores the level. |
| LogsView.UnmountIdempotent | src/components/Logs.tsx:109-115 | Running the cleanup twice is the same as once. |
| LogsView.PauseResumeReopens | src/components/Logs.tsx:87-124 | Pause, resume and the next effect end with a stream open on the current level. |
| LogsView.LogsComponent.constructor | src/components/Logs.tsx:85 | The flag starts at 0 and nothing has been called. |
| LogsView.LogsComponent.StopLogsIfActive | src/components/Logs.tsx:88-91 | The state becomes `StopIfActive` of the old state. |
| LogsView.LogsComponent.ToggleIsRefreshPaused | src/components/Logs.tsx:87-93 | The state becomes `Step` of the old state under a pause toggle. |
| LogsView.LogsComponent.OnChangeLogLevel | src/components/Logs.tsx:95-106 | The state becomes `Step` of the old state under a level change. |
| LogsView.LogsComponent.Cleanup | src/components/Logs.tsx:109-116 | The state becomes `Step` of the old state under unmounting. |
| LogsView.LogsComponent.FetchEffect | src/components/Logs.tsx:118-124 | The state becomes `Step` of the old state under one run of the fetch effect. |
| LogsView.ItemKey | src/components/Logs.tsx:56-59 | The key of a row is the id of a log in the list. |
| LogsView.ItemKeysDistinct | src/components/Logs.tsx:56-59 | Distinct log ids give distinct row keys. |
| LogsView.Body | src/components/Logs.tsx:141-166 | The placeholder is shown exactly when there are no logs. Otherwise the list has one item per log. |
| LogsView.EveryRowHasKey | src/components/Logs.tsx:157-163 | Every row the list can ask for has the key of its own log. |
| ToggleSwitch.Bang | src/components/form/Toggle.tsx:27-31 | `!!prop` is true exactly when the prop is `true`. |
| ToggleSwitch.Initial | src/components/form/Toggle.tsx:27-28 | Both the state and the ref start as `!!checked`. |
| ToggleSwitch.PropDiffers | src/components/form/Toggle.tsx:30 | An undefined prop always differs from the ref. A boolean prop differs exactly when it is the other boolean. |
| ToggleSwitch.Sync | src/components/form/Toggle.tsx:29-32 | After the effect, the ref is `!!checked`. |
| ToggleSwitch.UserChange | src/components/form/Toggle.tsx:33-40 | A click never touches the ref. |
| ToggleSwitch.PropChangeWins | src/components/form/Toggle.tsx:29-32 | A prop different from the ref is taken into the state. |
| ToggleSwitch.SamePropKeepsLocal | src/components/form/Toggle.tsx:29-32 | A prop equal to the ref leaves the local state alone. |
| ToggleSwitch.UndefinedPropResets | src/components/form/Toggle.tsx:29-32 | An undefined prop resets the state to false on every run of the effect. |
| ToggleSwitch.SyncIdempotent | src/components/form/Toggle.tsx:29-32 | Running the effect twice with a boolean prop is the same as once. |
| ToggleSwitch.DisabledIgnoresClicks | src/components/form/Toggle.tsx:35 | A disabled switch ignores clicks and does not call the parent. |
| ToggleSwitch.EnabledClickForwards | src/components/form/Toggle.tsx:36-37 | An enabled switch takes the clicked value and calls the parent once, if there is a handler. |
| ToggleSwitch.ControlledRoundTrip | src/components/form/Toggle.tsx:29-37 | When the parent feeds the clicked value back as the prop, the switch keeps it. |
| ToggleSwitch.ToggleComponent.constructor | src/components/form/Toggle.tsx:27-28 | The component starts in `Initial`. |
| ToggleSwitch.ToggleComponent.SyncEffect | src/components/form/Toggle.tsx:29-32 | The state becomes `Sync` of the old state. |
| ToggleSwitch.ToggleComponent.OnChange | src/components/form/Toggle.tsx:33-40 | The state becomes `UserChange` of the old state. |

## Left out

- Rendering is not modelled: JSX, CSS classes beyond the index and parity rules, i18n (`t`, `changeLanguage`) and navigation.
- Other settings-page controls are not modelled: the language, chart-style and pure-black selectors, and the reload, GEO and fake-IP buttons with their mutations. They only make network calls or store UI preferences.
- Network calls are not modelled: `fetch`, `req`, `query`, `getURLAndInit`, `fetchConfigs`, `fetchConfigs2`, `reloadConfigFile`, `updateGeoDatabasesFile`, `flushFakeIPPool` and `closeAllConnections`. A PATCH is a `Request` value holding its method and body. `closeAllConnections` and `invalidateQueries` are outputs of `OnMutationSuccess`.
- `fetchLogs`, `stopLogs`, `appendLog`, `getLogsForDisplay` and the store behind `updateAppConfig` are not modelled. Their calls are counted or recorded. A written setting is taken to reach the page as its new prop.
- React's scheduling is not modelled. The caller decides when an effect runs (on mount, or when its dependencies change) and when a handler fires. Batched renders and stale closures are not modelled.
- react-table's sorting and row model, and react-window's virtualised list, are not modelled. Only the initial state handed to them, the visible cells and the item count and keys are.
- `formatDistance` for the `start` cell is not modelled (a date-fns call). The cell records the value passed to it.
- PrettyBytes.PrettyBytes: the mantissa (the count divided by the unit's power, rounded to three significant digits) is floating point and is passed in as text. The exponent is computed exactly over integers, while yacd takes a floating-point logarithm. From 1024^5 on, the logarithm of a count just below a power of 1024 (such as 2^50 - 1) can round to the logarithm of that power. yacd then picks the larger unit (PB) where the model picks the smaller (TB). This is not modelled.
- Js.Value: numbers are integers plus `NaN`. `String(n)` is modelled for integers, and fractions and exponent notation for numbers of 1e21 or more are not modelled. `parseInt` can also give `-0` (for `-0`) and `Infinity` (for a run of digits past about 1.8e308), and the model has neither. The outcome still agrees. `-0` passes the port range check and is written as `0`, just as the model's 0 is. `Infinity` fails the check, just as the model's integer above 65535 does.
- Js.ToUpperAscii: only Basic Latin letters are upper-cased. Full Unicode case mapping and UTF-16 code units (what `m[0]` reads) are not modelled.
- ConfigView.TunFields: spreading a `tun` that is a string gives its characters under index keys. The model treats any non-object `tun` as empty.
- VersionApi.FetchVersion: an answer that is truthy but not an object is not modelled. `null` stands for every falsy answer.
- ConnectionTable.Accessor: accessors are a datatype. `Name` gives yacd's strings, and `NamesDistinct` shows that comparing them is comparing the datatype. Column headers outside the table logic are carried as given.
- LogsView.Log: `src/store/types` is not part of this model. The log record has the fields the page reads, with `id` as a string.
- `AppConfigSideEffect.tsx` is not modelled: a throttled, timer-driven save to storage. Neither are `About.tsx`, `ErrorBoundaryFallback.tsx` and `store/configs.ts`, which are rendering and query-hook wiring.

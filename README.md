# dashboard-tabs: a Dafny model of the tab shell's rules

dashboard-tabs is a Looker extension that shows a set of dashboards as tabs. The ids come
from the extension's configuration, from a folder, from a board, or from an ad hoc list
written in the URL path. This project models the rules behind that shell, one Dafny
module per source file:

- `SearchParams` (`useSearchParams`): the query-parameter store. `updateSearchParams` merges
  a patch, where `null`/`undefined` deletes a key, and replaces the history entry.
- `UrlToRecord` (`urlToRecord`): splits an embedded page's query into dashboard filters and
  the five reserved keys.
- `AdhocSwitch` (`SwitchToAdhocDashboard`): the `/dashboards/<id>/…?k=v&…` URL the switch
  pushes.
- `AppContext`: the folder id read from the path, the initial state, and the two effects
  that write `global_filters` and `dashboard_id` into the store.
- `Dashboard`: resolves the initial dashboard, mounts the embed only once, overlays the
  theme on the embed parameters, and handles `page:changed`.
- `BoardList` (`getBoardList`): flattens a board into section and dashboard entries.
- `Config` (`ConfigContext`) and `ExtensionContext` (`useExtensionContextData`, the older
  hook): the `??` defaults, the group permission rule, and `updateValues`, which merges
  values into the stored configuration with deletion.
- `Settings`: the settings dialog, with its `||` initial values, the validator, and
  close-only-if-valid.
- `ConfiguredButtons`: the navigation mode, the dashboards on show, the ordered action
  buttons, and the 0/1/many rendering choice.
- `PrintAll`: composes the PDF render URL, chooses the dashboards to print, and runs the
  loop that opens one window per dashboard.
- `Constants`: `createDashboardTheme`, with a JSON string reader beside the writer.
- `Color` (`colorUtils`): the hex parser, the WCAG 2.1 thresholds of success criteria 1.4.3
  and 1.4.6, and the text-colour choosers.
- `Toast`: the toast list, its typed wrappers and removal by id, the type-to-intent map,
  and one toast's close paths.
- Shared helper modules:
  - `Wrappers`: `Option`/`Result`.
  - `Strings`: split/join and JavaScript truthiness of optional strings.
  - `Hex`: hexadecimal digits.
  - `Records`: ordered `(key, value)` lists that stand for both `URLSearchParams` and JavaScript
    objects. `Set` follows `URLSearchParams.set` in section 6.2 of the URL Standard: the first
    pair with the key is replaced in place, later pairs with that key are removed, and a new
    key is appended. `Object.fromEntries` lets the last pair win, and `{...a, ...b}` is
    `FromEntries(a + b)`.

State the source changes in place becomes a class. Examples: the store, the app state, the
two configuration hooks, the settings dialog, the print-all button, the toast list and one
toast. A call into code that is not shown becomes an input or a recorded call. Examples:
the SDK, `history`, `console`, `changeDashboardId`, `getSearchParams`, `THEME`. JavaScript
truthiness (`||` against `??`) is written out explicitly.

Two behaviours of the code are easy to miss:

- An ad-hoc path keeps its ids in order, duplicates included (`join("/")`):
  `AdhocSwitch.AdhocPathRoundTrip` reads the same list back.
- The `!` dereferences in `getBoardList` throw when `section_order` is missing, when
  `board_sections` is missing under a non-empty `section_order`, or when a section with
  items has no `item_order`. The model returns an error there: see
  `BoardList.BoardListFails`.

## Model

| member | source | states |
|---|---|---|
| SearchParams.SearchParamsStore.constructor | src/hooks/useSearchParams.tsx:6-8 | The initial parameters are `Object.fromEntries` of the location query, and no history call has been made yet. |
| SearchParams.InitialParamsLastWins | src/hooks/useSearchParams.tsx:6-8 | An initial parameter equals `v` exactly when the last pair of the location query with that key carries `v`. |
| SearchParams.SearchParamsStore.UpdateSearchParams | src/hooks/useSearchParams.tsx:10-25 | The new state is the patch merged into the `search_params` the callback closed over, which is the current state unless an earlier call in the same commit replaced it. The one history call is a `replace` carrying that same state. |
| SearchParams.SearchParamsStore.Merged | src/hooks/useSearchParams.tsx:12-19 | The loop over the patch entries deletes the key on `None` and otherwise sets it, giving exactly the merged params, with unique keys. |
| SearchParams.UpdateMerges | src/hooks/useSearchParams.tsx:12-19 | After an update, a key the patch names with `null`/`undefined` is absent, and a key the patch names with a value holds that value. Every key the patch does not name keeps its previous value. |
| SearchParams.UpdateIdempotent | src/hooks/useSearchParams.tsx:13-20 | Applying the same patch a second time yields the params of applying it once. |
| SearchParams.UpdateKeepsPositions | src/hooks/useSearchParams.tsx:17 | Setting a key that is present replaces it at its own position. A new key is appended at the end. |
| Records.Set | src/hooks/useSearchParams.tsx:17 | After `set(k, v)`, `k` reads `v` and every other key reads as before. The key set gains only `k`, unique keys stay unique, and a new key is appended. |
| Records.SetInPlace | src/hooks/useSearchParams.tsx:17 | On a record with unique keys, setting a present key replaces exactly that pair. |
| Records.Delete | src/hooks/useSearchParams.tsx:15 | After `delete(k)`, `k` is absent and every other key reads as before. Deleting an absent key changes nothing. |
| Records.FromEntries | src/hooks/useSearchParams.tsx:20 | `Object.fromEntries` gives unique keys, and each key holds the value of its last pair. |
| Records.FromEntriesOfRecord | src/ConfigContext.tsx:120 | Copying a record with unique keys (`{ ...current }`) gives that same record. |
| Records.ApplyPatch | src/hooks/useSearchParams.tsx:13-19 | A key reads the last value the patch gives it (absent for `None`), and otherwise its old value. Unique keys stay unique. |
| Records.ApplyPatchIdempotent | src/hooks/useSearchParams.tsx:13-20 | Applying a patch with unique keys twice equals applying it once. |
| Records.ApplyOwnEntries | src/AppContext.tsx:40-42 | Merging a record's own entries into it changes nothing. |
| Records.Spread | src/Sidebar/PrintAll.tsx:21-29 | `{...a, ...b}` has unique keys. A key reads its last value in `b` if `b` has it, and its last value in `a` otherwise. |
| Records.RemoveKeys | src/utils/urlToRecord.ts:3-9 | The rest pattern `...entries` has none of the removed keys. Every other key is unchanged. |
| Records.LastValueSpec | src/hooks/useSearchParams.tsx:7 | The last value of `k` is `v` exactly when some pair `(k, v)` has no later pair with key `k`. |
| UrlToRecord.UrlToRecord | src/utils/urlToRecord.ts:1-16 | A malformed URL is an error. Otherwise `filters` has unique keys, and every non-reserved key maps to its last non-empty value. `others` holds the last non-empty value of each of the five reserved keys, or `None`. |
| UrlToRecord.NonEmptyValues | src/utils/urlToRecord.ts:11 | No remaining pair has an empty value, and each key's last remaining value is its last non-empty value. |
| UrlToRecord.FiltersClean | src/utils/urlToRecord.ts:3-14 | Every filter has a non-reserved key and a non-empty value, so the keys of `filters` and `others` are disjoint. |
| UrlToRecord.FilterPresent | src/utils/urlToRecord.ts:10-14 | A non-reserved key whose last non-empty value is `v` appears in `filters` with `v`. |
| UrlToRecord.ReservedAbsent | src/utils/urlToRecord.ts:15 | A reserved key that is missing, or has only empty values, reads `undefined`. |
| UrlToRecord.EmptyValuesIgnored | src/utils/urlToRecord.ts:11 | Dropping empty values before the call changes nothing about the result. |
| AdhocSwitch.AdhocPathRoundTrip | src/Sidebar/SwitchToAdhocDashboard.tsx:13-15 | The path is `/dashboards` for no ids. Otherwise it is `/dashboards/` and the ids joined by `/`. When no id contains `/`, it reads back as the same ids in the same order, duplicates kept. |
| AdhocSwitch.SwitchTargetAsWrittenSplits | src/Sidebar/SwitchToAdhocDashboard.tsx:12-19 | When no id holds a `?`, the pushed URL splits at its first `?` into the path and the raw `key=value&…` query. The `?` is there even with no params. |
| AdhocSwitch.RawQueryStringAmbiguous | src/Sidebar/SwitchToAdhocDashboard.tsx:16-18 | Two different parameter lists give the same unencoded query string. |
| AdhocSwitch.PercentRoundTrip | src/Sidebar/SwitchToAdhocDashboard.tsx:17 | Percent-decoding the percent-encoding of a text gives the text back. |
| AdhocSwitch.EncodedQueryRoundTrip | src/Sidebar/SwitchToAdhocDashboard.tsx:16-18 | The encoded query string decodes, under `application/x-www-form-urlencoded` rules, to exactly the parameter list. |
| AdhocSwitch.SwitchTargetRoundTrip | src/Sidebar/SwitchToAdhocDashboard.tsx:12-19 | The corrected URL splits into the ad-hoc path and a query. They read back as the ids and as every parameter, in order. |
| AppContext.FolderIdDefinedUnderFolders | src/AppContext.tsx:38 | There is a folder id exactly when the path starts with `/folders/`. |
| AppContext.FolderIdOfPath | src/AppContext.tsx:38 | Under `/folders/`, the folder id is the third `/`-segment: the text up to the next `/` or the end. |
| AppContext.FolderIdOfBarePrefix | src/AppContext.tsx:38 | `/folders/` alone gives the empty id. |
| AppContext.FolderIdOfNestedPath | src/AppContext.tsx:38 | `/folders/12/x` gives `12`. |
| AppContext.AppState.constructor | src/AppContext.tsx:30-46 | The filters start as the whole parameter map, and the selection as its `dashboard_id`. The two mount effects write to the store without changing it, and each leaves a `replace` call. |
| AppContext.AppState.SetGlobalFilters | src/AppContext.tsx:40-42 | Every filter is merged into the params. Keys the filters do not name keep their values, and the selection and the connection are unchanged. |
| AppContext.AppState.SetSelectedDashboardId | src/AppContext.tsx:44-46 | Afterwards `dashboard_id` equals the new selection, or is deleted when the selection is `undefined`. Setting the current value again does not change the params. |
| AppContext.AppState.SetDashboard | src/AppContext.tsx:33 | Only the connection changes. |
| AppContext.AppState.SetFiltersAndSelection | src/AppContext.tsx:40-46 | Both setters in one event handler: one render, and both effects merge into that render's `search_params`. With an unchanged selection the filters are merged as usual. With a new selection the final params are the old ones with only `dashboard_id` changed, and the merged filters reach only the first `replace`. |
| AppContext.BatchedSettersDropFilters | src/AppContext.tsx:40-46 | From `{dashboard_id: "3"}`, the filters `{region: "EU"}` and the selection `"7"` give both keys in two commits, and lose `region` in one commit. |
| AppContext.MirrorCurrentSelection | src/AppContext.tsx:44-46 | Writing back the value `dashboard_id` already holds leaves the params unchanged. |
| Dashboard.InitialIsOffered | src/Dashboard.tsx:51-63 | The resolved initial dashboard is always one of these: the selection, a folder dashboard, a board entry or a configured id. |
| Dashboard.InitialPrecedence | src/Dashboard.tsx:51-63 | A truthy selection decides alone. Otherwise a truthy folder id gives the first folder dashboard. Otherwise a loaded board gives its first `dashboard` entry, or the error of flattening it. Otherwise the result is `config.dashboards[0]`. |
| Dashboard.DashboardRef | src/Dashboard.tsx:46-90 | An absent or already-filled element means no calls. An unresolved id means no embed and no selection change. `changeDashboardId(id, true)` runs only without a selection. The embed then takes `{...filters, ...THEME}`. `setDashboard` runs only on a successful connect, and a failure is logged. |
| Dashboard.MountTwice | src/Dashboard.tsx:48 | A second run on the element the first run filled makes no calls. |
| Dashboard.EmbedParamsOverlay | src/Dashboard.tsx:74 | In the embed parameters a theme key wins over a filter, and every other filter is kept. |
| Dashboard.OnPageChanged | src/Dashboard.tsx:76-81 | A missing or empty `absoluteUrl` is ignored, and a malformed one throws. Otherwise the update carries `urlToRecord(url).filters`: non-reserved keys with non-empty values only. |
| BoardList.GetBoardList | src/utils/getBoardList.ts:10-45 | The `reduce` over `section_order`, with its nested `forEach`, pushes exactly the flattened board `BoardListOf`, or fails with its error. What that list holds is stated by the lemmas below. |
| BoardList.FindById | src/utils/getBoardList.ts:15 | `find` gives nothing exactly when no element has the id. Otherwise it gives the first element with the id. |
| BoardList.ItemEntriesAppend | src/utils/getBoardList.ts:27-40 | The entries of `o1 + o2` are those of `o1` followed by those of `o2`, so the dashboards keep the `item_order` order. |
| BoardList.ItemEntriesOfId | src/utils/getBoardList.ts:28-39 | One `item_order` id gives at most one entry. It gives none for a dangling id or an item with neither dashboard id. Otherwise it gives a dashboard entry with `dashboard_id`, or else `lookml_dashboard_id`, as its id and the title, or `Dashboard`, as its title. |
| BoardList.ItemEntriesIds | src/utils/getBoardList.ts:27-40 | A dashboard appears among a section's entries exactly when one of its `item_order` ids names an item whose `dashboard_id`, or else `lookml_dashboard_id`, is that non-empty id. |
| BoardList.BoardDashboards | src/utils/getBoardList.ts:14-43 | A dashboard is listed exactly when some `section_order` id names a section with items, and that section has an `item_order` id whose first matching item yields the dashboard. Dangling section and item ids are skipped. |
| BoardList.PushItems | src/utils/getBoardList.ts:27-40 | The `forEach` over `item_order` appends exactly the dashboard entries of the ids, in order. |
| BoardList.BoardListFails | src/utils/getBoardList.ts:11-27 | Flattening fails exactly when a `!` meets a missing list. That is: sections without a `section_order`, a non-empty `section_order` without sections, or a found section with items but no `item_order`. |
| BoardList.SectionsInOrder | src/utils/getBoardList.ts:14-18 | The `section` entries are the found sections, in `section_order` order. Dangling ids are skipped. |
| BoardList.StartsWithSection | src/utils/getBoardList.ts:15-27 | A non-empty list starts with a `section` entry. |
| BoardList.EntriesWellFormed | src/utils/getBoardList.ts:19-38 | Every entry has a non-empty title, because of the `Section` and `Dashboard` fallbacks. A description is present only when it is non-empty. A dashboard entry has a non-empty id and no description. |
| BoardList.DashboardIds | src/Sidebar/PrintAll.tsx:61-63 | `filter(type === "dashboard").map(id)` yields only ids of dashboard entries, and nothing for a list of sections. |
| BoardList.FirstDashboardId | src/Dashboard.tsx:57-59 | `find(type === "dashboard")?.id` is the first of those ids, or `undefined` when there is none. |
| Config.IntersectionCounts | src/ConfigContext.tsx:23-26 | Each element of the second list is kept as often as it occurs there when the first list holds it, and dropped otherwise. |
| Config.IntersectionAppend | src/ConfigContext.tsx:25 | The intersection distributes over concatenation of the second list, so `filter` keeps that list's order. |
| Config.IntersectionKeepsAll | src/ConfigContext.tsx:23-26 | When every element of the second list occurs in the first, the intersection is the whole second list, in its order. |
| Config.IntersectionNonEmpty | src/ConfigContext.tsx:86 | The intersection is non-empty exactly when the lists share an element. |
| Config.UserInGroups | src/ConfigContext.tsx:85-87 | A user passes the group check exactly when one of their group ids is a setting group. A user without `group_ids` never passes. |
| Config.CanUpdateSettings | src/ConfigContext.tsx:89-98 | True when `restrict_settings` is falsy, else for an admin, else exactly when the user's groups meet `setting_group_ids` (missing is `[]`). |
| Config.WithDefaults | src/ConfigContext.tsx:68-83 | Every defaulted key reads `stored ?? default`. Every other key passes through. |
| Config.MissingFlagsDefault | src/ConfigContext.tsx:71-77 | A missing `remove_branded_loading` reads `false`, and a missing `print_all_dashboards` reads `true`. |
| Config.MissingColoursDefault | src/ConfigContext.tsx:78-80 | Missing colours read `#A3B3C9` (background) and `#ffffff` (paper). |
| Config.ExplicitValuesKept | src/ConfigContext.tsx:70-72 | A stored `false` survives `??`, and `dashboards`, which has no default, passes through. |
| Config.MergeValues | src/ConfigContext.tsx:112-119 | `undefined`, `null` and `""` delete their key. Any other value, including `false` and `[]`, is stored. Keys the values do not name keep their stored value. |
| Config.MergeValuesIdempotent | src/ConfigContext.tsx:112-119 | Merging the same values a second time changes no key. |
| Config.MergeEntries | src/ConfigContext.tsx:112-119 | The `for` loop over `Object.entries(values)` computes exactly `MergeValues`. |
| Config.ConfigProvider.constructor | src/ConfigContext.tsx:59-65 | `config_data` is the context data, or `{}` when the SDK returns nothing. |
| Config.ConfigProvider.UpdateValues | src/ConfigContext.tsx:106-124 | Without permission it logs once and changes and saves nothing. With permission, the one merged object becomes the state, goes to `updateDashboardTheme`, is saved, and is refreshed once. |
| ExtensionContext.ExtensionContextData.constructor | src/hooks/useExtensionContext.tsx:26-29 | `config_data` is the context data, or `{}` when the SDK returns nothing. |
| ExtensionContext.ExtensionContextData.UpdateValues | src/hooks/useExtensionContext.tsx:52-69 | Without permission it logs and changes nothing. With context data, the merge becomes the state and is saved. Without context data, the first value throws; with no values, `undefined` is stored. |
| Settings.InitialValues | src/Settings.tsx:55-63 | The seven form fields in order. Each holds the stored value when it is truthy, and its `\|\|` fallback otherwise: `[]`, `false` or `""`. |
| Settings.OrDiffersFromCoalesce | src/Settings.tsx:58 | A missing `print_all_dashboards` starts the form at `false` while the configuration context reads `true`. A stored `false` is `false` in both. |
| Settings.Validate | src/Settings.tsx:64-79 | No errors exactly when the values grant the permission: a falsy `restrict_settings` or an admin gives none. The one possible error is on `setting_group_ids`, with the fixed message. |
| Settings.FirstRenderValues | src/hooks/useExtensionContext.tsx:23 | On the first render the hook's state is `{}`, so `initialValues` holds every field's fallback. |
| Settings.SettingsDialog.constructor | src/Settings.tsx:30-90 | Once mounted, the dialog is closed and the form holds the stored data: the effect on `config_data` replaces the first render's fallbacks. |
| Settings.SettingsDialog.ResetForm | src/Settings.tsx:88-90 | The form values become the stored data, replacing the `\|\|` fallbacks. |
| Settings.SettingsDialog.SetFieldValue | src/Settings.tsx:115 | One field is set, and the dialog stays as it is. |
| Settings.SettingsDialog.Open | src/Settings.tsx:94 | The dialog opens, and the values stay as they are. |
| Settings.SettingsDialog.OnClose | src/Settings.tsx:80-86 | With errors nothing changes. Otherwise `updateValues` runs, the success toast (5000 ms) follows unless `updateValues` threw, and the dialog closes. |
| ConfiguredButtons.ModeOf | src/Sidebar/ConfiguredButtons.tsx:37-43 | The mode is ad hoc exactly when the ids exist, even if empty. Otherwise it is folder for a non-empty folder id, then board for a non-empty board id, then default. |
| ConfiguredButtons.ModeIgnoresLower | src/Sidebar/ConfiguredButtons.tsx:37-43 | The source that decides the mode makes every lower-ranked source irrelevant. |
| ConfiguredButtons.ShowDashboards | src/Sidebar/ConfiguredButtons.tsx:45-50 | The ad hoc ids, else the folder's dashboards (`[]` while loading), else the configured dashboards. |
| ConfiguredButtons.CurrentDashboardIds | src/Sidebar/ConfiguredButtons.tsx:69-74 | The switch receives the loaded board's dashboard entries when a board id is set, and `show_dashboards` otherwise. Listing a malformed board throws. |
| ConfiguredButtons.ActiveButtons | src/Sidebar/ConfiguredButtons.tsx:53-100 | The pushes compute exactly the buttons whose conditions hold, by rank. They fail only when the switch is wanted and the board listing throws. |
| ConfiguredButtons.ActiveButtonsSpec | src/Sidebar/ConfiguredButtons.tsx:60-97 | The buttons come in the order settings, switch_adhoc, folder_nav, board_nav, save_adhoc, print_all, and each is present exactly when its condition holds. Settings appears exactly with permission. save_adhoc needs a non-empty ad hoc list, and the switch carries its computed ids. |
| ConfiguredButtons.ActiveRanks | src/Sidebar/ConfiguredButtons.tsx:60-97 | Every prefix of the push sequence is in rank order. It holds exactly the wanted buttons of lower rank. |
| ConfiguredButtons.DistinctKeys | src/Sidebar/ConfiguredButtons.tsx:60-97 | Buttons in rank order carry distinct keys. |
| ConfiguredButtons.Render | src/Sidebar/ConfiguredButtons.tsx:102-141 | One button renders directly and none renders nothing. Several render in the Actions popover, whose key splits back at `,` into the button keys. |
| PrintAll.RenderPath | src/Sidebar/PrintAll.tsx:20 | The path starts with `/render/process/wd/1680/1/dashboards/` and ends with `.pdf`. The id reads back from between them, and the path holds a `?` exactly when the id does. |
| PrintAll.RenderQueryLookup | src/Sidebar/PrintAll.tsx:21-29 | Caller filters override the fixed query keys, because they are spread last. A fixed key the filters leave alone keeps its value. |
| PrintAll.RenderDefaultValues | src/Sidebar/PrintAll.tsx:22-27 | `filename` carries `_<date>` after the name and `title` does not. `print_mode` is `true` and the paper size is `fitPageToDashboard`. |
| PrintAll.RenderUrlReadsBack | src/Sidebar/PrintAll.tsx:30 | The URL splits at its first `?` into the render path and a query that decodes to the composed parameters. |
| PrintAll.PrintIds | src/Sidebar/PrintAll.tsx:53-65 | The folder's dashboards when `folder_id` is set (`[]` while loading). Else, for a board, its `dashboard` entries, or `[]` before it loads. Else the configured dashboards. |
| PrintAll.Filename | src/Sidebar/PrintAll.tsx:76-78 | The cached title when it is non-empty, else `dashboard_<id>`. Never empty. |
| PrintAll.WindowsForDashboards | src/Sidebar/PrintAll.tsx:72-85 | Each window opens `_blank` on its dashboard's render URL, named after the title or id plus `.pdf`, with the caller's filters. |
| PrintAll.PrintAllButton.HandlePrintAll | src/Sidebar/PrintAll.tsx:51-87 | With ids: one window per id, in order, and `running` ends false. With none: one warning, no window, and `running` is left true. A malformed board throws once `running` is set. |
| PrintAll.PrintAllButton.OpenWindows | src/Sidebar/PrintAll.tsx:72-85 | The loop appends exactly one window per id, in list order, and changes nothing else. |
| Constants.UnescapeEscapeBody | src/utils/constants.ts:5-7 | Reading back what `JSON.stringify` writes inside a string literal gives the original text. |
| Constants.CreateDashboardTheme | src/utils/constants.ts:1-8 | The result has exactly the one key `_theme`. Its payload carries `paper_color` when it is non-empty, and `#ffffff` otherwise. |
| Constants.BackgroundColorIgnored | src/utils/constants.ts:1-8 | The input `background_color` has no effect on the result. |
| Color.MatchHexExactly | src/utils/colorUtils.ts:7 | The pattern accepts exactly six hexadecimal digits, with or without one leading `#`. |
| Color.HexToRgb | src/utils/colorUtils.ts:6-15 | Each component lies in 0..255, and any text the pattern rejects gives black. |
| Color.HexToRgbRoundTrip | src/utils/colorUtils.ts:9-13 | Each component is the base-16 value of its digit pair: writing a colour out and parsing it gives it back. |
| Color.HexToRgbCaseInsensitive | src/utils/colorUtils.ts:7 | Lower-casing the text does not change the colour. |
| Color.ShorthandIsBlack | src/utils/colorUtils.ts:14 | `#fff` is rejected as black, and `#a3b3c9` gives (163, 179, 201). |
| Color.ContrastRatio | src/utils/colorUtils.ts:34-37 | The ratio lies in [1, 21] and does not depend on the order of the colours. |
| Color.MeetsWcagContrast | src/utils/colorUtils.ts:65-79 | True exactly when the ratio reaches 4.5 for AA normal text, 3 for AA large text, 7 for AAA normal text, or 4.5 for AAA large text. |
| Color.WcagOrdering | src/utils/colorUtils.ts:73-78 | AAA implies AA, and normal text implies large text. AAA-normal implies every level and size, and the check is symmetric in the two colours. |
| Color.SameColourFails | src/utils/colorUtils.ts:71-78 | A colour never passes against itself. |
| Color.ReadableTextColor | src/utils/colorUtils.ts:41-46 | `#000000` or `#ffffff`; black exactly when it contrasts more with the background than white does. |
| Color.TextColor | src/utils/colorUtils.ts:56-62 | One of its two arguments: the first on a light background, the second otherwise. |
| Toast.ToastStore.ShowToast | src/components/Toast/ToastContext.tsx:32-37 | Appends exactly one toast at the end and keeps the earlier ones. Type defaults to `info` and duration to 5000. |
| Toast.ToastStore.ShowSuccess | src/components/Toast/ToastContext.tsx:41-46 | Appends one `success` toast. |
| Toast.ToastStore.ShowError | src/components/Toast/ToastContext.tsx:48-53 | Appends one `error` toast. |
| Toast.ToastStore.ShowWarning | src/components/Toast/ToastContext.tsx:55-60 | Appends one `warning` toast. |
| Toast.ToastStore.ShowInfo | src/components/Toast/ToastContext.tsx:62-67 | Appends one `info` toast. |
| Toast.ToastStore.RemoveToast | src/components/Toast/ToastContext.tsx:69-71 | The list becomes the toasts without that id. |
| Toast.WithoutIdSpec | src/components/Toast/ToastContext.tsx:70 | No toast with the id remains, every toast without it does, and none is added. |
| Toast.WithoutIdAppend | src/components/Toast/ToastContext.tsx:70 | Removal keeps the order: it distributes over concatenation. |
| Toast.WithoutAbsentId | src/components/Toast/ToastContext.tsx:70 | Removing an id no toast carries changes nothing. |
| Toast.ShowThenRemove | src/components/Toast/ToastContext.tsx:32-71 | Showing a toast with a fresh id and then removing that id restores the list. |
| Toast.UseToast | src/components/Toast/ToastContext.tsx:111-116 | Outside a provider it throws the fixed message; inside, it returns the provider's value. |
| Toast.IntentFaithful | src/components/Toast/index.tsx:12-24 | Distinct types get distinct intents: success, error, warning and info map to positive, critical, warn and inform. A missing type is `inform`. |
| Toast.ToastView.constructor | src/components/Toast/index.tsx:26-33 | Type defaults to `info` and duration to 5000, and the toast starts visible. |
| Toast.ToastView.Expire | src/components/Toast/index.tsx:35-43 | The timer hides the toast and calls `onClose` with its own id. |
| Toast.ToastView.PrimaryClick | src/components/Toast/index.tsx:45-48 | The click hides the toast and calls `onClose` with its own id. |

## Left out

- User interface: rendering, styling and layout (`Sidebar/index.tsx`, `Sidebar.tsx`,
  `DashboardItem.tsx`, `BoardList.tsx`, `Skeleton.tsx`, `App.tsx`, `index.tsx`). These
  choose views; they hold no rule besides the ones modelled.
- Network and SDK orchestration: folder and board navigation searches, and the board
  creation chain in `SaveAdhocDashboard.tsx`. They are sequences of remote calls with no
  local rule.
- The loading animation (`LkrLoading`): an animation-frame loop over floating-point
  progress.
- `getLuminance` and the floating-point division of `getContrastRatio`: `Math.pow` is not
  modelled. The luminance is a parameter into [0, 1], and the ratio is real arithmetic on
  it.
- Timers, promise ordering and debouncing:
  - the toast close timers and the 300 ms fade are one step;
  - formik's asynchronous validation and submission are one step;
  - the SDK's `connect()` outcome is an input.
- `Math.random` toast ids and `toLocaleDateString` dates are parameters.
- Browser URL parsing: a URL is a list of `(key, value)` pairs, or an error if it is
  malformed.
- `URLSearchParams.toString`: the model's encoder escapes only the characters that change
  the meaning of a query (`%`, `&`, `=`, `+`, `#`). The browser escapes more, and both
  decode to the same pairs.
- The order JavaScript gives to integer-like object keys, which always come first: records
  keep insertion order.
- `history.replace` is a recorded call, and `handleSwitch` returns the URL it hands to
  `history.push`. The router's reaction to either is not part of this model.
- `changeDashboardId`, `toggleAdhocDashboardId`, `getSearchParams`, `updateGlobalFilters`,
  `board_id`, `adhoc_dashboard_ids`, `is_admin`, `updateDashboardTheme` and `THEME` are not
  defined in the source: they are inputs or recorded calls.
  - `is_admin` and `updateDashboardTheme` are destructured from `useAppContext()`, whose
    value (`src/AppContext.tsx:50-61`) provides neither.
  - As the code stands, `is_admin` is therefore `undefined`, so no admin branch fires, and
    `updateDashboardTheme(current)` would throw before `saveContextData`.
  - The model takes `is_admin` as an input and records the `updateDashboardTheme` call, so
    it covers an app context that does provide them.
- Folder dashboards are taken as their ids: `db.id!` on a dashboard without an id is not
  modelled.
- AppContext.AppState.SetGlobalFilters and AppContext.AppState.SetSelectedDashboardId are
  each one commit of their own. Of the batched cases, only both setters in one handler is
  modelled (`SetFiltersAndSelection`). No caller in the code shown batches them.
- AppContext.AppState.SetGlobalFilters: React skips an effect when the new filter object is
  identical to the old one. The model runs the merge on every call, which changes nothing
  when the filters are already in the params.

## Findings

| source | as written | input that shows it | evidently intended | confidence | as-written member | corrected member |
|---|---|---|---|---|---|---|
| src/Sidebar/SwitchToAdhocDashboard.tsx:16-19 | The query is the `key=value` pieces joined by `&`, with no percent-encoding. | The params `a = "x&b=y"` and the params `a = "x", b = "y"` give the same `a=x&b=y`, so the first list is read back as the second. | Each key and value is encoded as `URLSearchParams` does, so that the query reads back as the same parameters. | not executed | AdhocSwitch.RawQueryStringAmbiguous | AdhocSwitch.SwitchTargetRoundTrip |

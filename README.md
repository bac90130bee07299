# RandomizerTMF core, modelled in Dafny

RandomizerTMF plays random TrackMania Exchange maps against a time limit. This project models the parts of it that decide things:

- **The request rules** (`RequestRules`, `UrlProperties`). These build the random-track address for TrackMania Exchange (`ToUrl`):
  - which site is asked;
  - which query parameters are written, with the environment and vehicle redrawn when an equal distribution is asked for;
  - how each value is encoded.
- **The persisted session record** (`SessionRecords`). This is the start-time text, the map results and the replays attributed to maps, with every save recorded as an event.
- **The engine's session state machine** (`Engine`). This covers starting, clearing and ending the current session, where awaiting the session's task is one atomic step with three possible outcomes.
- **The dashboard's algorithms** (`Dashboard`):
  - the preset name field;
  - the insertion of scanned sessions by start date;
  - the preset reader and writer over the rule editor's properties;
  - the first placement of a module window.

How the .NET environment is modelled:

- **Reflection.** The properties are an explicit list in declaration order: `RequestRules.Fields` and `Dashboard.Property`.
- **Randomness.** The random generator is a sequence of draws, consumed in the order site, environment, vehicle. `Next(n)` is the first draw modulo `n`; it is 0 when `n` is 0 or the draws are used up.
- **Exceptions.** The exceptions the modelled code raises itself are each a `Result`/`Option` error or a `thrown` out-parameter, with the state reached before the throw stated. These are the index and `First` failures, the failed casts and parses, and `string.Format` rejecting the replay file format. The exceptions of the foreign calls that are parameters are not modelled (see "## Left out"): the other formatters, the rule editor's property setters, and the file system.
- **Environment and vehicle on TMNF and Nations.** The model keeps what the code does here. The test `val.Equals(EEnvironment.Stadium)` compares a `HashSet` with an enumeration value, so it never holds. As a result, the environment and vehicle parameters are never sent for TMNF or Nations (`UrlProperties.NationsDropsEnvironments`).
- **Strings in the query.** String values go into the query unescaped.

## Model

| member | source | states |
|---|---|---|
| RequestRules.Next | Src/RandomizerTMF.Logic/RequestRules.cs:220 | a draw below `n` (0 for `n` = 0), consuming exactly one draw |
| RequestRules.IsSiteValidWithEnvimix | Src/RandomizerTMF.Logic/RequestRules.cs:165-181 | the loop over the environments answers exactly `Envimix`: valid off Sunrise/Original, or with a null or empty environment set, or with a null vehicle set; otherwise valid iff every environment is in the vehicle set, so an empty non-null vehicle set is invalid |
| RequestRules.SitesWhere | Src/RandomizerTMF.Logic/RequestRules.cs:59-61 | a site is kept iff it is in the list and passes the filter |
| RequestRules.MatchingSites | Src/RandomizerTMF.Logic/RequestRules.cs:59-61 | exactly the concrete sites whose flag the mask contains |
| RequestRules.CompatibleSites | Src/RandomizerTMF.Logic/RequestRules.cs:64-68 | exactly the concrete sites passing the environment, vehicle and envimix tests |
| RequestRules.GetRandomSite | Src/RandomizerTMF.Logic/RequestRules.cs:218-221 | succeeds iff the array is non-empty, with a member of it; an empty array is an index-out-of-range error |
| RequestRules.ChooseSite | Src/RandomizerTMF.Logic/RequestRules.cs:59-69 | never `Any`; a masked site whenever the mask names one, without compatibility tests; otherwise a compatible site, and failure iff none is |
| RequestRules.GetSiteUrl | Src/RandomizerTMF.Logic/RequestRules.cs:223-229 | fails (unreachable) iff the site is `Any` |
| RequestRules.ExchangeHost | Src/RandomizerTMF.Logic/RequestRules.cs:228 | Nations, Sunrise and Original are asked at their lower-cased name + `.tm-exchange.com` |
| RequestRules.SiteHosts | Src/RandomizerTMF.Logic/RequestRules.cs:223-229 | the five hosts written out: `tmnf.exchange`, `tmuf.exchange`, `nations.tm-exchange.com`, `sunrise.tm-exchange.com`, `original.tm-exchange.com` |
| RequestRules.SiteHostsDistinct | Src/RandomizerTMF.Logic/RequestRules.cs:223-229 | different concrete sites have different hosts |
| RequestRules.GetRandomEnvironment | Src/RandomizerTMF.Logic/RequestRules.cs:198-211 | one draw; from the configured set when non-empty, else from Island/Bay/Coast on Sunrise, Desert/Snow/Rally on Original, else any environment ordinal |
| RequestRules.DecisionSound | Src/RandomizerTMF.Logic/RequestRules.cs:79-102 | a property is written only if it is a query property whose value passes the empty test and the Nations test; an unredrawn one is written with its own value exactly then; a redrawn one is one environment from its domain |
| RequestRules.Step | Src/RandomizerTMF.Logic/RequestRules.cs:83-91 | a property consumes one draw iff it is redrawn |
| RequestRules.Rank | Src/RandomizerTMF.Logic/RequestRules.cs:20-53 | each property has a position in the declaration order |
| RequestRules.Fields | Src/RandomizerTMF.Logic/RequestRules.cs:20-53 | the 33 properties in declaration order |
| RequestRules.FieldsListed | Src/RandomizerTMF.Logic/RequestRules.cs:20-53 | every property is listed exactly once |
| RequestRules.IsQueryProperty | Src/RandomizerTMF.Logic/RequestRules.cs:132-137 | every property except `Site`, `EqualEnvironmentDistribution` and `EqualVehicleDistribution` is a query property |
| RequestRules.IsSiteValidWithEnvironments | Src/RandomizerTMF.Logic/RequestRules.cs:139-153 | a null set fits every site; otherwise Sunrise needs Island, Coast or Bay in it, Original Snow, Desert or Rally, TMNF and Nations Stadium, and TMUF takes any set |
| RequestRules.IsValidInNations | Src/RandomizerTMF.Logic/RequestRules.cs:183-196 | Environment and Vehicle pass only if the whole value equals the Stadium ordinal, which a set never does; PrimaryType passes only if it is Race; all other properties pass |
| RequestRules.Kept | Src/RandomizerTMF.Logic/RequestRules.cs:93-102 | a value is written iff it is not null, not an empty string or set, and, on TMNF and Nations, passes `IsValidInNations` |
| RequestRules.Decision | Src/RandomizerTMF.Logic/RequestRules.cs:79-102 | what one turn of the loop writes for a property: nothing for a non-query property, else the redrawn or own value when `Kept`; its properties are `DecisionSound` |
| RequestRules.RedrawnWritten | Src/RandomizerTMF.Logic/RequestRules.cs:83-102 | off TMNF and Nations a redrawn environment or vehicle is always written |
| RequestRules.Emitted | Src/RandomizerTMF.Logic/RequestRules.cs:79-127 | the parameters the loop writes, in property order, each property seeing the draws the earlier ones left; `AppendQuery` is proved against it |
| RequestRules.Encode | Src/RandomizerTMF.Logic/RequestRules.cs:231-274 | the text of a value: milliseconds, `1`/`0`, `yyyy-MM-dd`, ordinals joined by `%2C`, an ordinal, or the value's own text; its read-backs are `NumberEncodingReadBack`, `DateEncodingReadBack` and `SetEncodingReadBack` |
| RequestRules.NumberEncodingReadBack | Src/RandomizerTMF.Logic/RequestRules.cs:233-236 | a time, number or ordinal is written as decimal text that reads back as the number |
| RequestRules.DateEncodingReadBack | Src/RandomizerTMF.Logic/RequestRules.cs:241-244 | a date is written `yyyy-MM-dd` in the Gregorian calendar and its three fields read back |
| RequestRules.DecodeSet | Src/RandomizerTMF.Logic/RequestRules.cs:245-264 | the reader of a set's text: cut at every `%`, the first piece is an ordinal and every later piece is `2C` and an ordinal, anything else reads as no set |
| RequestRules.SetEncodingReadBack | Src/RandomizerTMF.Logic/RequestRules.cs:245-264 | a set written as its ordinals joined by `%2C` reads back through `DecodeSet` as its elements in order; the empty set writes nothing, which reads as no set |
| RequestRules.AppendValue | Src/RandomizerTMF.Logic/RequestRules.cs:231-274 | appends exactly the value's encoding; a set's elements joined by `%2C` in iteration order |
| RequestRules.QuerySnoc | Src/RandomizerTMF.Logic/RequestRules.cs:104-115 | one more parameter adds `?` before the first and `&` before the others, then `name=value` |
| RequestRules.Url | Src/RandomizerTMF.Logic/RequestRules.cs:55-130 | the address fails iff no site is masked and none is compatible, and then with index-out-of-range |
| RequestRules.EmittedSkip | Src/RandomizerTMF.Logic/RequestRules.cs:93-102 | a skipped property writes nothing and passes its draws on |
| RequestRules.EmittedKeep | Src/RandomizerTMF.Logic/RequestRules.cs:104-126 | a kept property writes one parameter before the rest |
| RequestRules.RedrawnValue | Src/RandomizerTMF.Logic/RequestRules.cs:81-91 | the value the loop works with: a fresh one-environment set for an equally distributed environment or vehicle, taking one draw, and the property's own value otherwise, i.e. `Adjusted` |
| RequestRules.Keeps | Src/RandomizerTMF.Logic/RequestRules.cs:93-102 | a value is kept iff it is neither null nor an empty string or set, and on TMNF and Nations also passes `IsValidInNations` |
| RequestRules.PropertyValue | Src/RandomizerTMF.Logic/RequestRules.cs:81-102 | the value after the redraws and whether it is written agree with `Decision`; the draws left agree with `Step` |
| RequestRules.AppendParam | Src/RandomizerTMF.Logic/RequestRules.cs:114-126 | appends `name=` and the value's encoding |
| RequestRules.AppendSeparated | Src/RandomizerTMF.Logic/RequestRules.cs:104-126 | the `first` flag gives `?` or `&`, so the builder holds the query of the parameters so far |
| RequestRules.AppendQuery | Src/RandomizerTMF.Logic/RequestRules.cs:77-127 | the loop appends exactly the query of the parameters `Emitted` lists |
| RequestRules.ToUrl | Src/RandomizerTMF.Logic/RequestRules.cs:55-130 | `https://` + host + `/trackrandom` + query, or the site choice's error, i.e. `Url` |
| UrlProperties.EmittedSound | Src/RandomizerTMF.Logic/RequestRules.cs:79-102 | every written parameter is a listed query property with a value that passes both filters, its own value unless redrawn |
| UrlProperties.EmittedFieldsAbsent | Src/RandomizerTMF.Logic/RequestRules.cs:79 | a property not in the list is never written |
| UrlProperties.LookupEmitted | Src/RandomizerTMF.Logic/RequestRules.cs:79-127 | the parameter of a property listed once is the loop's decision with the draws the earlier properties left |
| UrlProperties.DrawsThroughStatic | Src/RandomizerTMF.Logic/RequestRules.cs:83-91 | properties that are not redrawn consume no draws |
| UrlProperties.DrawsThroughConcat | Src/RandomizerTMF.Logic/RequestRules.cs:79-127 | the draws consumed by two lists in a row compose |
| UrlProperties.LookupField | Src/RandomizerTMF.Logic/RequestRules.cs:79-127 | each property's parameter is decided at its place in the declaration order |
| UrlProperties.StaticParameter | Src/RandomizerTMF.Logic/RequestRules.cs:81-102 | an unredrawn query property is written with its own value iff it passes both filters, whatever the draws |
| UrlProperties.SwitchesNotWritten | Src/RandomizerTMF.Logic/RequestRules.cs:132-137 | `Site` and the two distribution switches are never parameters |
| UrlProperties.EnvironmentParameter | Src/RandomizerTMF.Logic/RequestRules.cs:83-86 | the environment takes the first draw after the site choice |
| UrlProperties.VehicleParameter | Src/RandomizerTMF.Logic/RequestRules.cs:88-91 | the vehicle takes the draw after the environment's when both are redrawn, else the first |
| UrlProperties.DrawsBeforeVehicle | Src/RandomizerTMF.Logic/RequestRules.cs:24-27 | of the properties before Vehicle only Environment consumes a draw |
| UrlProperties.NationsDropsEnvironments | Src/RandomizerTMF.Logic/RequestRules.cs:99-102 | on TMNF and Nations the environment and vehicle parameters are never written |
| UrlProperties.NationsNeverEnvironment | Src/RandomizerTMF.Logic/RequestRules.cs:183-188 | on TMNF and Nations the loop drops Environment and Vehicle whatever their value |
| UrlProperties.NationsPrimaryType | Src/RandomizerTMF.Logic/RequestRules.cs:190-193 | on TMNF and Nations the primary type is written iff it is Race |
| UrlProperties.EnvironmentSentAsConfigured | Src/RandomizerTMF.Logic/RequestRules.cs:93-102 | elsewhere a configured non-empty environment set is written as it is, unless redrawn |
| UrlProperties.EqualEnvironmentSent | Src/RandomizerTMF.Logic/RequestRules.cs:83-86 | elsewhere an equally distributed environment is always written, one environment from its domain |
| UrlProperties.VehicleSentAsConfigured | Src/RandomizerTMF.Logic/RequestRules.cs:93-102 | elsewhere a configured non-empty vehicle set is written as it is, unless redrawn |
| UrlProperties.EqualVehicleSent | Src/RandomizerTMF.Logic/RequestRules.cs:88-91 | elsewhere an equally distributed vehicle is always written, one environment from the vehicle set or the site's domain |
| SessionRecords.StartedAtText | Src/RandomizerTMF.Logic/SessionData.cs:23 | the directory name has 19 characters |
| SessionRecords.StartedAtTextRoundTrip | Src/RandomizerTMF.Logic/SessionData.cs:23 | the `yyyy-MM-dd HH_mm_ss` text, in the Gregorian calendar, reads back as the start time's clock fields, year to second |
| SessionRecords.StartedAtTextCharacters | Src/RandomizerTMF.Logic/SessionData.cs:23 | the text holds only digits, `-`, space and `_` |
| SessionRecords.FirstIndex | Src/RandomizerTMF.Logic/SessionData.cs:76 | `First`: the first map with the uid, or none iff no map has it |
| SessionRecords.WithResult | Src/RandomizerTMF.Logic/SessionData.cs:76-79 | only the first matching map changes: its result and timestamp; none iff no map matches |
| SessionRecords.WithReplay | Src/RandomizerTMF.Logic/SessionData.cs:137-143 | only the first matching map changes: one replay appended; none iff no map matches |
| SessionRecords.WithReplayAddsOne | Src/RandomizerTMF.Logic/SessionData.cs:137-143 | attributing a replay adds exactly one replay and keeps the earlier ones first |
| SessionRecords.WithResultKeepsReplays | Src/RandomizerTMF.Logic/SessionData.cs:74-82 | recording a result touches no replay |
| SessionRecords.ScoreText | Src/RandomizerTMF.Logic/SessionData.cs:113-118 | fails (no ghost) iff a Stunts or Platform map has a replay without ghosts |
| SessionRecords.ScoreTextReadBack | Src/RandomizerTMF.Logic/SessionData.cs:113-118 | the score splits at `_` into the stunt score or respawn count and the time; other modes give the time alone |
| SessionRecords.ReplayFileFormat | Src/RandomizerTMF.Logic/SessionData.cs:122-124 | the configured format unless null or blank, then the default |
| SessionRecords.ReplayFileFormatNotBlank | Src/RandomizerTMF.Logic/SessionData.cs:122-124 | with a non-blank default the format is never blank |
| SessionRecords.ReplayName | Src/RandomizerTMF.Logic/SessionData.cs:113-126 | no name without a score; otherwise the formatted name from the chosen format, the cleaned map name, the score and the login, or none when `string.Format` throws |
| SessionRecords.SessionData.constructor | Src/RandomizerTMF.Logic/SessionData.cs:39-56 | version and start as given; the time limit and the rules are read from the configuration (the source shares the rules object, the model holds its value); directory named after the start |
| SessionRecords.SessionData.Initialize | Src/RandomizerTMF.Logic/SessionData.cs:58-67 | directory created, then one save |
| SessionRecords.SessionData.Save | Src/RandomizerTMF.Logic/SessionData.cs:84-91 | one save; the file is written with the current record only on a file system |
| SessionRecords.SessionData.SetMapResult | Src/RandomizerTMF.Logic/SessionData.cs:74-82 | no matching map throws and changes nothing; otherwise the result is recorded and saved |
| SessionRecords.SessionData.UpdateFromAutosave | Src/RandomizerTMF.Logic/SessionData.cs:111-146 | no ghost throws first, then a replay file format `string.Format` rejects, both changing nothing; otherwise the replay is named and copied, then a missing map throws, else the replay is appended and saved |
| Engine.StartStep | Src/RandomizerTMF.Logic/Services/RandomizerEngine.cs:81-90 | starting needs a game directory and then always leaves a session, ending or not as before |
| Engine.ClearStep | Src/RandomizerTMF.Logic/Services/RandomizerEngine.cs:95-104 | clearing leaves no session and keeps the ending flag |
| Engine.EndStep | Src/RandomizerTMF.Logic/Services/RandomizerEngine.cs:110-138 | ending does nothing while ending or without a session; else a faulted task throws and leaves the engine ending with its session, and any other outcome leaves it idle |
| Engine.EndStepResult | Src/RandomizerTMF.Logic/Services/RandomizerEngine.cs:117-137 | ending throws iff the task faults; otherwise the engine is idle, else it stays ending with its session |
| Engine.EndStepIdempotent | Src/RandomizerTMF.Logic/Services/RandomizerEngine.cs:112-115 | ending again right after an end does nothing |
| Engine.StepsKeepEndingOnlyWhileRunning | Src/RandomizerTMF.Logic/Services/RandomizerEngine.cs:81-138 | the engine is ending only while a session exists, across starts and ends |
| Engine.RandomizerEngine.HasSessionRunning | Src/RandomizerTMF.Logic/Services/RandomizerEngine.cs:31 | a session runs iff one is current |
| Engine.RandomizerEngine.ScoreChanged | Src/RandomizerTMF.Logic/Services/RandomizerEngine.cs:66-76 | no session gives the empty report, else the three map counts |
| Engine.RandomizerEngine.StartSession | Src/RandomizerTMF.Logic/Services/RandomizerEngine.cs:81-90 | without a game directory nothing; else a fresh started session replaces the current one |
| Engine.RandomizerEngine.ClearCurrentSession | Src/RandomizerTMF.Logic/Services/RandomizerEngine.cs:95-104 | the session is stopped and dropped; the session writer is removed when logging to files |
| Engine.RandomizerEngine.EndSessionAsync | Src/RandomizerTMF.Logic/Services/RandomizerEngine.cs:110-138 | no-op while ending or without a session; else status, cancellation, and either a cleared idle engine or, on a fault, the exception with the engine left ending |
| Dashboard.DashboardWindowViewModel.SetPresetName | Src/RandomizerTMF/ViewModels/DashboardWindowViewModel.cs:73 | null or white-space input is stored as null, any other as given |
| Dashboard.FirstEarlier | Src/RandomizerTMF/ViewModels/DashboardWindowViewModel.cs:174-176 | the first session that started strictly earlier, or none iff every one started no earlier |
| Dashboard.InsertAt | Src/RandomizerTMF/ViewModels/DashboardWindowViewModel.cs:178 | `Insert(i, x)`: x at i, the elements before kept, those after shifted by one |
| Dashboard.ScanInsert | Src/RandomizerTMF/ViewModels/DashboardWindowViewModel.cs:166-182 | the insertion as written: into an empty list, or before the first session that started strictly earlier; with none the list stays as it was |
| Dashboard.InsertByDate | Src/RandomizerTMF/ViewModels/DashboardWindowViewModel.cs:173-182 | the corrected insertion: before the first strictly earlier session, or at the end |
| Dashboard.BestAfterScan | Src/RandomizerTMF/ViewModels/DashboardWindowViewModel.cs:166-182 | the best-session list after the same steps: appended to when the session list was empty, inserted at the session list's index, and a throw when that index is past its end |
| Dashboard.ScanInsertKeepsOrder | Src/RandomizerTMF/ViewModels/DashboardWindowViewModel.cs:166-182 | the scan keeps the list non-increasing by start |
| Dashboard.ScanInsertContents | Src/RandomizerTMF/ViewModels/DashboardWindowViewModel.cs:166-182 | the scan loses nothing and adds the session iff the list was empty or some session started earlier |
| Dashboard.OlderSessionDropped | Src/RandomizerTMF/ViewModels/DashboardWindowViewModel.cs:174-182 | a session starting no later than every listed one is not listed |
| Dashboard.InsertByDateSorted | Src/RandomizerTMF/ViewModels/DashboardWindowViewModel.cs:173-182 | the corrected insertion keeps the order and adds exactly the session |
| Dashboard.ScanInsertAgrees | Src/RandomizerTMF/ViewModels/DashboardWindowViewModel.cs:166-182 | the scan and the corrected insertion agree wherever the scan lists the session |
| Dashboard.BestFollowsSessions | Src/RandomizerTMF/ViewModels/DashboardWindowViewModel.cs:168-169 | built beside the session list, the best-session list stays equal to it and never throws |
| Dashboard.DashboardWindowViewModel.InsertScannedSession | Src/RandomizerTMF/ViewModels/DashboardWindowViewModel.cs:166-182 | the loop gives the scan's session list; the best list gets the same insertion, or throws when too short |
| Dashboard.Absolute | Src/RandomizerTMF/ViewModels/DashboardWindowViewModel.cs:349-371 | a non-negative coordinate stays; one below minus the screen becomes 0; any other puts the window's far edge that far from the screen's far edge |
| Dashboard.AbsoluteOnScreen | Src/RandomizerTMF/ViewModels/DashboardWindowViewModel.cs:357 | a relative coordinate the screen can hold puts the whole window on screen |
| Dashboard.OpenModule | Src/RandomizerTMF/ViewModels/DashboardWindowViewModel.cs:340-381 | a relative configuration is made absolute in place, once; the window is placed as configured |
| Dashboard.ParseInt32 | Src/RandomizerTMF/ViewModels/DashboardWindowViewModel.cs:476 | `int.Parse` gives only 32-bit values |
| Dashboard.ParseBool | Src/RandomizerTMF/ViewModels/DashboardWindowViewModel.cs:468 | `Convert.ToBoolean`: `true` or `false` in any letter case, else a parse failure |
| Dashboard.Assign | Src/RandomizerTMF/ViewModels/DashboardWindowViewModel.cs:460-481 | empty text gives the type's default; then by type name a Boolean, the text, or an Int32, each parse failure an exception; any other type takes a date that parses, throws for a type that cannot hold one, and keeps its value when the text is no date |
| Dashboard.Load | Src/RandomizerTMF/ViewModels/DashboardWindowViewModel.cs:442-483 | the reader from the first line and property with no skips; `PresetsDoubleClick` is proved against it |
| Dashboard.LoadFrom | Src/RandomizerTMF/ViewModels/DashboardWindowViewModel.cs:444-483 | loading changes only property values, never names or types |
| Dashboard.DashboardWindowViewModel.PresetsDoubleClick | Src/RandomizerTMF/ViewModels/DashboardWindowViewModel.cs:427-484 | negative index does nothing; bad index or missing provider throws; else the `i`/`skips` loop gives exactly `Load` |
| Dashboard.LoadFromLine | Src/RandomizerTMF/ViewModels/DashboardWindowViewModel.cs:446-481 | a line whose name has no `=` skips the property when the names differ, and otherwise assigns it the text up to the next `=` and moves to the next line |
| Dashboard.TooManyLines | Src/RandomizerTMF/ViewModels/DashboardWindowViewModel.cs:446-458 | more lines than properties always throws |
| Dashboard.LinePieces | Src/RandomizerTMF/ViewModels/DashboardWindowViewModel.cs:450-451 | a line splits into its name and the pieces of its text |
| Dashboard.SecondSeparatorCuts | Src/RandomizerTMF/ViewModels/DashboardWindowViewModel.cs:451 | text after a second `=` is lost |
| Dashboard.EmptyTextReloadsAsDefault | Src/RandomizerTMF/ViewModels/DashboardWindowViewModel.cs:460-463 | an empty value loads as the property's default, null for a string |
| Dashboard.RestorableValues | Src/RandomizerTMF/ViewModels/DashboardWindowViewModel.cs:466-481 | Booleans, 32-bit ints, non-empty strings without `=`, nulls of nullable types and re-readable dates load back unchanged |
| Dashboard.SavedFrom | Src/RandomizerTMF/ViewModels/DashboardWindowViewModel.cs:540-566 | the saved properties are in increasing order, all at or after the start |
| Dashboard.Saved | Src/RandomizerTMF/ViewModels/DashboardWindowViewModel.cs:536-566 | the indices the writer saves from the first property with the flag off, or the failed cast; its properties are `SavedProperties` and `SaveFailsExactly` |
| Dashboard.SaveFailsExactly | Src/RandomizerTMF/ViewModels/DashboardWindowViewModel.cs:549-558 | saving throws iff some primary-type or enabling property it reaches holds no Boolean |
| Dashboard.SavedExactly | Src/RandomizerTMF/ViewModels/DashboardWindowViewModel.cs:538-560 | from any point, with the matching flag, exactly the properties `Kept` admits are saved |
| Dashboard.SavedProperties | Src/RandomizerTMF/ViewModels/DashboardWindowViewModel.cs:538-566 | a saved preset holds exactly the kept properties, in order, so a reset property needs the latest enabling one true |
| Dashboard.DashboardWindowViewModel.SavedLines | Src/RandomizerTMF/ViewModels/DashboardWindowViewModel.cs:536-566 | the loop with flag `x` builds exactly the lines of the saved properties, or throws as `Saved` does |
| Dashboard.DashboardWindowViewModel.SavePresetClick | Src/RandomizerTMF/ViewModels/DashboardWindowViewModel.cs:520-576 | null name shows an error; else the directory, the lines, add-if-absent and a cleared name; a failed cast stops after the directory |
| Dashboard.LoadAligned | Src/RandomizerTMF/ViewModels/DashboardWindowViewModel.cs:444-458 | lines in property order never run the loader past the last property or hit a line without `=` |
| Dashboard.SavedPresetAligned | Src/RandomizerTMF/ViewModels/DashboardWindowViewModel.cs:444-458 | a written preset loads into the same property list without running past the end |
| Dashboard.Restorable | Src/RandomizerTMF/ViewModels/DashboardWindowViewModel.cs:460-481 | a value whose text holds no `=`, which the reader does not leave alone (a type other than Boolean, String and Int32 with a text that is no date), and which `Assign` gives back |
| Dashboard.RestorableForAnyValue | Src/RandomizerTMF/ViewModels/DashboardWindowViewModel.cs:460-481 | restorable exactly when the saved text holds no `=` and loading it gives the value back whatever value the editor holds, in both directions |
| Dashboard.UnreadTextNotRestorable | Src/RandomizerTMF/ViewModels/DashboardWindowViewModel.cs:478-482 | a value of another type whose text is not empty and no date is never restorable, because the reader leaves the editor's value |
| Dashboard.ReloadFrom | Src/RandomizerTMF/ViewModels/DashboardWindowViewModel.cs:444-483 | saved lines with distinct names and restorable values, loaded into any properties of the same shape, store the saved values at the saved indices, keep the rest and throw nothing |
| Dashboard.SaveThenLoadInto | Src/RandomizerTMF/ViewModels/DashboardWindowViewModel.cs:444-483 | a saved preset loaded into any rule editor with the same properties gives each saved property its saved value, leaves the others as the editor had them, and throws nothing |
| Dashboard.SaveThenLoad | Src/RandomizerTMF/ViewModels/DashboardWindowViewModel.cs:520-576 | saving a preset and loading it back into the editor it came from leaves the editor as it was |

## Left out

- Reflection is an explicit ordered list: `RequestRules.Fields` for the rule class, and the `rules` list of `Dashboard.DashboardWindowViewModel`. The enumeration definitions are not part of this model. The sites are assumed to be `Any, TMNF, TMUF, Nations, Sunrise, Original`, with flags 0, 1, 2, 4, 8, 16. Environment ordinals are only assumed to lie below `environmentCount`.
- Uniformity of the random generator is not modelled, only which draw is consumed where. `HashSet` iteration order is the order of a given sequence.
- Foreign formatting and parsing become opaque text or function parameters:
  - `TimeSpan.ToString` (`Formatted`);
  - `ToTmString`;
  - `TextFormatter.Deformat`;
  - the special-character regex;
  - `string.Format`;
  - `ClearFileName`;
  - `Path.Combine`;
  - `DateTimeOffset.ToString` and `TryParse` (`Dashboard.DateCodec`).
- File I/O is recorded as events, not performed. This covers YAML serialisation, `File.Copy`, `WriteAllLines`, directory creation, the logger, and the `ScanSessionsAsync`/`ScanPresetsAsync` reading. `SetReadOnlySessionYml` and its swallowed exceptions are not part of this model. The `AuthorRate` double is not part of this model either.
- Asynchrony: the await in `EndSessionAsync` is one atomic step whose outcome is a parameter. The session task's own clearing of the engine, the `Session` class's internals, Discord rich presence and `Exit` are not part of this model.
- The best-sessions leaderboard sort is left out. It compares floating-point averages that may divide by zero.
- The Avalonia windows, dialogs, message-box text, collection notifications and `ProcessUtils` are left out. `Program.ServiceProvider` is a Boolean parameter.
- Dashboard.ParseBool: does not trim the white space and null characters that `bool.Parse` trims.
- Dashboard.ParseInt32: does not accept the surrounding white space or culture-specific signs that `int.Parse` accepts.
- Dashboard.OpenModule: does not model the 32-bit wrap-around of `config.X += ...`. Screen and window sizes are far from that range.
- Percent-encoding of strings in the query is not modelled, because the source appends them as they are.
- RequestRules.DateEncodingReadBack: the model writes dates in the Gregorian calendar, as the invariant culture does. `date.ToString("yyyy-MM-dd")` passes no format provider, so the source uses the current culture's calendar: under th-TH the date 2024-05-01 is sent as `2567-05-01`. The date's own fields come back only under a culture with the Gregorian calendar.
- SessionRecords.StartedAtTextRoundTrip: the directory name is written in the Gregorian calendar, as the invariant culture does. `StartedAt.ToString("yyyy-MM-dd HH_mm_ss")` passes no format provider, so the source uses the current culture's calendar, and under th-TH a session started on 2024-05-01 gets a directory starting `2567-05-01`.
- SessionRecords.StartedAtTextRoundTrip: `Instant` keeps a `DateTimeOffset` only down to the second and without its UTC offset. So the directory name is not unique per start time: two sessions started in the same second, or at the same local time on both sides of an offset change, share a directory, and the later session file overwrites the earlier one.
- SessionRecords.SessionData.constructor: the source stores the configuration's rules object itself, so later edits to the configuration show through. The model's rules are a value, the ones held at construction.
- The formatters that are parameters (`Deformat`, the regex, `ClearFileName`, `Path.Combine`, `DateTimeOffset.ToString`) are total here. Only `string.Format` has a failure path (`BadReplayFileFormat`); the exceptions of the others are not modelled.
- Dashboard.SaveThenLoadInto: a value of a type other than Boolean, String and Int32 whose text is no date (a nullable integer, say) is not restored. The reader leaves the editor's value, so such a property is not `Restorable` and the round trip promises nothing for it.
- Strings.Lower: `ToLower()` on property names and site names depends on the current culture. Under a Turkish or Azeri culture 'I' becomes a dotless 'ı', so the `In*` parameters would be sent as `ınbeta` and so on. The model lower-cases as in the invariant culture, ASCII letters only.
- Dashboard.Assign: `PropertyInfo.SetValue` runs the rule editor's property setters. The model treats each as a plain store, without their exceptions or side effects. `ReloadFrom` and `SaveThenLoad` rely on this.
- A `HashSet` holds no element twice, but the model's sequences for sets may. No proved property depends on distinctness; a repeated element only changes the weights of a redraw.

## Findings

| source | as written | input that shows it | evidently intended | confidence | as-written member | corrected member |
|---|---|---|---|---|---|---|
| Src/RandomizerTMF/ViewModels/DashboardWindowViewModel.cs:173-182 | the insert-by-date loop inserts only before a session that started strictly earlier, and has no fallback after the loop | listed sessions `[start 5]`, scanned session `start 3`: the list stays `[start 5]` and the older session is never shown | a session no later than every listed one goes at the end, so every scanned session is listed and the order is kept | medium, not executed (directory enumeration order decides whether it happens) | Dashboard.ScanInsert, Dashboard.OlderSessionDropped | Dashboard.InsertByDate, Dashboard.InsertByDateSorted |

The view model's `InsertScannedSession` follows the code as written. `ScanInsertAgrees` shows that it differs from the corrected insertion only in the dropped case.

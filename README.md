# belowdeck, modelled in Dafny

belowdeck is a Stream Deck Plus daemon: eight keys, four dials and a touch
strip shared by several modules (now playing, weather, Home Assistant,
GitHub pull requests). This project models its decision logic and proves
properties of that model:

- **the coordinator** (`Coordination`): the registration tables, module
  initialisation that carries on past failures, overlay-first event routing,
  and which images reach the device on each render tick;
- **the module vocabulary**: resource grants (`Resources`), the base module
  (`Base`) and the event conversions (`Convert`);
- **the GitHub module**: the overlay state machine with lazy expiry and
  paging (`GitHub`), plus its text and grouping rules (`GitHubRender`);
- **the weather module's** precipitation scan, type mapping and icon choice
  (`WeatherApi`, `WeatherRender`);
- **the emulated device** (`EmulatedDevice`): open/close, handler tables,
  hit tests and input classification;
- **the daemon's device acquisition**, a single-flight guard with a bounded
  retry, and its fixed resource grants (`Acquisition`);
- **the standalone now-playing program**: album-art geometry and change
  detection (`NowPlayingApp`).

Some things are parameters of the operation that needs them:

- time, as an integer number of milliseconds;
- module answers: whether Init or a handler fails, whether an overlay is
  active, and the images a module renders;
- device answers;
- HTTP and media-control results.

Other conventions:

- Images are opaque values such as `Black(rect)` and `Composite(rect, layers)`.
- Strings are sequences of one-byte characters.
- Modules are abstract references with an overlay flag.
- The device and the modules are observed through a `Trace` of pushed
  images and module calls.

## Model

| member | source | states |
|---|---|---|
| Coordination.Coordinator.constructor | internal/coordinator/coordinator.go:47-56 | New: empty module list, empty resource and ownership maps, no failed module, zero strip rectangle |
| Coordination.Coordinator.RegisterModule | internal/coordinator/coordinator.go:60-79 | stores the grant (so `resourcesForModule` returns it), claims each granted key and dial for the module while every other table entry is unchanged, appends the module, never fails |
| Coordination.Claim | internal/coordinator/coordinator.go:67-72 | every listed id is owned by the module afterwards; the ownership of every other id is unchanged |
| Coordination.ClaimStep | internal/coordinator/coordinator.go:67-72 | the ownership loop claims one id per iteration |
| Coordination.LaterRegistrantWins | internal/coordinator/coordinator.go:60-79 | with two registrations, a shared id belongs to the later one and an unshared id keeps its first owner |
| Coordination.Coordinator.Start | internal/coordinator/coordinator.go:82-100 | captures the strip rectangle only when the device has a strip and the query succeeds; calls Init on every module in registration order with its stored grant; marks as failed exactly the modules whose Init fails; installs the strip handlers only with a strip |
| Coordination.Coordinator.InitModules | internal/coordinator/coordinator.go:93-100 | the Init loop calls Init on every module in registration order with its stored grant, marks as failed exactly the modules whose Init fails, and keeps the tables consistent |
| Coordination.RenderedIffInitSucceeded | internal/coordinator/coordinator.go:94-100 | after Start, a registered module is asked for key images exactly when its Init succeeded, so later modules are initialised past a failed one |
| Coordination.FailedInitsExact | internal/coordinator/coordinator.go:94-100 | a module is in the failed set exactly when it is registered and its Init call fails |
| Coordination.Coordinator.Stop | internal/coordinator/coordinator.go:130-142 | cancels the context if Start created one, calls Stop on every module (failed ones included) in registration order, returns no error |
| Coordination.Coordinator.GetActiveOverlay | internal/coordinator/coordinator.go:150-160 | the search returns the first module, in registration order, that is not failed, has the overlay facet and reports active |
| Coordination.FirstEligibleIsFirst | internal/coordinator/coordinator.go:150-160 | nothing is returned exactly when no module is eligible; a returned module is eligible and every earlier one is not |
| Coordination.OverlayNeverFailed | internal/coordinator/coordinator.go:151-154 | a failed module is never the overlay |
| Coordination.Coordinator.HandleKeyPress | internal/coordinator/coordinator.go:170-200 | an active overlay gets press then release through HandleOverlayKey; otherwise a non-failed owner gets them through HandleKey; otherwise nothing is called and no error is returned |
| Coordination.KeyPressShape | internal/coordinator/coordinator.go:175-199 | press and release go to the same module, the release carries the duration, and it is skipped exactly when the press fails |
| Coordination.RoutingSkipsFailed | internal/coordinator/coordinator.go:175-254 | key and dial events reach only the active overlay or a non-failed owner |
| Coordination.Coordinator.HandleDialRotate | internal/coordinator/coordinator.go:205-222 | exactly one rotate event with the same delta goes to the overlay, else to the non-failed owner, else nowhere |
| Coordination.Coordinator.HandleDialSwitch | internal/coordinator/coordinator.go:226-255 | a press event, then (unless it failed) a release with the hold time, to the overlay, else to the non-failed owner, else nowhere |
| Coordination.Coordinator.RouteStripEvent | internal/coordinator/coordinator.go:281-294 | the event goes to the first non-failed module whose grant has a strip region, whatever the touch point; with none, nothing is called and no error is returned |
| Coordination.FirstStripModuleIsFirst | internal/coordinator/coordinator.go:281-294 | no strip module is found exactly when none qualifies; the one found qualifies and no earlier one does |
| Coordination.Coordinator.HandleStripTouch | internal/coordinator/coordinator.go:259-267 | installed only with a strip; a tap goes to the active overlay, else through `routeStripEvent` |
| Coordination.Coordinator.HandleStripSwipe | internal/coordinator/coordinator.go:269-276 | installed only with a strip; a swipe goes to the active overlay, else through `routeStripEvent` |
| Coordination.Coordinator.DeliverStripEvent | internal/coordinator/coordinator.go:259-276 | overlay first, else the first strip module, else nowhere |
| Coordination.Coordinator.RenderKeys | internal/coordinator/coordinator.go:319-358 | with an active overlay only its non-nil images are pushed, no module is asked, and the flag is set; on the first tick after it ends all keys are cleared and the flag is reset (even when the key size is unknown); then every non-failed module's non-nil images are pushed |
| Coordination.Coordinator.RenderModuleKeys | internal/coordinator/coordinator.go:346-357 | each non-failed module is asked once, in order, and its non-nil images are pushed |
| Coordination.RenderCallsAreNonFailed | internal/coordinator/coordinator.go:347-351 | exactly the registered non-failed modules are asked for key images |
| Coordination.Coordinator.PushKeyImages | internal/coordinator/coordinator.go:329-334 | nil images are never pushed; non-nil ones are pushed in order |
| Coordination.NonNilKeepsImages | internal/coordinator/coordinator.go:329-356 | every non-nil entry is pushed and nothing else |
| Coordination.Coordinator.ClearAllKeys | internal/coordinator/coordinator.go:414-430 | sets the eight keys to a black image of the key size; nothing when the key size is unknown |
| Coordination.Coordinator.RenderStrip | internal/coordinator/coordinator.go:361-405 | with no strip nothing happens; the active overlay's non-nil strip is pushed alone; otherwise the non-nil strips of the non-failed strip modules are composited in registration order |
| Coordination.StripLayersFromParticipants | internal/coordinator/coordinator.go:385-402 | each layer of the composite is the image of a non-failed module with a strip region, at most one per module asked |
| Coordination.StripCallsAreParticipants | internal/coordinator/coordinator.go:385-395 | exactly the non-failed modules with a strip region are asked for a strip image |
| Coordination.StripLayersHaveOwners | internal/coordinator/coordinator.go:385-402 | each layer is the image of a non-failed module with a strip region, and there are no more layers than modules asked |
| Resources.Resources.OwnsKey | internal/module/resources.go:61-68 | true exactly when the key is in the grant's keys |
| Resources.Resources.OwnsDial | internal/module/resources.go:71-78 | true exactly when the dial is in the grant's dials |
| Resources.Occurs | internal/module/resources.go:61-78 | the linear search finds the id exactly when it occurs |
| Resources.OwnershipImpliesGrant | internal/module/resources.go:46-78 | owning a key implies `HasKeys`; owning a dial implies `HasDials` |
| Resources.StripIffSomePoint | internal/module/resources.go:37-53 | `HasStrip` holds exactly when the rectangle holds a point; the zero grant has no keys, no strip and no dials |
| Resources.IdentifierRanges | internal/module/resources.go:10-30 | the keys are 1..8 and the dials 1..4 |
| Geometry.EmptyContainsNothing | internal/module/resources.go:37-39 | an empty rectangle, such as the zero one, holds no point |
| Geometry.OverlapsIffCommonPoint | internal/module/resources.go:37-39 | two rectangles overlap exactly when some point lies in both |
| Base.BaseModule.constructor | internal/module/base.go:18-20 | NewBaseModule keeps the identifier and grants nothing |
| Base.BaseModule.Init | internal/module/base.go:30-34 | never fails; afterwards `Resources()` returns the grant and a cancellable context exists |
| Base.BaseModule.Stop | internal/module/base.go:39-44 | never fails, also before Init; cancels the context only if Init made one |
| Base.BaseModule.RenderKeys | internal/module/base.go:47-49 | no key images |
| Base.BaseModule.RenderStrip | internal/module/base.go:52-54 | no strip image |
| Base.BaseModule.HandleKey | internal/module/base.go:57-59 | no error |
| Base.BaseModule.HandleDial | internal/module/base.go:62-64 | no error |
| Base.BaseModule.HandleStripTouch | internal/module/base.go:67-69 | no error |
| Base.LifecycleKeepsIdentity | internal/module/base.go:18-44 | the identifier survives Init and Stop, and Init's grant is what `Resources()` returns |
| Convert.KeyIdFromStreamdeck | internal/module/convert.go:10-17 | converting back to the library's id yields the input |
| Convert.DialIdFromStreamdeck | internal/module/convert.go:20-27 | converting back to the library's id yields the input |
| Convert.IdentifierRoundTrip | internal/module/convert.go:10-27 | key and dial ids survive the round trip through the library's types |
| Convert.TouchStripEventFromTap | internal/module/convert.go:30-45 | a long tap exactly for the LONG touch type, a tap otherwise, never a swipe; the point is copied and the swipe fields stay zero |
| Convert.TouchStripEventFromSwipe | internal/module/convert.go:48-55 | a swipe located at and starting from the origin, ending at the destination |
| GitHub.GitHubModule.constructor | internal/modules/github/module.go:63-68 | a new module is disabled and has no data and no overlay |
| GitHub.GitHubModule.Init | internal/modules/github/module.go:76-104 | keeps the grant; without a client the module is disabled yet Init succeeds; with one it is enabled, and Init fails exactly when the embedded fonts do not load |
| GitHub.GitHubModule.HandleKey | internal/modules/github/module.go:237-254 | a release changes nothing; a press opens the review overlay when the module has two keys and this is the second, the own-PRs overlay otherwise, expiring five seconds later, at page one |
| GitHub.GitHubModule.IsOverlayActive | internal/modules/github/module.go:375-395 | active exactly when an overlay is set and `now` is not after its expiry; expiry switches it off, and an active answer changes nothing |
| GitHub.OverlayExpiryScenario | internal/modules/github/module.go:375-395 | a page turn extends the overlay; once it has expired it stays off, even when asked for an earlier time |
| GitHub.GitHubModule.HandleOverlayDial | internal/modules/github/module.go:266-314 | other dials and a press change nothing; a turn of the fourth dial moves one page within the selected list's page count and restarts the timer; a release closes the overlay |
| GitHub.PageAfterRotation | internal/modules/github/module.go:290-304 | a turn right goes one page on, capped at the last page; a turn left goes one page back, floored at the first; no turn keeps the page |
| GitHub.RotationStaysOnExistingPage | internal/modules/github/module.go:284-304 | from an existing page every turn lands on an existing page, moving by one when it can |
| GitHub.GitHubModule.HandleOverlayKey | internal/modules/github/module.go:325-357 | a release does nothing; a press opens the URL of the pull request at `page*8 + id-1` of the selected list, only when that index exists and the URL is not empty |
| GitHub.PRForKey | internal/modules/github/module.go:344-354 | a pull request is found exactly when the index `page*8 + id-1` is in range, and it is the one there |
| GitHub.GitHubModule.RenderOverlayKeys | internal/modules/github/module.go:398-432 | exactly the eight keys; key i+1 shows the pull request at `page*8+i` if there is one, else an empty key |
| GitHub.PageKeys | internal/modules/github/module.go:414-429 | the loop over the eight keys builds exactly that map |
| GitHub.KeyOpensWhatItShows | internal/modules/github/module.go:344-354 | a press opens the pull request the overlay shows on that key, and there is one exactly when the key is not empty |
| GitHub.GitHubModule.RenderKeys | internal/modules/github/module.go:211-230 | nothing while disabled; otherwise the stats button on the first granted key and the review button on the second, and no other key |
| GitHub.GitHubModule.FetchStats | internal/modules/github/module.go:131-181 | nothing changes if the stats query fails; otherwise the stats get the failed-CI and draft counts of the fetched list added, the review count is stored, and each list is replaced when its fetch succeeded, which is the corrected merge of the Findings table (as written, an empty successful search keeps the old list) |
| GitHub.TallyPRList | internal/modules/github/module.go:147-154 | the counting loop yields the number of failed-CI pull requests and the number of drafts |
| GitHub.CountsAdd | internal/modules/github/module.go:147-154 | the counts add up over concatenated lists and never exceed a list's length |
| GitHub.CountsBounded | internal/modules/github/module.go:147-154 | neither count exceeds the list's length |
| GitHub.StaleListAfterEmptyFetch | internal/modules/github/module.go:170-179 | as written, a successful fetch that finds nothing leaves a stale list |
| GitHub.ListAfterFetch | internal/modules/github/module.go:170-179 | the kept list is what the fetch found when it succeeded and the old one when it failed |
| GitHub.AsWrittenDiffersOnlyOnEmptyFetch | internal/modules/github/module.go:170-179 | the merge as written and the corrected merge disagree exactly on an empty successful fetch while a list is shown |
| GitHubRender.TotalPages | internal/modules/github/render.go:331-335 | at least one page; one for no pull requests; otherwise the fewest pages of eight that hold them all |
| GitHubRender.PageIndicatorReadsBack | internal/modules/github/render.go:497 | the indicator reads as the one-based page, a slash and the page count |
| GitHubRender.RenderOverlayStripWithPRs | internal/modules/github/render.go:325-348 | "No PRs" exactly for an empty list, else the repository summary, and always the page indicator |
| GitHubRender.Truncated | internal/modules/github/render.go:581-592 | an over-long word becomes its first `max-1` bytes and a full stop, `max` bytes in all |
| GitHubRender.WrapText | internal/modules/github/render.go:570-602 | the loop computes the greedy word wrap |
| GitHubRender.WrapFoldFits | internal/modules/github/render.go:579-598 | every finished line and the current line fit the width |
| GitHubRender.WrapLinesFit | internal/modules/github/render.go:570-602 | text that fits is returned as one line; otherwise every line fits the width |
| GitHubRender.WrapFoldKeepsWords | internal/modules/github/render.go:576-598 | without over-long words the lines, joined by spaces, are the words joined by spaces |
| GitHubRender.WrapLinesKeepText | internal/modules/github/render.go:576-602 | wrapping text with no over-long word loses and adds no words |
| GitHubRender.WrapFoldKeepsTruncations | internal/modules/github/render.go:579-598 | each over-long word appears, truncated, among the lines |
| GitHubRender.WrapLinesTruncateLongWords | internal/modules/github/render.go:570-602 | an over-long word of the text appears truncated among the lines |
| GitHubRender.RepoPart | internal/modules/github/render.go:291-295 | the text after the last slash, or the whole text without one |
| GitHubRender.Abbreviate | internal/modules/github/render.go:296-298 | names up to ten bytes are kept; longer ones become nine bytes and a full stop |
| GitHubRender.WaitCount | internal/modules/github/render.go:134-138 | waiting minus drafts, never below zero |
| GitHubRender.RenderPRStatsButton | internal/modules/github/render.go:100-146 | the outbox icon exactly when nothing failed CI and there are no drafts; Fail and Draft rows appear exactly when their counts are positive, placed as the source places them, above the Wait, OK and Chg rows |
| GitHubRender.BackgroundOf | internal/modules/github/render.go:243-256 | draft, then failed CI, then approved, changes or waiting, each exactly in its case |
| GitHubRender.StatusColour | internal/modules/github/render.go:259-269 | grey exactly for drafts; otherwise green for approved, orange for changes, yellow otherwise |
| GitHubRender.BarColour | internal/modules/github/render.go:271-277 | red exactly when CI failed, else the status colour |
| GitHubRender.CIMark | internal/modules/github/render.go:283-288 | "X" exactly for failed CI, "+" exactly for passed, nothing otherwise |
| GitHubRender.RenderPRKey | internal/modules/github/render.go:239-314 | a key shows the number, the short repository name (ten bytes at most), the background, the number drawn in the status colour, the CI bar colour and mark, and exactly the first min(3, n) of the n wrapped title lines, each fitting the width |
| GitHubRender.BucketOf | internal/modules/github/render.go:374-386 | drafts in the draft bucket; otherwise approved, changes or waiting by review state |
| GitHubRender.DedupListsEachOnce | internal/modules/github/render.go:369-372 | the repository order lists every repository once and nothing else |
| GitHubRender.DedupStep | internal/modules/github/render.go:369-372 | a pull request appends its repository to the order exactly when the repository is new |
| GitHubRender.TallyStep | internal/modules/github/render.go:373-387 | a pull request bumps one bucket of its own repository's counts and leaves every other repository's counts alone |
| GitHubRender.GroupedStep | internal/modules/github/render.go:362-387 | one iteration of the grouping loop keeps the order equal to the first-seen repositories and every stored count equal to the repository's tally |
| GitHubRender.GroupByRepo | internal/modules/github/render.go:359-387 | the order is by first appearance, with no repeats; every listed repository has exactly its pull requests' tallies |
| GitHubRender.SumTotalsStep | internal/modules/github/render.go:362-387 | one more pull request raises the sum of totals by one when its repository is listed |
| GitHubRender.TallyOfAbsent | internal/modules/github/render.go:362-387 | a repository with no pull request has all-zero tallies |
| GitHubRender.TotalsCoverList | internal/modules/github/render.go:362-387 | every pull request is counted exactly once: the totals sum to the list's length |
| GitHubRender.Dots | internal/modules/github/render.go:420-437 | at most five dots, and a "+" exactly when there are more than five |
| GitHubRender.SummaryCells | internal/modules/github/render.go:395-410 | at most six repositories, in order, each labelled with its abbreviated name |
| GitHubRender.SummaryCellsDistinct | internal/modules/github/render.go:395-404 | no two shown repositories share a grid cell |
| WeatherApi.GetPrecipType | internal/modules/weather/api.go:182-195 | snow, sleet and drizzle keep their names, a thunderstorm is a storm, and exactly the other conditions are rain |
| WeatherApi.AnalyzePrecipitation | internal/modules/weather/api.go:135-179 | no samples give the zero forecast; otherwise the type comes from the condition and `active` from the first sample; when active, the first dry minute (always at least one) with an "ending in" text, or zero with "60+" when none is dry; when dry, the first wet minute with an "in N min" text, or zero and no text |
| WeatherApi.PrecipScanUnique | internal/modules/weather/api.go:135-179 | the scan's description leaves no choice: exactly one forecast fits given samples and condition |
| WeatherApi.CurrentFrom | internal/modules/weather/api.go:113-117 | condition, description and icon come from the first current entry when there is one |
| WeatherApi.DailyFrom | internal/modules/weather/api.go:119-127 | the temperatures from the first daily entry when present, and its condition and icon from that entry's first weather entry |
| WeatherApi.FetchOneCall | internal/modules/weather/api.go:113-129 | the copied fields, and a precipitation forecast that meets `PrecipScan` for the minutes and the current condition (the whole scan result: type, active flag, start, end and text), whose type is rain when no current entry exists |
| WeatherRender.GetWeatherIcon | internal/modules/weather/render.go:175-213 | the night colour exactly for night codes starting 01 or 02, the sunny colour exactly for day codes starting 01 or 02, a plain cloud exactly for 03, 04 and unknown codes |
| WeatherRender.CodePrefix | internal/modules/weather/render.go:187-190 | a three-character code starts with exactly one two-character prefix and is a night code exactly when it ends in "n" |
| WeatherRender.DayNightDiffersOnlyWhenClear | internal/modules/weather/render.go:187-212 | the day and night variants of a code choose different icons exactly for 01 and 02 |
| WeatherRender.ClearSkyIcons | internal/modules/weather/render.go:190-199 | for any third character, 01x is the moon with the night colour when x is "n" and the sun with the sunny colour otherwise; 02x likewise cloud-and-moon or cloud-and-sun |
| WeatherRender.OtherWeatherIcons | internal/modules/weather/render.go:200-212 | 03 and 04 cloud, 09 and 10 rain, 11 lightning, 13 snow, 50 fog, whatever the third character |
| WeatherRender.UnknownCodeIcon | internal/modules/weather/render.go:211-212 | a code with none of the nine known prefixes, the empty code included, falls through to the cloud with the cloudy colour |
| WeatherRender.ConditionText | internal/modules/weather/render.go:144-150 | the description, or the condition when it is empty, with the first byte upper-cased; empty exactly when both are |
| WeatherRender.PrecipTone | internal/modules/weather/render.go:163-167 | no text exactly when the description is empty; the snow colour exactly for snow and sleet, else the rain colour |
| WeatherRender.SnowColourForSnowAndSleet | internal/modules/weather/api.go:182-195 | through the type mapping, the snow colour is used exactly for the snow and sleet conditions |
| EmulatedDevice.Emulator.constructor | internal/device/emulator/emulator.go:80-96 | closed, brightness 80, every key and the strip black, no handlers |
| EmulatedDevice.Emulator.Open | internal/device/emulator/emulator.go:98-109 | fails exactly when already open; open afterwards |
| EmulatedDevice.Emulator.Close | internal/device/emulator/emulator.go:112-126 | fails exactly when not open; closed afterwards |
| EmulatedDevice.ReopenScenario | internal/device/emulator/emulator.go:98-133 | opening twice is refused; open, close and open again succeed and the device reports open |
| EmulatedDevice.Emulator.Listen | internal/device/emulator/emulator.go:298-313 | refused exactly on a closed device; otherwise the error channel is attached |
| EmulatedDevice.Emulator.SetBrightness | internal/device/emulator/emulator.go:166-171 | the brightness is stored as given |
| EmulatedDevice.Emulator.SetKeyImage | internal/device/emulator/emulator.go:174-189 | succeeds exactly for keys 1..8 and replaces only that key's image; otherwise nothing changes |
| EmulatedDevice.Emulator.SetTouchStripImage | internal/device/emulator/emulator.go:192-202 | the strip becomes the image drawn on a strip-sized canvas |
| EmulatedDevice.Emulator.ClearKey | internal/device/emulator/emulator.go:205-216 | succeeds exactly for keys 1..8 and blacks out only that key; otherwise nothing changes |
| EmulatedDevice.Emulator.ForEachKey | internal/device/emulator/emulator.go:219-226 | visits keys 1..8 in order, and stops at and reports the first failing callback |
| EmulatedDevice.Emulator.ForEachDial | internal/device/emulator/emulator.go:229-236 | visits dials 1..4 in order, and stops at and reports the first failing callback |
| EmulatedDevice.Emulator.AddKeyHandler | internal/device/emulator/emulator.go:239-250 | succeeds exactly for keys 1..8 and appends only to that key's list, so that key's press reaches the handler last and no other event's handlers change; otherwise nothing changes |
| EmulatedDevice.Emulator.AddDialRotateHandler | internal/device/emulator/emulator.go:253-264 | succeeds exactly for dials 1..4 and appends only to that dial's rotate list, so a rotation of that dial by any delta reaches the handler last and no other event's handlers change |
| EmulatedDevice.Emulator.AddDialSwitchHandler | internal/device/emulator/emulator.go:267-278 | succeeds exactly for dials 1..4 and appends only to that dial's switch list, so that dial's press reaches the handler last and no other event's handlers change |
| EmulatedDevice.Emulator.AddTouchStripTouchHandler | internal/device/emulator/emulator.go:281-286 | always appends, so every tap reaches the handler last and no other event's handlers change |
| EmulatedDevice.Emulator.AddTouchStripSwipeHandler | internal/device/emulator/emulator.go:289-294 | always appends, so every swipe reaches the handler last and no other event's handlers change |
| EmulatedDevice.Emulator.HandleInput | internal/device/emulator/emulator.go:445-570 | one frame: a click fires the key or dial it hits, or starts a drag on the strip; the release ends the drag as a tap or a swipe; a wheel whose raw offset is non-zero turns the dial under the cursor by the offset truncated to `int8` and clamped, which is zero for a fractional offset; the drag state is updated accordingly; every event fired names a key or dial that exists |
| EmulatedDevice.Emulator.HandlersFor | internal/device/emulator/emulator.go:573-576 | the list a trigger reads: a key press gets its key's list, a dial press its dial's switch list, a rotation its dial's rotate list whatever the delta, a tap or a swipe the strip's list |
| EmulatedDevice.Emulator.Trigger | internal/device/emulator/emulator.go:573-693 | every handler registered for the event is called with it, once each, in registration order |
| EmulatedDevice.RegistrationScenario | internal/device/emulator/emulator.go:239-250 | two handlers registered on key 3 are both called, in order, when it is pressed; key 4 reaches none; key 9 is refused |
| EmulatedDevice.KeyRect | internal/device/emulator/emulator.go:459-466 | each key's on-screen square is 144 pixels on a side |
| EmulatedDevice.LayoutValues | internal/device/emulator/emulator.go:18-47 | key spacing 44, key area height 332, dial spacing 64, window 840 by 774, and the dial centres |
| EmulatedDevice.KeyRectValues | internal/device/emulator/emulator.go:459-466 | the eight key squares, written out |
| EmulatedDevice.KeyRectsDisjoint | internal/device/emulator/emulator.go:40-47 | the key squares are pairwise disjoint and miss the strip, so a click hits at most one key |
| EmulatedDevice.FindKey | internal/device/emulator/emulator.go:459-469 | the hit-test loop yields the first key whose square holds the point |
| EmulatedDevice.KeyHitExact | internal/device/emulator/emulator.go:459-469 | the click hits key k exactly when k's square holds the point |
| EmulatedDevice.KeyHitFromExact | internal/device/emulator/emulator.go:459-469 | the same, for the search from any index |
| EmulatedDevice.SquareAtMost | internal/device/emulator/emulator.go:482-484 | a point within radius r has each offset within r |
| EmulatedDevice.DialsDisjoint | internal/device/emulator/emulator.go:473-488 | no point is on two dials |
| EmulatedDevice.FindDial | internal/device/emulator/emulator.go:473-488 | the hit-test loop yields the first dial whose circle holds the point |
| EmulatedDevice.DialHitExact | internal/device/emulator/emulator.go:473-566 | a click or scroll reaches dial d exactly when the point is on d's circle |
| EmulatedDevice.DialHitFromExact | internal/device/emulator/emulator.go:473-488 | the same, for the search from any index |
| EmulatedDevice.ClampToStrip | internal/device/emulator/emulator.go:505-517 | the release point clamped into [0,799] by [0,99], unchanged when already inside |
| EmulatedDevice.ReleaseDispatch | internal/device/emulator/emulator.go:522-539 | a tap at the drag start exactly when the squared distance is below 400, long exactly when held over 500 ms; otherwise a swipe from the start to the end |
| EmulatedDevice.ClampDelta | internal/device/emulator/emulator.go:558-563 | the wheel delta clamped into [-5, 5], unchanged inside |
| EmulatedDevice.NearestIndexInRange | internal/device/emulator/emulator.go:783-790 | for in-range destination coordinates the nearest source coordinate is in range |
| EmulatedDevice.ScaleImageNearest | internal/device/emulator/emulator.go:776-793 | the scaled image has the requested size, and pixel (x, y) is the source pixel `(x*srcW/newWidth, y*srcH/newHeight)` |
| Acquisition.Acquirer.constructor | cmd/belowdeck/main.go:113-118 | no enumeration in flight, none started, no wake queued |
| Acquisition.Acquirer.TryGetDevice | cmd/belowdeck/main.go:123-166 | while an enumeration is in flight, no device and no new enumeration; otherwise one is started, an opened device is returned, failures return nothing and clear the flag, and a timeout returns nothing with the flag still set |
| Acquisition.Acquirer.FinishStuckEnumeration | cmd/belowdeck/main.go:135-165 | the flag clears when the stuck enumeration returns, and a device it opened late is closed, never returned |
| Acquisition.Acquirer.Attempt | cmd/belowdeck/main.go:123-166 | when no enumeration is in flight, or the stuck one returns first, one enumeration starts and a device it opens in time is returned; otherwise nothing starts and nothing is returned; a late device is closed; the flag stays set exactly while an enumeration is stuck |
| Acquisition.Acquirer.WaitForHardwareDevice | cmd/belowdeck/main.go:173-212 | the attempts made are the first ones of the plan, starting with one before waiting; it connects exactly when the last attempt returned a device and none before did, with that device; otherwise it makes every attempt of the plan and ends as the plan does (cancelled or still waiting), or runs out of probes and is still waiting; the enumeration counters follow the attempts |
| Acquisition.Acquirer.WaitForSignals | cmd/belowdeck/main.go:183-211 | the waiting loop follows the plan attempt by attempt and stops as `Settled` describes: connected at the first device, cancelled at a cancel signal or a cancelled pause |
| Acquisition.Acquirer.RetryAfterWake | cmd/belowdeck/main.go:189-205 | the ten probes after a wake follow the plan: it stops connected at the first device found or cancelled at a cancelled pause, and otherwise returns to waiting on the plan that follows the wake rounds |
| Acquisition.PlanShape | cmd/belowdeck/main.go:177-211 | the plan starts with the attempt before waiting, no later attempt is that one, wake rounds stay below ten, there is at most one attempt more than one per arrival plus ten per wake, and the plan never ends connected |
| Acquisition.UninterruptedPlan | cmd/belowdeck/main.go:177-211 | with no cancellation, the attempts are the first one, then exactly one per arrival and rounds 0 to 9 per wake, in order, and the wait goes on |
| Acquisition.CancelSignalStops | cmd/belowdeck/main.go:185-186 | a cancel signal ends the wait there, cancelled, after the attempts the earlier signals called for |
| Acquisition.CancelledPauseStops | cmd/belowdeck/main.go:193-202 | a cancellation in the pause after wake round k ends the wait, cancelled, after rounds 0 to k |
| Acquisition.StuckBlocksAll | cmd/belowdeck/main.go:125-127 | while an enumeration is stuck, every attempt returns nothing and starts no enumeration |
| Acquisition.StartsAtMostAttempts | cmd/belowdeck/main.go:125-135 | each attempt starts at most one enumeration |
| Acquisition.ConnectsBeforeWaiting | cmd/belowdeck/main.go:177-181 | a device already plugged in is connected by the attempt before any signal |
| Acquisition.StuckEnumerationThenCancel | cmd/belowdeck/main.go:123-211 | after an enumeration hangs, the arrival's attempt starts nothing, and a cancel ends the wait with one enumeration started |
| Acquisition.BudgetMonotone | cmd/belowdeck/main.go:183-211 | later signals only add to the number of attempts allowed |
| Acquisition.BudgetCounts | cmd/belowdeck/main.go:187-205 | a wake allows exactly ten attempts and an arrival one |
| Acquisition.Acquirer.SignalWake | cmd/belowdeck/main.go:55-58 | a wake is queued unless one already is |
| Acquisition.Acquirer.DrainWake | cmd/belowdeck/main.go:86-95 | after the drain loop the channel is empty; the one buffered signal is taken if present |
| Acquisition.GrantsDisjoint | cmd/belowdeck/main.go:229-249 | no two of the daemon's grants share a key, a dial or a strip pixel |
| Acquisition.RegisterDaemonModules | cmd/belowdeck/main.go:229-249 | registering the four modules yields the module order and the exact key and dial ownership tables |
| Acquisition.DaemonOwners | cmd/belowdeck/main.go:229-249 | the ownership tables the four grants yield when claimed in registration order: keys 5 and 6 and dials 1 and 2 to now playing, keys 1 and 2 and dial 4 to Home Assistant, keys 3 and 4 to GitHub, nothing to weather |
| NowPlayingApp.CropRect | cmd/nowplaying/main.go:235-242 | a square of side min(w, h) inside the image, centred (the leftover split with at most one more pixel after), offset along the longer side |
| NowPlayingApp.ArtTilesPartition | cmd/nowplaying/main.go:209-218 | the four tiles are key-sized, pairwise disjoint, and together cover the scaled art |
| NowPlayingApp.UpdateArtwork | cmd/nowplaying/main.go:179-222 | nothing is set when decoding or the key-size query fails; otherwise keys 3, 4, 7, 8 get their tiles in order |
| NowPlayingApp.Display.constructor | cmd/nowplaying/main.go:112-113 | no artwork remembered, not playing |
| NowPlayingApp.Display.UpdateDisplay | cmd/nowplaying/main.go:156-177 | nothing on a failed fetch; new non-empty artwork is remembered and handed to the artwork renderer (which may fail to decode it); the icon is redrawn exactly when the playing state changed; the strip is always refreshed |
| NowPlayingApp.RepeatedPollDrawsOnce | cmd/nowplaying/main.go:156-177 | polling the same answer twice hands over the artwork and draws the icon at most once each |
| NowPlayingApp.Dial2Command | cmd/nowplaying/main.go:524-533 | a negative delta is previous-track; zero or positive is next-track |

## Left out

- Concurrency and timing are not modelled in their own right: goroutines, channels, locks, `sync.Once`, tickers, `time.After`, the render loop's scheduling (internal/coordinator/coordinator.go:297-316) and the shutdown timeouts in `runWithDevice`. Operations run one after another, and time is a parameter.
- Pixel work is left out: fonts, SVG rasterisation, compositing and the Ebitengine window. `Draw`, `RunGUI`, `drawRect` and `drawCircle` are not modelled, and images are opaque values.
- Floating point is left out: each minute's precipitation is reduced to whether it reaches the 0.1 mm/h threshold, and the wheel's float offset is given as whether it is non-zero together with its truncation to a signed byte. Brightness scaling and playback progress are not modelled.
- The hardware access is not part of this model: internal/device/hardware.go wraps the streamdeck library, and internal/usbwatch/watcher_darwin.go makes IOKit foreign calls.
- Configuration and setup are left out: internal/config/config.go, cmd/belowdeck/setup.go and cmd/belowdeck/status.go are file, keychain, environment and terminal I/O.
- internal/modules/github/api.go is an HTTP client and is not modelled; its results are parameters. Its `PRInfo` has no draft or CI fields, so the model gives `PRInfo` an `isDraft` flag and a CI status of failed, passed or other.
- internal/modules/weather/module.go is left out: configuration, a polling goroutine and float parsing.
- The wiring programs are left out: cmd/belowdeck-emulator/main.go and the device and channel set-up of cmd/belowdeck/main.go.
- `Start` is modelled up to installing the handlers. Starting the listener and the render loop, and waiting for cancellation, are left out as concurrency.
- The coordinator's tap handler calls `module.TouchStripEventFromDeviceTap`, which convert.go does not define. The model uses `TouchStripEventFromTap` (internal/module/convert.go:30-45).
- The summary buttons' pixels are not modelled: `renderReviewRequestedButton` is only the review count it shows, and the empty key is only a tag.
- The coordinator's handlers capture each control's owner when Start installs them; the model looks the owner up when the event arrives. The two agree because registration must happen before Start.
- Go iterates over a module's key-image map in no fixed order; the model pushes the entries in the order it is given them.
- The emulator's triggers start each handler call in its own goroutine, pass a handler's error to the error channel only when that does not block, and release a pressed key or dial 50 ms later. `Trigger` gives the calls in order and leaves out their concurrency, their errors and the release.
- Trivial getters are not given contracts: `ID`, `Resources`, `IsOpen`, `GetModelName`, the key, dial and strip queries, and the device's rectangle answers.
- `HasKeys`, `HasStrip` and `HasDials` are the definitions themselves; what they mean is proved in `OwnershipImpliesGrant` and `StripIffSomePoint`.
- Acquisition.Acquirer.WaitForHardwareDevice: a stuck enumeration can only finish between attempts, as given by each probe, not at an arbitrary moment.
- GitHubRender.RenderPRStatsButton: the vertical positions are stated as the source's constants; the text layout on those rows is not modelled.
- GitHub.GitHubModule.FetchStats: states the corrected list merge (`ListAfterFetch`); the code as written also keeps the old list after a successful search that finds nothing, which `ListAfterFetchAsWritten` and `StaleListAfterEmptyFetch` model.
- The coordinator's trace keeps the module calls and the device pushes in two logs, so it does not record how calls and pushes interleave; the ordering the source promises, the clearing of all keys before the modules' images on the first tick after an overlay, lies within the push log.
- NowPlayingApp.UpdateArtwork: base64 decoding, image decoding and scaling are parameters; only whether they succeed and the key size are modelled.

## Findings

| source | as written | input that shows it | evidently intended | confidence | as-written member | corrected member |
|---|---|---|---|---|---|---|
| internal/modules/github/module.go:170-179 with internal/modules/github/api.go:211-219 | `GetMyPRList` builds its result by appending to a nil slice, so a search that finds no pull requests returns nil, the same as an error; `fetchStats` keeps the old list whenever the new one is nil | an overlay list holding one pull request, followed by a successful fetch that finds none | the overlay shows the empty list once a fetch succeeds with nothing, and keeps the old list only on error | not executed | GitHub.StaleListAfterEmptyFetch | GitHub.ListAfterFetch |

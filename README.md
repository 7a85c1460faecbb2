# A Dafny model of the browser-automation core of a Travian/airline-report bot

This project models the logic of five Python files of the bot:

- **gather_utils.py**
  - a small Chrome DevTools Protocol (CDP) client: the `_cdp_call` correlator with its global message counter, plus `click_element` and `set_dates_and_run` built on it;
  - the `#loader` poller `wait_until_loader_hidden`;
  - the data-shaping helpers `month_bounds`, `convert_date_slash_to_dash`, `extract_table_rows`, `extract_svg_group_ids` and `extract_build_items`.
- **utility_functions.py**: the Chrome process bookkeeping, that is
  - the pid filter `_find_cdp_chrome_pids`;
  - `_kill_pids`;
  - the launch command;
  - the branch logic of `ensure_cdp_chrome_running`.
- **send_troops.py**: the `TROOPS` template, the `TroopsOrder` object, the availability rule, the form data of the two POSTs and the raids-file rewrite.
- **building/parse_town_buildings.py**: the `UpgradeBuilding` build queue, the alt-word-to-link map and the choice of the page to build on.
- **wildcard.py**: the global window-title list and the case-insensitive window search.

Each module follows one part of the program:

| module | file | contents |
|---|---|---|
| `Common` | common.dfy | Option/Result, the Python exception kinds, the `str` helpers |
| `Cdp` | cdp.dfy | `Socket` and `Correlator` classes, and the `Await` specification of the receive loop |
| `PageInput` | pageinput.dfy | target choice, centroids, `click_element`, `set_dates_and_run` |
| `Loader` | loader.dfy | `wait_until_loader_hidden` |
| `Dates` | dates.dfy | `month_bounds`, `convert_date_slash_to_dash` |
| `Shaping` | shaping.dfy | the three `extract_*` helpers |
| `Chrome` | chrome.dfy | utility_functions.py |
| `Troops` | troops.dfy | send_troops.py |
| `Buildings` | buildings.dfy | parse_town_buildings.py |
| `Wildcard` | wildcard.dfy | wildcard.py |

State that the source changes in place becomes a class, as follows.

- The WebSocket is `Cdp.Socket`. It holds the frames the browser sends on it (a ghost `script`), those not yet read, and the log of sent commands. A click point is traced back to a frame of `script` by its index.
- The global `_cdp_msg_id` is `Cdp.Correlator`.
  - A ghost history `issued` records every id handed out.
  - Its invariant `issued == IdsThrough(lastId)` says the ids are 1001, 1002, ... up to the counter, so none repeats.
- `TroopsOrder`, `UpgradeBuilding` and the `window_titles` list are classes whose methods update their fields.
- The loops of the source are `while`/`for` loops, each proved against a specification function.

The outside world enters as parameters:

- The DevTools target list, the browser's frames and the process table.
- The answers of the DevTools, port and `Popen` probes.
- The loader-visibility samples, the parsed HTML elements, the lines of the raids file and the enumerated windows.

A wall-clock deadline becomes a count of receive attempts or samples.

Both CDP routines take the first DevTools target whose `type` is `"page"` (gather_utils.py:87, 341), not a target chosen by the page it shows. The model does the same.

## Model

| member | source | states |
|---|---|---|
| Common.ContainsIff | gather_utils.py:26 | Python's `p in s` on strings holds exactly when `p` starts at some position of `s` |
| Common.JoinSpaceContains | utility_functions.py:102 | every argument of a command line can be found in the text `" ".join` gives |
| Common.NatToStringRoundTrip | gather_utils.py:238 | reading back the digits `str(n)` writes gives `n` |
| Common.ZFill2Value | gather_utils.py:238 | `zfill(2)` keeps a digit string's value and gives at least two digits |
| Common.SplitOnFirst | gather_utils.py:321 | splitting at the first separator peels off the text in front of it |
| Common.UpperOfLower | wildcard.py:26 | upper-casing forgets whether the text was lower-cased first |
| Common.StripLeft | gather_utils.py:198 | `lstrip()` gives a suffix of the text that does not start with whitespace |
| Common.StripRight | gather_utils.py:198 | `rstrip()` gives a prefix of the text that does not end with whitespace |
| Common.StripLeftDropsOnlySpace | gather_utils.py:198 | every character `lstrip()` removes is whitespace, so it removes exactly the leading whitespace |
| Common.StripRightDropsOnlySpace | gather_utils.py:198 | every character `rstrip()` removes is whitespace, so it removes exactly the trailing whitespace |
| Common.NoSpaceStrip | gather_utils.py:198 | text that starts and ends with a non-space is its own `strip()` |
| Common.PyIntOfStr | send_troops.py:122 | `int(str(i)) == i` for every integer, negative ones included |
| Common.PyIntUnpadded | send_troops.py:122 | on unpadded text `int()` reads a digit run as its value, a minus sign and a digit run as minus it, and raises ValueError on unsigned text that is no digit run |
| Common.PyIntUnderscore | send_troops.py:122 | `int()` reads past one underscore between digits, as in `int("2_0") == 20` |
| Common.PyIntStrayUnderscore | send_troops.py:122 | `int()` raises ValueError on a doubled, a leading or a trailing underscore |
| Common.ReprPlain | gather_utils.py:114 | `repr` of text without single quotes, backslashes or unprintable characters is that text in single quotes |
| Common.ReprPrintable | gather_utils.py:114 | `repr` never shows an unprintable character below U+0100 as itself |
| Cdp.Member | gather_utils.py:109 | `j[key]` succeeds exactly on a dict holding the key and yields its value; KeyError on a dict, TypeError otherwise |
| Cdp.Lookup | gather_utils.py:109 | a chain of subscripts fails only with KeyError or TypeError |
| Cdp.ParamsOrEmpty | gather_utils.py:57 | `params or {}`: truthy params are sent as given, falsy ones as `{}` |
| Cdp.Await | gather_utils.py:59-74 | the receive loop leaves an unread suffix of the frames and fails only with the TimeoutError or the "CDP error" RuntimeError |
| Cdp.AwaitReturnsOwnReply | gather_utils.py:66-73 | a successful call returns the result of a message carrying its own id, within the budget, and every frame read before it was empty or for another id |
| Cdp.AwaitFindsOwnReply | gather_utils.py:66-73 | conversely, the first reply with the call's id that arrives within the budget is returned, or raises RuntimeError when it carries an error |
| Cdp.AwaitTimesOut | gather_utils.py:59-74 | with no reply for its id within the budget the call fails with TimeoutError; it never returns another command's reply |
| Cdp.AwaitStopsAtReceiveTimeout | gather_utils.py:62-65 | a receive timeout ends the wait at once and the frames behind it are never read |
| Cdp.AwaitSkipsStaleReply | gather_utils.py:70 | a reply for another id costs one attempt and changes nothing else |
| Cdp.NotificationsBeforeReply | gather_utils.py:69-73 | events without an id in front of the reply do not end the call |
| Cdp.Socket.Send | gather_utils.py:57 | appends the command to the sent log |
| Cdp.Socket.Recv | gather_utils.py:63-65 | takes the next frame; an empty queue reads as a receive timeout |
| Cdp.IdsThroughBounds | gather_utils.py:51-56 | every id handed out lies above 1000 and at most at the counter |
| Cdp.IdsThroughAscending | gather_utils.py:54-56 | the ids are handed out in strictly increasing order, so none is reused |
| Cdp.Correlator.constructor | gather_utils.py:51 | the counter starts at 1000 with no id handed out |
| Cdp.Correlator.Call | gather_utils.py:52-74 | the counter goes up by exactly one, a fresh id is sent with `params or {}`, and the result and remaining frames are those of `Await` |
| PageInput.FirstPage | gather_utils.py:87 | the index of the first target of type "page", with no page target before it; None when there is none |
| PageInput.PageSocketUrl | gather_utils.py:87-92 | the first page target's `webSocketDebuggerUrl`, or RuntimeError when there is no page or it has no URL |
| PageInput.FirstPageWins | gather_utils.py:87 | a later page target never shadows an earlier one |
| PageInput.SocketUrlFor | gather_utils.py:338-346 | a given non-empty `ws_url` is used as is; otherwise the first page target's URL |
| PageInput.Numbers | gather_utils.py:119-121 | the box-model `content` as numbers, or TypeError when an entry is not a number |
| PageInput.Centroid | gather_utils.py:120-121 | four times x is the sum of the even corners and four times y the sum of the odd corners; the point lies inside the corners' bounding box |
| PageInput.SliceCentroidOfQuad | gather_utils.py:386-387 | on eight numbers, `sum(content[::2]) / 4` and `sum(content[1::2]) / 4` equal the explicit centroid |
| PageInput.SquareCentroid | gather_utils.py:120-121 | the square (0,0),(10,0),(10,10),(0,10) is clicked at (5,5) by both forms |
| PageInput.SliceCentroidReadsPastQuad | gather_utils.py:386-387 | a content array with a fifth point moves the slice-form click by a quarter of it, while the explicit form ignores it |
| PageInput.ClickScriptShape | gather_utils.py:123-126 | every repetition of the click script is move, press, release at the same point |
| PageInput.Cmd | gather_utils.py:52-74 | one call on the page socket: the outcome is `Await`'s, a failure is a TimeoutError or RuntimeError, and the logs of mouse events and injected values grow by exactly this command's |
| PageInput.Dispatch | gather_utils.py:124-126 | a mouse-event call appends its params to the dispatched events and injects nothing |
| PageInput.Inject | gather_utils.py:366-370 | a `Runtime.callFunctionOn` call appends its arguments to the injected values and dispatches nothing |
| PageInput.Plain | gather_utils.py:52-74 | one call whose reply is read: exactly that command is sent with `params or {}`, and on success the result is that of the error-free reply to it, a frame of the browser's script |
| PageInput.Setup | gather_utils.py:97-105 | a call whose reply is ignored adds exactly its name and `params or {}` to the commands sent |
| PageInput.SendEach | gather_utils.py:351-352 | a list of set-up calls is sent in order and stops at the first failure, which is the last command sent; on success every entry was sent |
| PageInput.SetValueParams | gather_utils.py:366-370 | the value-setting call carries `[{"value": value}]` as its arguments |
| PageInput.DocumentRoot | gather_utils.py:108-109 | sends `DOM.getDocument` with depth 1 and pierce; on success the root is `["root"]["nodeId"]` of the error-free reply carrying that command's id, a frame of the browser's script; nothing is dispatched or injected, and a failure is never a ValueError |
| PageInput.FindNode | gather_utils.py:111-114 | sends one `DOM.querySelector` for the selector under the given root; on success the node is the truthy nodeId of that command's reply; the ValueError with the caller's message is raised exactly when that reply's nodeId is falsy |
| PageInput.AwaitReply | gather_utils.py:66-73 | what a successful call returns is the result of a frame of the browser's script that carries the call's id, has no error and had not been read when the call began |
| PageInput.BoxModelOfReply | gather_utils.py:118-119 | conversely, a box-model reply behind nothing but events is read, and the numbers are those of the `content` it carries |
| PageInput.BoxReadKept | gather_utils.py:123-126 | commands sent after the box model is read leave that command and its reply where they were |
| PageInput.MeasureBox | gather_utils.py:118-119 | the `DOM.getBoxModel` call on the node yields exactly the `content` numbers of the reply to its own id among the frames left waiting, and on success that reply is a frame of the script answering the box-model command for that same node |
| PageInput.BoxContent | gather_utils.py:117-119 | scrolls the node into view, then reads its box model, dispatching and injecting nothing; on success the scroll command on the node comes right before the box-model command on the same node, whose error-free reply's `content` gave the numbers |
| PageInput.DispatchThree | gather_utils.py:389-396 | on success exactly the three given events are dispatched, in order |
| PageInput.EnableForClick | gather_utils.py:97-105 | the commands sent are, in order, the first `n` of `Page.enable`, `Runtime.enable`, `DOM.enable`, `Debugger.enable`, `Debugger.setSkipAllPauses {"skip": true}` and `Debugger.setPauseOnExceptions {"state": "none"}`; the result is an error exactly when one of the first three failed (then that one is the last sent), and a Debugger failure is swallowed after which nothing more is sent |
| PageInput.LocateNode | gather_utils.py:97-114 | the first `n` commands it sends are the first `n` of the six enable and Debugger calls of `EnableForClick`, and on success or ValueError all three domain enables went out before the `DOM.getDocument` command; it then reads the root then queries the selector under that root, dispatching nothing; on success the node is the one the query's reply names and the root is read from the `DOM.getDocument` reply sent before the query; a falsy nodeId raises `Element not found for selector: <repr>` |
| PageInput.ClickRepeatedly | gather_utils.py:123-127 | on success the dispatched events grow by exactly `n` move-press-release triples at (x, y) |
| PageInput.ClickNode | gather_utils.py:116-129 | on success returns True and dispatches `click_count` triples (none for a count below one) at the centroid of `corners`, which are the content numbers of the reply to the `DOM.getBoxModel` command on this node; fewer than eight numbers is an IndexError |
| PageInput.ClickElement | gather_utils.py:76-134 | corrected `click_element`: no page URL means RuntimeError and no connection; otherwise a fresh connection to the first page's URL is always closed, and its ids come from the counter in order; a falsy nodeId for the selector raises ValueError with no mouse event; success dispatches exactly `click_count` triples at the centroid of the content quad of the box-model reply for the very node the selector's query under the document root named, and the log opens with the three domain enables and the Debugger calls tried, all before the `DOM.getDocument` command |
| PageInput.ClickElementAsWritten | gather_utils.py:76-134 | `click_element` as written always ends in an error and never dispatches a mouse event |
| PageInput.SetText | gather_utils.py:359-370 | queries the selector under the root, resolves the node the reply names and calls the value-setting function on the objectId of that resolve reply; on success exactly one value, `[{"value": value}]`, is injected, on that object; a falsy nodeId raises `Element not found: <selector>` and injects nothing |
| PageInput.SetNodeValue | gather_utils.py:365-370 | resolves the node and calls the value-setting function on the objectId of that very resolve reply; on success exactly `[{"value": value}]` is injected |
| PageInput.SetDates | gather_utils.py:373-374 | an unparsable start date injects nothing; success injects both converted dates, start first, the start date into the node `#txtFromDate` names and the end date into the node `#txtToDate` names, the first field set before the second is looked up |
| PageInput.ClickRunButton | gather_utils.py:376-396 | queries `#imgLoad` under the root and injects nothing; on success one move-press-release is dispatched at the slice-form centre of the content of the box-model reply for the node that query named; a falsy nodeId raises `Run button #imgLoad not found.` with no mouse event |
| PageInput.RunSteps | gather_utils.py:349-400 | on success the first commands sent are `Page.enable`, `Runtime.enable` and `DOM.enable`, in that order and before the `DOM.getDocument` command; then the two converted dates are set on the nodes `#txtFromDate` and `#txtToDate` name under the root that command read, in that order, and one move-press-release is dispatched at the slice-form centre of the box-model content of the node `#imgLoad` names under it; an unparsable start date types and clicks nothing |
| PageInput.EnableDomains | gather_utils.py:351-352 | on success exactly `Page.enable`, `Runtime.enable` and `DOM.enable` were sent, in that order, and nothing else |
| PageInput.TypeDatesAndClick | gather_utils.py:354-396 | under a root read earlier, the same outcome as `RunSteps` for the typing and the click |
| PageInput.RunStepsTrace | gather_utils.py:354-396 | the facts gathered step by step hold together on the final log: root, then the start field, then the end field, then the run button |
| PageInput.SetDatesAndRun | gather_utils.py:326-406 | the given or first page URL; a fresh connection closed on every path; on success the log opens with the three domain enables, before the `DOM.getDocument` command, and both dates in DD-MON-YYYY form set on the nodes `#txtFromDate` and `#txtToDate` name under the document root, then one click on the node `#imgLoad` names, at the slice-form centre of the content of that node's box-model reply |
| Loader.Need | gather_utils.py:290 | the run length that ends the wait is at least 1 and at least `require_stable_samples` |
| Loader.WaitUntilLoaderHidden | gather_utils.py:286-295 | True exactly at the end of the first run of enough consecutive hidden samples, False when the samples run out without one, the probe's error when it raises first |
| Loader.VisibleResets | gather_utils.py:292-293 | a visible sample breaks every run that would include it |
| Dates.DaysInMonth | gather_utils.py:237 | every month has 28 to 31 days |
| Dates.Pad2 | gather_utils.py:238 | two digits whose value is the number |
| Dates.MonthBounds | gather_utils.py:223-238 | ValueError exactly outside years 1-9999 and months 1-12; otherwise "01" and the two-digit day count of the month |
| Dates.FebruaryBounds | gather_utils.py:235-238 | February ends on "29" in leap years and on "28" otherwise |
| Dates.YearLength | gather_utils.py:237 | the month lengths add up to 365, or 366 in a leap year |
| Dates.SlashFields | gather_utils.py:321 | the pattern `%d/%m/%Y` reads a day 1-31, a month 1-12 and a year 0-9999 |
| Dates.ParseSlashDate | gather_utils.py:321 | `strptime` accepts exactly the pattern's fields that name a calendar date |
| Dates.ConvertMeaning | gather_utils.py:315-322 | the conversion succeeds exactly on dates `strptime` accepts, giving day-MON-year; otherwise ValueError, with the "does not match format" message exactly when the pattern does not match |
| Dates.CalendarMessageIsNotNoMatch | gather_utils.py:321 | the calendar's messages differ from the pattern's |
| Dates.ConvertBadFields | gather_utils.py:321 | fields that match the pattern but name no date give the calendar's message |
| Dates.ConvertedShape | gather_utils.py:322 | the output is 11 characters, shaped DD-MON-YYYY, with no lower-case letter |
| Dates.ConvertCanonical | gather_utils.py:315-322 | round trip: the canonical DD/MM/YYYY text of a valid date is read back as that date and rewritten with its month abbreviation |
| Dates.ConvertRejectsDayBeyondMonth | gather_utils.py:321 | "31/04/2025" is refused with "day is out of range for month" |
| Dates.ConvertRejectsLeapDayOfCommonYear | gather_utils.py:321 | "29/02/2023" is refused with "day is out of range for month" |
| Dates.ConvertRejectsYearZero | gather_utils.py:321 | "31/04/0000" is refused with "year 0 is out of range", the year being checked before the day |
| Dates.ConvertLeapDay | gather_utils.py:315-322 | "29/02/2024" becomes "29-FEB-2024" |
| Shaping.Inner | gather_utils.py:156 | `body_rows[1:-1]`: every row but the first and the last |
| Shaping.WithCells | gather_utils.py:160-162 | exactly the rows with at least one cell are kept |
| Shaping.ExtractTableRows | gather_utils.py:137-176 | the append loop yields `TableRows` |
| Shaping.TableRowsIgnoreEnds | gather_utils.py:156 | the header and totals rows never reach the output |
| Shaping.TableRowsFields | gather_utils.py:163-172 | each output row carries `name` and the first five cells of some inner row, `""` for a missing cell |
| Shaping.ShortTableIsEmpty | gather_utils.py:156 | a table with fewer than three rows gives no rows |
| Shaping.FirstFourToken | gather_utils.py:207 | the leftmost `\b(\d{4})\b` match, or None when nothing from that position matches |
| Shaping.GroupResult | gather_utils.py:197-211 | a kept group has a seven-digit stripped id and a flight number of at most four digits |
| Shaping.ExtractSvgGroupIds | gather_utils.py:182-212 | the append loop yields `SvgGroups` |
| Shaping.SvgGroupsWellFormed | gather_utils.py:197-211 | every result has a seven-digit id and a flight number of at most 9999 |
| Shaping.GroupFilters | gather_utils.py:197-211 | a group is kept exactly when its stripped id is seven digits, it has a text, and its last text holds a four-digit token; the kept flight is the value of the leftmost such token |
| Shaping.ResultsHoldKept | gather_utils.py:196-211 | every group that passes the filters contributes its result |
| Shaping.ResultsFromKept | gather_utils.py:196-211 | every result comes from a group that passes the filters, which the lemma names |
| Shaping.GroupKept | gather_utils.py:197-211 | a padded seven-digit id whose last text holds "2215" gives `{"id": "1234567", "flight": 2215}` |
| Shaping.FiveDigitsAreNoToken | gather_utils.py:180 | five digits in a row are no four-digit token |
| Shaping.FirstNonEmpty | gather_utils.py:38 | the first non-empty line, `""` only when every line is empty |
| Shaping.FirstNonEmptyIsFirst | gather_utils.py:38 | a non-empty name is a line of the text, and every line before it is empty |
| Shaping.FirstGid | gather_utils.py:30 | the leftmost `gid-(\d+)` match, with no match before it |
| Shaping.ItemResult | gather_utils.py:29-45 | a kept item records its column and raw id, and its gid is the number in the id |
| Shaping.Collected | gather_utils.py:26-45 | every collected item lies in an existing column and has the gid its id names |
| Shaping.StrLeTotal | gather_utils.py:48 | Python string order is total |
| Shaping.StrLeTrans | gather_utils.py:48 | Python string order is transitive |
| Shaping.KeyLeTotal | gather_utils.py:48 | the (column, gid, name) order is total |
| Shaping.KeyLeTrans | gather_utils.py:48 | the (column, gid, name) order is transitive |
| Shaping.Insert | gather_utils.py:48 | insertion keeps every element, adding one |
| Shaping.InsertSorted | gather_utils.py:48 | inserting into a sorted list keeps it sorted |
| Shaping.SortByKeySorted | gather_utils.py:48 | the sort orders by (column, gid, name) and is a permutation |
| Shaping.ExtractBuildItems | gather_utils.py:10-49 | corrected `extract_build_items`: no container means no items; otherwise the collected items sorted by (column, gid, name) |
| Shaping.CollectColumn | gather_utils.py:28-45 | the inner loop yields the results of one column in document order |
| Shaping.BuildItemsProperties | gather_utils.py:10-49 | the output is sorted, a permutation of what was collected, and every gid is read from its item's id |
| Shaping.ExtractBuildItemsAsWritten | gather_utils.py:10-49 | as written, with the rebound `^\d{7}$`: the result is never a non-empty list, and IndexError exactly when some item's id is seven digits |
| Shaping.GidNineteen | gather_utils.py:29-33 | the item "gid-19" is found by the intended pattern and skipped by the rebound one |
| Chrome.Hits | utility_functions.py:96-112 | a pid is a hit exactly when some listed process with it passes the filter |
| Chrome.InsertAscending | utility_functions.py:114 | inserting into a strictly ascending list keeps it so, holding the old elements and the new one |
| Chrome.SortedSet | utility_functions.py:114 | `sorted(set(hits))` is strictly ascending with the same elements |
| Chrome.FindCdpChromePids | utility_functions.py:94-114 | the scan yields `CdpPids` |
| Chrome.CdpPidsCharacterised | utility_functions.py:94-114 | the result is strictly ascending (no duplicates), and a pid is in it exactly when a Chrome-like process with it carries the port flag or the profile flag |
| Chrome.PortFlagOnlyWithoutProfile | utility_functions.py:103-110 | without a profile directory, only the port flag qualifies a process |
| Chrome.PortFlagAppendDigit | utility_functions.py:103 | the flag of a longer port extends the flag of its prefix |
| Chrome.PortFlagMatchesLongerPort | utility_functions.py:103 | a Chrome started with port `10*p+d` also qualifies for port `p` |
| Chrome.Existing | utility_functions.py:120-125 | exactly the listed pids that still exist |
| Chrome.Terminations | utility_functions.py:126-130 | `terminate()` on every process, in order |
| Chrome.Kills | utility_functions.py:131-136 | `kill()` exactly on the existing processes that survive the grace period (membership only; the order of `alive` is not fixed) |
| Chrome.KillPids | utility_functions.py:117-136 | an empty list sends nothing; otherwise the signals are `KillSignals` |
| Chrome.KillPidsSignals | utility_functions.py:117-136 | only listed existing pids are signalled, each existing one is terminated, and none is killed before it was terminated |
| Chrome.LaunchCommand | utility_functions.py:201-211 | the executable, then the port, profile and allow-origins flags, the two `--no-*` flags, and the extra arguments in order |
| Chrome.LaunchedChromeIsFound | utility_functions.py:201-207 | a Chrome started with the launch command is found again by the pid filter, by port and by profile |
| Chrome.LastError | utility_functions.py:248-249 | none exactly when no probe raised; otherwise the error of the last probe that raised, every later probe having answered |
| Chrome.AwaitDevtools | utility_functions.py:240-252 | True exactly when some probe answered; otherwise the last probe error |
| Chrome.LaunchAndWait | utility_functions.py:195-257 | steps 3 and 4 yield `LaunchOutcome` |
| Chrome.EnsureCdpChromeRunning | utility_functions.py:139-257 | the step-by-step diagnostics, signals and launch are those of `Ensure` |
| Chrome.LaunchOutcomeReportsError | utility_functions.py:195-257 | after the launch step the error is set exactly when ok is not |
| Chrome.EnsureReportsEndpointAndError | utility_functions.py:159-257 | the endpoint is always `http://127.0.0.1:<port>`, and the error is set exactly when ok is not |
| Chrome.EnsureWhenAlreadyUp | utility_functions.py:174-179 | DevTools already up: ok, nothing launched or killed, and the lowest pid of ours reported when there is one |
| Chrome.EnsureWhenPortBusy | utility_functions.py:182-192 | busy port: the non-CDP error without pids of ours, the busy error without the kill flag, otherwise our pids killed and recorded |
| Chrome.LaunchOutcomeKeepsKilled | utility_functions.py:195-257 | the launch step keeps the list of killed pids |
| Chrome.EnsureLaunch | utility_functions.py:195-237 | no executable: error and no launch; otherwise the launch command from the chosen path; launched and pid set exactly when the spawn succeeds |
| Chrome.LaunchOutcomeLaunches | utility_functions.py:195-237 | the same, for the launch step on its own |
| Chrome.EnsureOkOnlyAfterProbe | utility_functions.py:174-257 | ok exactly after a successful probe, the first one or one after a launch; a launch that never comes up reports the timeout error |
| Chrome.LaunchOutcomeOkAfterProbe | utility_functions.py:243-257 | after the launch step, ok means the launched Chrome answered a probe |
| Troops.TroopKeys | send_troops.py:14 | the keys are written "t1" to "t11" |
| Troops.TroopKeyNames | send_troops.py:14 | the i-th key is `'t' + str(i)` |
| Troops.TroopsExactly | send_troops.py:14 | `TROOPS` has exactly the keys t1 to t11, each with 0 |
| Troops.AsMap | send_troops.py:61 | a dict built from pairs has exactly the keys that occur |
| Troops.AsMapLastWins | send_troops.py:92 | a key maps to the value of its last pair |
| Troops.DictRepr | send_troops.py:113 | `str(dict)` is wrapped in braces |
| Troops.DictReprPairs | send_troops.py:113 | a two-entry dict prints as `{k1: v1, k2: v2}`, keys through `repr`, entries joined by `, ` |
| Troops.ReplaceAll | send_troops.py:83 | a replacement of equal length keeps the length |
| Troops.ReplaceAllAbsent | send_troops.py:83 | text without the pattern is unchanged |
| Troops.ReplaceAllBefore | send_troops.py:83 | text before the first occurrence is unchanged |
| Troops.OverviewUrl | send_troops.py:83 | a URL with one "tt=2" gets "tt=1" in its place and is otherwise kept |
| Troops.Zip | send_troops.py:92 | pairs up to the shorter list, position by position |
| Troops.ZipDropsSurplus | send_troops.py:92 | the surplus of the longer list plays no part |
| Troops.TroopsTable | send_troops.py:92 | a unit name is a key exactly when paired, with the amount of its last pairing |
| Troops.TroopsAvailable | send_troops.py:120-123 | `{'t4': '20'}` exactly when the Thunder count parses and is at least 20, None when it is lower, otherwise the TypeError, KeyError or ValueError raised |
| Troops.PostDataPrecedence | send_troops.py:61-68 | each first-POST field comes from the last source that sets it: s1 and dname, then type, coords, the troops to send, `TROOPS`, and the hidden inputs |
| Troops.TroopKeyStartsWithT | send_troops.py:14 | every key of `TROOPS` starts with "t" |
| Troops.PostSendsTwentyThunders | send_troops.py:61-68 | with enough Thunders the POST asks for 20 t4 and 0 of every other unit, with attack type 4 |
| Troops.RewrittenLines | send_troops.py:112-116 | the line count is kept; a line holding the key becomes the record, the others are copied |
| Troops.RewriteIdempotent | send_troops.py:112-116 | rewriting a second time changes nothing |
| Troops.TroopsOrder.constructor | send_troops.py:20-26 | the order keeps its own URL, coordinates and time, no troops yet, and a copy of `ATTACK_TYPE` |
| Troops.TroopsOrder.ParseTroopsAmount | send_troops.py:81-93 | fetches the barracks URL with "tt=2" replaced by "tt=1" and stores the names paired with the amounts; AttributeError without a URL |
| Troops.TroopsOrder.SendTroops | send_troops.py:54-79 | the first POST is `PostData` with the available troops and the confirming POST is `ConfirmData`; the availability error, or TypeError when too few Thunders, stops it before the next-raid time changes |
| Troops.TroopsOrder.SaveNextRaidTime | send_troops.py:107-118 | the new file is `RewrittenLines` of the old one, with the same number of lines |
| Buildings.LeadingWord | building/parse_town_buildings.py:33 | the longest prefix of word characters |
| Buildings.AreaKey | building/parse_town_buildings.py:32-33 | the leading word of `alt`; TypeError without `alt`, AttributeError when no word leads it |
| Buildings.ParseBuildings | building/parse_town_buildings.py:25-37 | the loop yields `BuildingLinks` |
| Buildings.BuildingLinksErrorSticks | building/parse_town_buildings.py:31-35 | an error on an earlier area is the error of the whole page |
| Buildings.BuildingLinksFails | building/parse_town_buildings.py:31-35 | the map fails exactly when some area has no key, and then with the first such area's error |
| Buildings.BuildingLinksLastWins | building/parse_town_buildings.py:35 | a key maps to the link of the last area with that key |
| Buildings.BuildingLinksKeys | building/parse_town_buildings.py:33-35 | every key comes from some area |
| Buildings.DuplicateNameKeepsLastLink | building/parse_town_buildings.py:33-35 | two areas with the same leading word keep the second link |
| Buildings.LeadingWordStops | building/parse_town_buildings.py:33 | the leading word ends at the first non-word character |
| Buildings.LocationToBuild | building/parse_town_buildings.py:39-51 | IndexError on an empty queue, the map's error, KeyError when the head is no key, otherwise `SERVER_URL + link` |
| Buildings.LocationOfHead | building/parse_town_buildings.py:40-45 | the head is built on the page of the last area named after it |
| Buildings.Successes | building/parse_town_buildings.py:20 | at most one success per attempt |
| Buildings.DrainRemovesHeads | building/parse_town_buildings.py:17-23 | each success removes exactly the head, and the attempts stop early only on an empty queue |
| Buildings.DrainEmpties | building/parse_town_buildings.py:17-23 | as many successes as queued buildings empty the queue |
| Buildings.DrainFailuresKeep | building/parse_town_buildings.py:20-23 | failed attempts leave the queue unchanged |
| Buildings.UpgradeBuilding.constructor | building/parse_town_buildings.py:11-13 | the object keeps its own copy of the queue |
| Buildings.UpgradeBuilding.Run | building/parse_town_buildings.py:15-23 | the queue and the number of attempts are those of `Drain` |
| Buildings.UpgradeBuilding.SetParserLocationToBuild | building/parse_town_buildings.py:39-51 | the result is `LocationToBuild`, the queue is never changed, and the location is set only on success |
| Wildcard.FirstMatch | wildcard.py:25-27 | None exactly when no title contains the text, ignoring case; otherwise the handle of a matching window |
| Wildcard.FindsTitleContainingPart | wildcard.py:25-27 | a window whose title has the text written into it is found unless an earlier title matches |
| Wildcard.FirstMatchAt | wildcard.py:25-27 | the first matching window in list order is the one reported |
| Wildcard.FirstMatchIgnoresCase | wildcard.py:26 | lower- or upper-casing the text searched for changes nothing |
| Wildcard.EmptyTextFindsFirstWindow | wildcard.py:26 | the empty text matches the first window |
| Wildcard.WindowRegistry.constructor | wildcard.py:13 | the list starts empty |
| Wildcard.WindowRegistry.WindowsCallback | wildcard.py:15-16 | appends exactly one (hwnd, title) pair |
| Wildcard.WindowRegistry.RefreshWindowTitles | wildcard.py:18-21 | the list is emptied in place and then holds exactly the enumerated windows, in order, and is returned |
| Wildcard.WindowRegistry.FindWindow | wildcard.py:23-27 | refreshes the list and returns `FirstMatch` of the enumerated windows |

## Left out

- Network and transport are parameters. `requests.get` of the target list is a parameter, and `create_connection` becomes `new Socket(url, script)` over scripted frames. JSON (de)serialisation is left out: a frame arrives already decoded.
- `time.time()` deadlines become receive budgets or sample counts, and `time.sleep` is dropped. The `settimeout` arithmetic of `_cdp_call` (gather_utils.py:61) is not modelled.
- Floating point is left out. Box-model coordinates and the centroid are Dafny `real`.
- Several `str` conversions of floats are passed in as text: `str(time_of_next_raid)` is `timeText` and `timeout_secs` as printed is `timeoutText`.
- `is_loader_visible` and `_eval` (remote JavaScript) are oracles: the loader samples.
- Oracles stand in for `_devtools_ok`, `_port_in_use`, `find_chrome_executable`, `os.path.exists`, `subprocess.Popen`, psutil's process table and `wait_procs`, and `win32gui.EnumWindows`/`GetWindowText`.
  - The process table is a single snapshot.
  - `os.makedirs`, the Windows start-up flags and `os.rename`/`open` of the raids file are left out.
- The default profile directory is joined with the POSIX separator.
- BeautifulSoup and the regex engine are left out. The models take already-parsed elements, and the patterns `gid-(\d+)`, `^\d{7}$`, `\b(\d{4})\b` and `^\w+` are written out as predicates.
- `upper`, `lower`, `\w` and `\d` are modelled for ASCII text only; Python's Unicode case mapping and character classes are not.
- `Common.IsSpace`: only the ASCII whitespace of `str.isspace()` (tab to carriage return, U+001C to U+001F, space) is whitespace for `strip()` and `int()`; U+0085, U+00A0, U+2000 to U+200A and the other non-ASCII spaces are kept.
- `Common.PyInt`: the non-ASCII decimal digits `int()` accepts (Arabic-Indic, full-width and others) are not digits here.
- `Common.Repr`: the characters from U+0100 on that Python does not print (other control and format characters, separators, unassigned code points) are kept as they are, not escaped as `\uXXXX` or `\UXXXXXXXX`.
- `Dates.ConvertDateSlashToDash`: a string whose year field is four digits followed by more text (for example "01/09/20255") gets the pattern's message here, while `strptime` says "unconverted data remains".
- `Cdp.RemoteErrorMessage`: the RuntimeError of an error reply (gather_utils.py:71-72) is "CDP error for <method>" here. The `: <error payload>` suffix, a Python rendering of the reply's error dict, is left out, since a frame carries only whether it holds an error.
- `Chrome.KillPids`: only `NoSuchProcess` is caught in the source (utility_functions.py:121-136). `AccessDenied` from `Process`, `terminate` or `kill` propagates there, but the model has no such error: every process it sees may be signalled.
- `Chrome.KillPids`: the kills follow the order of `procs`. psutil's `wait_procs` returns `alive` in no fixed order.
- `Dates.Year4`: `%Y` printing pads to four digits. `%b` is the C-locale abbreviation. The `strptime` fields are `%d`, `%m` and `%Y`.
- `Shaping.SortByKeySorted`: proved sorted and a permutation. The stability of Python's sort is not proved.
- `Shaping.TableRowsFields`: `get_text(strip=True)` is the parser's job; cells arrive as their texts.
- `PageInput.BoxContent`: the frames the scroll call consumes are not described. The contract names the box-model reply by its place in the browser's script, not by what is left after scrolling. `MeasureBox` states the latter.
- `PageInput.SetDatesAndRun`: the `print` at gather_utils.py:399 is left out. The `ws.close()` error swallowed at 403-406 is left out as well, since closing never fails in the model.
- `PageInput.RunSteps`: `SliceCentroid` reads every number of `content` (gather_utils.py:386-387). On more than eight numbers it differs from the quad centroid, as `SliceCentroidReadsPastQuad` shows.
- Anything other than a list of numbers in `content` is the TypeError of `Numbers`.
- `PageInput.Numbers`: `click_element` adds only the first eight entries of `content` (gather_utils.py:120-121). A non-number after the eighth raises nothing there, but the model's `Numbers` raises TypeError for it all the same.
- `get_flight_details_url` and `get_flight_details` are not part of this model, as they are a URL template and a one-off page scrape.
- `TroopsOrder.__call__` (send_troops.py:28-52) is left out: it is an async recursion with sleeps.
  - `parse_time_of_next_raid` (send_troops.py:95-105) reads the clock, so it is left out too. What it computes enters `SendTroops` as the parameter `nextRaid`.
  - The HTTP session of `TroopsOrder` is left out.
- `Troops.TroopsOrder.constructor`:
  - requires coordinates with distinct keys, the dict `dict(coords)` builds;
  - does not model `coords=None`, on which `dict(None)` raises TypeError.
- `Troops.HiddenData`: an `<input>` without `name` or `value` (a KeyError) is not modelled.
- The `Builder` superclass of `UpgradeBuilding` is not part of this model.
  - Its build attempt is an outcome per attempt.
  - Its page fetch and `session` are left out. The location parser is the URL it would fetch.
  - `__call__`'s unbounded recursion is bounded by the number of outcomes given.
- `Chrome.PortFlagMatchesLongerPort`: the filter looks for the port flag as a substring. A Chrome on port 92220 therefore also counts as "ours" for port 9222. The model keeps that behaviour.
- `Chrome.Diag`: the "error" entry holds a `Failure`, and `Message` renders its exact text. An exception's text is its `msg`.

## Findings

| source | as written | input that shows it | evidently intended | confidence | as-written member | corrected member |
|---|---|---|---|---|---|---|
| gather_utils.py:117-126 | `click_element` passes `timeout_s=2.0`/`1.0` to `_cdp_call`, whose keyword is `timeout` (gather_utils.py:52). Every run that finds the element ends in TypeError at the scroll call, and no mouse event is sent. | any page target whose selector query returns a truthy nodeId | the per-call timeouts, so the element is clicked `click_count` times at its centre | high; not executed | PageInput.ClickElementAsWritten | PageInput.ClickElement |
| gather_utils.py:179, 30 | `_GID_RE` is rebound at module level to `^\d{7}$`, which has no group. `extract_build_items` reads it at call time: an id like "gid-19" is skipped, and a seven-digit id raises IndexError at `m.group(1)`. The result is never a non-empty list. | one column with one item of id "gid-19" | the `gid-(\d+)` pattern of gather_utils.py:8, giving gid 19 | high; not executed | Shaping.ExtractBuildItemsAsWritten | Shaping.ExtractBuildItems |

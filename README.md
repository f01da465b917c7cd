# Session setup helper of a mobile end-to-end test suite, in Dafny

The test suite drives mobile apps on hosted devices through a WebDriver session. Its one
piece of logic is the helper module `test/helpers/driver.js`. This project models that
module and proves what it promises:

- **Capability resolution** (`createDriver`, first half). The parsed `browserstack.yml`
  catalog, the requested platform name and the two credential variables are inputs. The
  helper finds the first profile whose `platformName` is strictly equal to the request
  (`Array.prototype.find`), or fails with `Platform '<type>' not found in browserstack.yml`.
  Otherwise it builds the capability object. It copies the profile's fields, copies the two
  catalog labels and the credentials, names the session `<platform> Test Session`, and
  picks `UiAutomator2` for `android` and `XCUITest` for every other platform. The keys
  follow the extension-capability naming of the W3C WebDriver recommendation, section 7
  (`appium:…`, `bstack:…`).
- **Console screening and restore** (`createDriver`, second half). `console.log` and
  `console.info` are replaced by wrappers. A wrapper joins its arguments with single spaces
  and forwards the call only when the text contains none of `BROWSERSTACK`, `accessKey` and
  `userName`, compared case-sensitively. The remote session is then requested, and a
  `finally` block puts `log`, `info` and `error` back whether the request succeeded or
  failed. The console is a class (`ConsoleChannel.Console`) whose fields are the three
  current methods and the lines written so far. A method is a `Sink`: a stream, or a
  screening wrapper around the method it replaced. The remote library is a parameter: any
  function from the request options to the console calls it makes while connecting and
  its outcome (a session id or an error). Quantifying over that function covers every
  success and every failure.
- **Interaction wrappers** (`waitForElement`, `safeClick`, `safeType`, `getText`,
  `elementExists`). The remote app is an abstract oracle (`Interaction.App`). Its answer to
  each command may depend on every command issued before, and any answer may be a failure.
  A `Driver` object records the commands issued. Each wrapper is a method proved against a
  specification function (`WaitRun`, `ClickRun`, `TypeRun`, `TextRun`, `ExistsProbe`).
  Lemmas about those functions state the control shape: wait first, propagate the wait's
  failure, clear before set, never wait or throw in `elementExists`. The default timeout
  is 10000 (`Interaction.DefaultTimeout`). `getText` is `Interaction.ReadText`, because
  `GetText` names the command it sends.

Modules: `Wrappers` (Option/Result/Outcome), `Capabilities`, `LogFilter`,
`ConsoleChannel`, `Session` (`createDriver`) and `Interaction`.

What the code does, stated where it is easy to assume otherwise:

- An unset credential variable is copied as absent (`None`; `undefined` in the code),
  not as an empty string.
- Only `console.log` and `console.info` are screened. `console.error` is saved and
  restored but never wrapped, so an error line carrying a marker is written during the
  request (`Session.ErrorChannelNotScreened`).
- The override hides calls that contain the marker words, not calls that contain the
  credential values. A `console.log` call during the request whose text is the raw access
  key, with none of `BROWSERSTACK`, `accessKey` or `userName` in it, reaches standard
  output (`Session.AccessKeyValueNotScreened`).
- There is no counting guard around the override. When two `createDriver` calls overlap
  and the earlier request settles first (save A, save B, restore A, restore B),
  `console.log` and `console.info` stay screened for good
  (`Session.OverlappingCreateDrivers`). When the later request settles first (save A,
  save B, restore B, restore A), the originals come back (`Session.NestedCreateDrivers`).
- There is no session state machine (unopened, open, closed) and no "session not open"
  error. The wrappers send their commands on whatever driver they are given.

## Model

| member | source | states |
|---|---|---|
| `Capabilities.FirstMatch` | test/helpers/driver.js:24 | The index found is the first entry whose `platformName` equals the request; there is none exactly when no entry matches |
| `Capabilities.FirstProfileWins` | test/helpers/driver.js:24 | When several profiles match, the fields copied are those of the earliest matching one |
| `Capabilities.LaterEntriesIgnored` | test/helpers/driver.js:24 | Entries appended after a matching profile never change which profile is found |
| `Capabilities.AutomationName` | test/helpers/driver.js:35 | The engine is `UiAutomator2` exactly when the platform is `android`, and `XCUITest` exactly otherwise |
| `Capabilities.Resolve` | test/helpers/driver.js:20-43 | Fails exactly when no profile matches, with the message `Platform '<type>' not found in browserstack.yml`; otherwise every field is copied from the first matching profile, the catalog labels and the credentials, the session name is `<type> Test Session`, and the engine follows the android rule |
| `Capabilities.Object` | test/helpers/driver.js:30-43 | The object built has exactly the keys `platformName`, `appium:deviceName`, `appium:platformVersion`, `appium:app`, `appium:automationName`, `bstack:options`, in that order, and `bstack:options` holds the rendered vendor options |
| `Capabilities.Lookup` | test/helpers/driver.js:30-43 | A property lookup finds nothing exactly when no property has the key, and otherwise a value stored under that key |
| `Capabilities.Copied` | test/helpers/driver.js:32-34 | A copied field is a string exactly when the catalog or environment had one, and then that string; otherwise `undefined` |
| `Capabilities.LookupFirst` | test/helpers/driver.js:30-43 | A key that no earlier property carries is found with its own value |
| `Capabilities.ObjectFields` | test/helpers/driver.js:30-35 | `platformName` holds the platform name and `appium:automationName` the chosen engine |
| `Capabilities.ObjectCopiedFields` | test/helpers/driver.js:32-34 | `appium:deviceName`, `appium:platformVersion` and `appium:app` hold the entry's values, or `undefined` when missing |
| `Capabilities.VendorObject` | test/helpers/driver.js:36-42 | The `bstack:options` object has exactly the keys `projectName`, `buildName`, `sessionName`, `userName`, `accessKey`, in that order |
| `Capabilities.VendorFields` | test/helpers/driver.js:36-42 | The `bstack:options` object holds the two catalog labels, the session name and the two credentials as copied |
| `Capabilities.ObjectKeysWellFormed` | test/helpers/driver.js:30-43 | Every key of the object built is a W3C standard capability name or a vendor-prefixed extension name; all keys but `platformName` are extension names |
| `Capabilities.ResolvedObjectEngine` | test/helpers/driver.js:35 | For a resolved request, the object's `appium:automationName` is `UiAutomator2` exactly when the platform is `android`, `XCUITest` otherwise |
| `LogFilter.IncludesIff` | test/helpers/driver.js:52 | `includes` holds exactly when the marker occurs at some index of the text (both directions) |
| `LogFilter.ArgumentInJoin` | test/helpers/driver.js:51 | Every argument appears whole in the space-joined message |
| `LogFilter.Forwards` | test/helpers/driver.js:50-61 | A call is forwarded exactly when none of the three markers occurs in the space-joined message |
| `LogFilter.MarkerInArgumentDrops` | test/helpers/driver.js:50-61 | A marker inside any one argument drops the whole call |
| `LogFilter.MissingCharacterExcludes` | test/helpers/driver.js:52 | A text lacking any character of a marker does not include it |
| `LogFilter.LowerCaseSpellingsPass` | test/helpers/driver.js:52 | The comparison is case-sensitive: a message without the markers' upper-case letters is forwarded |
| `ConsoleChannel.Deliver` | test/helpers/driver.js:50-61 | A plain stream writes the call unchanged; a screening wrapper writes it through its inner method exactly when the filter forwards it, and writes nothing otherwise |
| `ConsoleChannel.ScreenedReplayClean` | test/helpers/driver.js:50-61 | While `log` and `info` are screened, no call forwarded through them has a marker in its space-joined arguments, and every line written comes from a call made |
| `ConsoleChannel.UnscreenedReplayComplete` | test/helpers/driver.js:74-79 | Once the original methods are back, every call is written, in order, with its arguments unchanged |
| `ConsoleChannel.Console.Write` | test/helpers/driver.js:50-61 | A console call appends what the channel's current method delivers and changes nothing else |
| `ConsoleChannel.Console.WriteAll` | test/helpers/driver.js:63-71 | The calls made during the request append exactly their replay under the current methods |
| `Session.Request` | test/helpers/driver.js:64-71 | The request carries the resolved capabilities, over https to `hub.browserstack.com` on port 443 |
| `Session.Install` | test/helpers/driver.js:46-61 | The three methods are saved; `log` and `info` become screening wrappers around the saved ones; `error` is untouched |
| `Session.Restore` | test/helpers/driver.js:74-79 | All three saved methods are put back |
| `Session.CreateDriver` | test/helpers/driver.js:20-80 | The console methods are afterwards what they were before, on success and on failure. An unknown platform fails with the not-found message and writes nothing. Otherwise the result is the remote outcome, and the output is the remote's calls screened on `log`/`info` |
| `Session.ConnectionOutputScreened` | test/helpers/driver.js:50-71 | No call forwarded through `log` or `info` during the request has a marker in its space-joined arguments |
| `Session.AccessKeyValueNotScreened` | test/helpers/driver.js:50-55 | A `console.log` call whose text is a credential value without the marker words' upper-case letters reaches standard output during the request |
| `Session.ErrorChannelNotScreened` | test/helpers/driver.js:46-61 | A `console.error` call during the request reaches its stream unfiltered |
| `Session.OverlappingCreateDrivers` | test/helpers/driver.js:46-79 | Two overlapping save/override/restore sequences in which the earlier one restores first leave `log` and `info` screened for good |
| `Session.NestedCreateDrivers` | test/helpers/driver.js:46-79 | Two overlapping save/override/restore sequences in which the later one restores first bring back the original `log`, `info` and `error` |
| `Interaction.Driver.Locate` | test/helpers/driver.js:86 | `driver.$` records the command and answers as the app does for the history so far |
| `Interaction.Driver.Settle` | test/helpers/driver.js:87 | `waitForDisplayed`/`click`/`clearValue`/`setValue` record the command and settle as the app does |
| `Interaction.Driver.Text` | test/helpers/driver.js:113 | `getText` on an element records the command and answers as the app does |
| `Interaction.Driver.Displayed` | test/helpers/driver.js:122 | `isDisplayed` records the command and answers as the app does |
| `Interaction.WaitForElement` | test/helpers/driver.js:85-89 | Result and commands issued are those of `WaitRun` (locate, then wait with the timeout, default 10000) |
| `Interaction.WaitResolvesWithLocated` | test/helpers/driver.js:85-89 | The wait resolves exactly when locating and waiting both succeed, and then with the located element |
| `Interaction.SafeClick` | test/helpers/driver.js:94-97 | Result and commands issued are those of `ClickRun` |
| `Interaction.ClickWaitsFirst` | test/helpers/driver.js:94-97 | The click is issued only after a successful wait, on the element it found; a wait failure propagates unchanged and nothing more is issued |
| `Interaction.SafeType` | test/helpers/driver.js:102-106 | Result and commands issued are those of `TypeRun` |
| `Interaction.TypeWaitsAndClearsFirst` | test/helpers/driver.js:102-106 | Clearing starts only after a successful wait and a wait failure propagates; every value set immediately follows a clear of the same element; success means the text was set on the waited-for element |
| `Interaction.ReadText` | test/helpers/driver.js:111-114 | Result and commands issued are those of `TextRun` |
| `Interaction.TextWaitsFirst` | test/helpers/driver.js:111-114 | The text is read only after a successful wait; a wait failure propagates unchanged |
| `Interaction.ElementExists` | test/helpers/driver.js:119-126 | Answer and commands issued are those of `ExistsProbe`; it returns a boolean on every path |
| `Interaction.ExistsNeverWaits` | test/helpers/driver.js:119-126 | Never waits; answers `true` exactly when the element was located and `isDisplayed` answered `true`; every failure answers `false` |
| `Interaction.ExistsIdempotent` | test/helpers/driver.js:119-126 | With an app whose answers do not change, asking again gives the same answer |

## Left out

- Reading and parsing `browserstack.yml` and loading `.env` (test/helpers/driver.js:1-14). These are file and environment I/O, so the parsed catalog and the two credential values are inputs. A catalog without a `platforms` list is not modelled.
- YAML scalars are taken as their text. A numeric `platformVersion` is copied verbatim in the source, and the model copies its text.
- The `webdriverio` `remote` call and its HTTPS connection (test/helpers/driver.js:64-71). This is network I/O in a library outside the repository. It is an arbitrary function from the request to the console calls it makes and its outcome.
- The console wrappers receive arguments that are already strings. JavaScript's conversion of non-string arguments in `join` is not modelled.
- The interleaving of `createDriver` with other asynchronous code at its `await` is shown only by `Session.OverlappingCreateDrivers` and `Session.NestedCreateDrivers`. No scheduler is modelled.
- `Console.written` records the arguments of each call that reached a stream, not the text Node prints. Node formats the arguments with `util.format`, so a format directive can print a marker that the joined arguments lack. For example, `console.log('userN%sme', 'a')` joins to `userN%sme a`, passes the filter, and prints `userName`. The screening properties are about the joined arguments only.
- Output the remote library produces by other routes is not modelled. That covers `console.warn`, `console.debug` and `console.trace`, references to `console.log` captured before the override, and direct writes to the process streams. None of these pass through the wrappers in the source either.
- `Capabilities.Object` is the object literal as written, with `undefined` for missing values. Its JSON serialization on the wire, which drops `undefined` properties, is not modelled.
- Element location, visibility polling, taps and text entry (test/helpers/driver.js:86-87, 96, 104-105, 113, 122). These are remote operations; the app oracle answers them. The wall-clock meaning of the timeout is not modelled, only its value.
- The three test scenarios under test/specs/. They are linear call sequences against live apps, with no logic of their own. The same goes for their password-mask check, which depends on the app's rendering.

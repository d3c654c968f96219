# CNC control session state — a Dafny model

This project models the client-side session state of a desktop controller for
a GRBL-HAL CNC machine, together with the line framing, port naming and tool
lookup of its Rust library:

- **Machine-state badge** (`MachineStateDisplay`): a case-insensitive substring
  classifier that maps the controller's status token to one of five display
  classes (idle, run/jog, hold, alarm/error, disconnected) in a fixed order of
  precedence, the label shown for a token, and the one-field holder that a
  status fetch writes into.
- **Port registry** (`PortRegistry`) and **port picker** (`PortSelect`): the list
  of serial ports last fetched, the loading flag, the last error and the
  selection; the refresh with its success and failure paths; the derived
  display text; and the picker's reconciliation of the selection after a
  refresh (keep it if still listed, else take the first port).
- **Coordinates panel** (`CoordinatesPanel`): six registers (work and machine
  X/Y/Z, work Z starting at 25); zeroing writes work registers only; "go to"
  changes nothing.
- **Job-file panel** (`FileLoad`, with `FileCommand` and `FileInformation`): the
  loaded file's name, path, size and bounds, the selected history entry, the
  view mode, and the recent-files history, unique by path and capped at ten
  with the oldest evicted first. Loading always shows one fixed job file,
  modelled literally; the history update is also a pure function over any
  path, so its properties are proved for all inputs.
- **Serial line framing** (`GrblPort`): `read_line` over an abstract sequence of
  single-byte read results (drop every carriage return, stop at a newline or
  end of stream, a timeout becomes `Timeout(d)`), `send_line` (the line then
  CR LF), the read-timeout default of one day, the port titles built by
  `list_ports`, and the default baud rate `DefaultBaud` = 115200.
- **Tool lookup** (`Profiles`): first match by tool number, the PROVerXL 4030
  profile and the default steps per millimetre.

Backend calls (mode check, port listing, status fetch) are asynchronous in the
program; here each is one atomic step whose outcome, a value or a failure
message, is a parameter of the method. `Wrappers` holds `Option` and `Result`;
`Search` holds the first-match search that both `Array.prototype.find`/`some`
and Rust's `Iterator::find` are modelled by.

The model follows what the code does, also where its own comments or a
natural reading of the interface suggest otherwise:
- `read_line`'s doc comment (src/machines/grbl/port.rs:100) says it strips a
  trailing `\r`/`\n`, but the loop (lines 111-116) drops every carriage
  return wherever it stands and stops at the first newline; `Payload`,
  `PayloadOfEcho` and `FramedHasNoLineBreaks` state the code's behaviour;
- no operation copies a fetched status into the coordinate registers; the
  panel's registers change only by zeroing;
- the port error is cleared at the start of every refresh, not only by a
  successful one;
- loading a path already in the history leaves the history exactly as it was
  (no move to the end);
- the status is fetched once, and only when the mode check answers true.

`DefaultBaud` is `DEFAULT_BAUD`, 115200 (src/machines/grbl/port.rs:28); it is
a constant, which `Open` takes as its `baud` argument when a caller opens at
the default rate.

## Model

| member | source | states |
|---|---|---|
| `MachineStateDisplay.Lower` | angular-ui/src/app/components/machine-state-display/machine-state-display.component.ts:58 | lower-casing keeps the length and lower-cases each letter in place |
| `MachineStateDisplay.ContainsAt` | angular-ui/src/app/components/machine-state-display/machine-state-display.component.ts:59-62 | `includes(t)` holds exactly when some window of the token equals `t` |
| `MachineStateDisplay.CssClass` | angular-ui/src/app/components/machine-state-display/machine-state-display.component.ts:57-64 | every class name the badge renders begins with "state-" |
| `MachineStateDisplay.CssClassInjective` | angular-ui/src/app/components/machine-state-display/machine-state-display.component.ts:59-63 | the five display classes render under five different class names |
| `MachineStateDisplay.Classify` | angular-ui/src/app/components/machine-state-display/machine-state-display.component.ts:57-64 | any class other than disconnected is chosen only when one of its keywords occurs in the token, ignoring case |
| `MachineStateDisplay.ClassifyIsFirstMatch` | angular-ui/src/app/components/machine-state-display/machine-state-display.component.ts:57-64 | the class is the matching class of least precedence rank (idle, run/jog, hold, alarm/error); disconnected exactly when no keyword occurs |
| `MachineStateDisplay.ClassifyIgnoresCase` | angular-ui/src/app/components/machine-state-display/machine-state-display.component.ts:58 | two tokens that differ only in letter case get the same class |
| `MachineStateDisplay.ClassifyLowered` | angular-ui/src/app/components/machine-state-display/machine-state-display.component.ts:58 | classifying the lower-cased token gives the same class as the token |
| `MachineStateDisplay.ClassifyIdlePrefix` | angular-ui/src/app/components/machine-state-display/machine-state-display.component.ts:59 | a token beginning with "idle" in any case is idle, whatever follows |
| `MachineStateDisplay.ClassifyRunPrefix` | angular-ui/src/app/components/machine-state-display/machine-state-display.component.ts:60 | a token beginning with "run" or "jog" in any case and without the letter i is run |
| `MachineStateDisplay.ClassifyExamples` | angular-ui/src/app/components/machine-state-display/machine-state-display.component.ts:57-64 | "Idle" and "IDLE" are idle, "Run" and "Jog" are run, "" is disconnected |
| `MachineStateDisplay.ClassifyHoldExample` | angular-ui/src/app/components/machine-state-display/machine-state-display.component.ts:61 | "Hold:0" is hold |
| `MachineStateDisplay.ClassifyAlarmExample` | angular-ui/src/app/components/machine-state-display/machine-state-display.component.ts:62 | "Alarm:1" is alarm |
| `MachineStateDisplay.ClassifyTwoFlagsExample` | angular-ui/src/app/components/machine-state-display/machine-state-display.component.ts:59-62 | a token with both "idle" and "alarm" is idle: idle takes precedence |
| `MachineStateDisplay.EmptyClass` | angular-ui/src/app/components/machine-state-display/machine-state-display.component.ts:58-63 | the empty token is disconnected |
| `MachineStateDisplay.DisconnectedLabelClass` | angular-ui/src/app/components/machine-state-display/machine-state-display.component.ts:53-63 | the initial and fallback token "Disconnected" is itself classified disconnected |
| `MachineStateDisplay.StateLabel` | angular-ui/src/app/components/machine-state-display/machine-state-display.component.ts:55 | the label is the token itself whenever the token is non-empty, and "Disconnected" for the empty token |
| `MachineStateDisplay.LabelClassAgree` | angular-ui/src/app/components/machine-state-display/machine-state-display.component.ts:55-64 | the label shown and the class shown never disagree: the label classifies as the token does |
| `MachineStateDisplay.StateDisplay.constructor` | angular-ui/src/app/components/machine-state-display/machine-state-display.component.ts:53 | the initial state is "Disconnected" |
| `MachineStateDisplay.StateDisplay.Label` | angular-ui/src/app/components/machine-state-display/machine-state-display.component.ts:55 | the badge shows either the stored token or "Disconnected" |
| `MachineStateDisplay.StateDisplay.Class` | angular-ui/src/app/components/machine-state-display/machine-state-display.component.ts:57-64 | the badge's colour is always the class of the label it shows |
| `MachineStateDisplay.StateDisplay.RefreshState` | angular-ui/src/app/components/machine-state-display/machine-state-display.component.ts:76-80 | a fetched status's `state` is stored verbatim; a failed fetch stores "Disconnected", which classifies as disconnected |
| `MachineStateDisplay.StateDisplay.OnInit` | angular-ui/src/app/components/machine-state-display/machine-state-display.component.ts:68-74 | the status is fetched exactly when the mode check succeeds with true; otherwise the state is unchanged |
| `PortRegistry.DisplayOf` | angular-ui/src/app/features/port/port.service.ts:16-19 | nothing when no port is selected; else the title if non-empty, else the name |
| `PortRegistry.PortService.SelectedDisplay` | angular-ui/src/app/features/port/port.service.ts:16-19 | a display text exists exactly when a port is selected, and it is that port's title or name |
| `PortRegistry.DisplayOfListedPort` | angular-ui/src/app/features/port/port.service.ts:16-19 | for a port as the serial library lists it, the display is its full title and begins with its name |
| `PortRegistry.PortService.constructor` | angular-ui/src/app/features/port/port.service.ts:6-9 | empty list, not loading, no error, nothing selected |
| `PortRegistry.PortService.BeginRefresh` | angular-ui/src/app/features/port/port.service.ts:24-27 | while the listing is in flight: no error, empty list, loading, selection untouched |
| `PortRegistry.PortService.CompleteRefresh` | angular-ui/src/app/features/port/port.service.ts:28-39 | on success the returned list (null read as empty) is held and returned; on failure the message is kept and an empty list returned; loading ends on both paths |
| `PortRegistry.PortService.RefreshPorts` | angular-ui/src/app/features/port/port.service.ts:24-40 | afterwards the held list is the returned one, loading is over, the error is set only by a failure of this refresh, and the selection is untouched |
| `PortRegistry.PortService.SetSelected` | angular-ui/src/app/features/port/port.service.ts:42-44 | the selection becomes the argument, none included, with no check against the list; nothing else changes |
| `PortRegistry.PortService.ClearError` | angular-ui/src/app/features/port/port.service.ts:46-48 | the error is cleared; list, loading and selection unchanged |
| `PortSelect.FindPort` | angular-ui/src/app/components/port-select/port-select.component.ts:93 | the first listed port with the given name, none exactly when no port has it |
| `PortSelect.Reconciled` | angular-ui/src/app/components/port-select/port-select.component.ts:79-85 | a still-listed selection is kept; any change is to the list's first port; after a non-empty listing a listed port is selected; an empty listing keeps even a vanished selection |
| `PortSelect.ReconcileIdempotent` | angular-ui/src/app/components/port-select/port-select.component.ts:79-85 | reconciling a second time against the same list changes nothing |
| `PortSelect.PortSelect.constructor` | angular-ui/src/app/components/port-select/port-select.component.ts:76 | the picker is bound to the registry service |
| `PortSelect.PortSelect.OnInit` | angular-ui/src/app/components/port-select/port-select.component.ts:78-86 | refresh, then the selection is the reconciliation of the old one with the returned list |
| `PortSelect.PortSelect.OnPortChange` | angular-ui/src/app/components/port-select/port-select.component.ts:89-95 | an empty value changes nothing; otherwise the selection becomes the first listed port with that name, or none |
| `CoordinatesPanel.Zeroed` | angular-ui/src/app/components/machine-coordinates-panel/machine-coordinates-panel.component.ts:171-175 | zeroing an axis sets its work register to 0 and leaves the other two work registers and all machine registers as they were |
| `CoordinatesPanel.AllZeroed` | angular-ui/src/app/components/machine-coordinates-panel/machine-coordinates-panel.component.ts:177-181 | zeroing all sets every work register to 0 and leaves the machine registers |
| `CoordinatesPanel.ZeroedIdempotent` | angular-ui/src/app/components/machine-coordinates-panel/machine-coordinates-panel.component.ts:171-175 | zeroing an axis twice is zeroing it once |
| `CoordinatesPanel.ZeroedCommutes` | angular-ui/src/app/components/machine-coordinates-panel/machine-coordinates-panel.component.ts:171-175 | zeroing two axes gives the same registers in either order |
| `CoordinatesPanel.AllZeroedIsEachAxis` | angular-ui/src/app/components/machine-coordinates-panel/machine-coordinates-panel.component.ts:171-181 | zeroing all equals zeroing X, then Y, then Z |
| `CoordinatesPanel.CoordinatesPanel.constructor` | angular-ui/src/app/components/machine-coordinates-panel/machine-coordinates-panel.component.ts:164-169 | work X=0, Y=0, Z=25 and machine X=Y=Z=0 |
| `CoordinatesPanel.CoordinatesPanel.ZeroAxis` | angular-ui/src/app/components/machine-coordinates-panel/machine-coordinates-panel.component.ts:171-175 | the registers afterwards are the old ones with that axis zeroed |
| `CoordinatesPanel.CoordinatesPanel.ZeroAll` | angular-ui/src/app/components/machine-coordinates-panel/machine-coordinates-panel.component.ts:177-181 | the registers afterwards are the old ones with every work register zeroed |
| `CoordinatesPanel.CoordinatesPanel.GoTo` | angular-ui/src/app/components/machine-coordinates-panel/machine-coordinates-panel.component.ts:183-185 | no register changes, for every target |
| `FileInformation.ToggleView` | angular-ui/src/app/components/file-information/file-information.component.ts:182-185 | the emitted view is always the other one |
| `FileInformation.ToggleInvolution` | angular-ui/src/app/components/file-information/file-information.component.ts:182-185 | toggling twice returns the original view |
| `FileCommand.OnPreviousSelect` | angular-ui/src/app/components/file-command/file-command.component.ts:88-94 | at most one path is emitted, exactly when the value is non-empty, and it is the value itself |
| `FileLoad.LastN` | angular-ui/src/app/components/file-load/file-load.component.ts:83 | `slice(-n)` keeps the last `n` elements, or all when there are fewer |
| `FileLoad.AddRecent` | angular-ui/src/app/components/file-load/file-load.component.ts:81-84 | afterwards the path is in the history, and a history within capacity stays within capacity |
| `FileLoad.AddRecentKeepsUnique` | angular-ui/src/app/components/file-load/file-load.component.ts:81-84 | a history unique by path stays unique |
| `FileLoad.AddRecentKnownPath` | angular-ui/src/app/components/file-load/file-load.component.ts:82 | a path already present leaves the history unchanged: no duplicate, no reordering |
| `FileLoad.AddRecentAppends` | angular-ui/src/app/components/file-load/file-load.component.ts:82-83 | a new path is appended and the result cut to its last ten entries |
| `FileLoad.AddRecentNewPath` | angular-ui/src/app/components/file-load/file-load.component.ts:82-83 | a new path goes last, the length grows by one up to ten, and the survivors are the newest old entries in order: the oldest are evicted first |
| `FileLoad.AddRecentIdempotent` | angular-ui/src/app/components/file-load/file-load.component.ts:81-84 | loading the same path twice in a row is loading it once |
| `FileLoad.DistinctLoadsKeepNewest` | angular-ui/src/app/components/file-load/file-load.component.ts:81-84 | loading files with distinct paths from an empty history leaves the last ten of them in load order |
| `FileLoad.ElevenDistinctLoads` | angular-ui/src/app/components/file-load/file-load.component.ts:81-84 | after eleven distinct loads the history holds ten entries and the first load is the one evicted |
| `FileLoad.FileLoad.constructor` | angular-ui/src/app/components/file-load/file-load.component.ts:42-48 | all strings empty, no bounds, empty history, view mode size |
| `FileLoad.FileLoad.SetMockFile` | angular-ui/src/app/components/file-load/file-load.component.ts:69-85 | the fixture's name, path, size and bounds are shown, its path selected, and the history updated by the dedup-and-cap rule; the history stays unique and within ten |
| `FileLoad.FileLoad.OnFileCommand` | angular-ui/src/app/components/file-load/file-load.component.ts:50-62 | load shows the fixture; reload does so only when a file name is set and otherwise changes nothing; clear empties name, path, size, bounds and selection but keeps the history; the select-previous action changes nothing |
| `FileLoad.FileLoad.OnPreviousSelected` | angular-ui/src/app/components/file-load/file-load.component.ts:64-67 | the fixture is loaded and the selected path ends as the fixture's path, not the picked one |
| `FileLoad.FileLoad.OnHistoryPick` | angular-ui/src/app/components/file-load/file-load.component.ts:20 | the picker's placeholder changes nothing; any other pick loads the fixture |
| `FileLoad.FileLoad.OnToggleView` | angular-ui/src/app/components/file-load/file-load.component.ts:27-28 | the card's emitted view becomes the view mode, which therefore flips; nothing else changes |
| `Search.FirstIndex` | src/machines/profiles/mod.rs:74 | the index of the first element satisfying the predicate, no earlier element satisfying it |
| `Search.Find` | src/machines/profiles/mod.rs:74 | `find` returns a satisfying element of the sequence, the first one, and none exactly when no element satisfies the predicate |
| `Search.Any` | angular-ui/src/app/components/port-select/port-select.component.ts:81 | `some` holds exactly when an element satisfies the predicate |
| `Profiles.Tool` | src/machines/profiles/mod.rs:73-75 | a found tool has the requested number and is the first such entry; none exactly when no entry has the number |
| `Profiles.ToolAfterPush` | src/machines/profiles/mod.rs:73-75 | after a push, lookup keeps its old answer if it had one, else finds the pushed tool if its number matches |
| `Profiles.PushTool` | src/machines/profiles/mod.rs:94-99 | a push appends the tool and changes nothing else of the profile |
| `Profiles.ProverxlHasNoTools` | src/machines/profiles/mod.rs:63-69 | the PROVerXL 4030 profile has no tools, so every lookup finds nothing |
| `Profiles.Proverxl4030` | src/machines/profiles/mod.rs:63-70 | the profile is named "PROVerXL 4030", uses the default steps and has an empty tool list |
| `Profiles.ToolLookupExample` | src/machines/profiles/mod.rs:93-102 | after pushing tool 1, tool 1 is found and tool 2 is not |
| `Profiles.DefaultStepsPerMm` | src/machines/profiles/mod.rs:32-39 | 80 steps/mm on X, Y and Z and no A axis |
| `GrblPort.Port.constructor` | src/machines/grbl/port.rs:62-74 | the state right after a successful open: the name and line settings given, the 100 ms timeout, nothing written |
| `GrblPort.Open` | src/machines/grbl/port.rs:62-74 | a device that cannot be opened gives `OpenFailed` with the port's name and the reason; otherwise a new port with 8N1 framing at the requested baud rate and the 100 ms timeout |
| `GrblPort.Port.SendLine` | src/machines/grbl/port.rs:78-83 | the bytes written are the line followed by exactly CR LF |
| `GrblPort.Port.SendByte` | src/machines/grbl/port.rs:86-90 | exactly the one byte is written, with no line ending |
| `GrblPort.Port.SetReadTimeout` | src/machines/grbl/port.rs:94-98 | the given timeout, or 86400 seconds when none is given |
| `GrblPort.Port.ReadOne` | src/machines/grbl/port.rs:108 | one read consumes the next read result |
| `GrblPort.Port.ReadLine` | src/machines/grbl/port.rs:103-125 | the result is the framing of the pending read results, and exactly the reads up to the one that ended the line are consumed |
| `GrblPort.Framed` | src/machines/grbl/port.rs:103-125 | a line is returned exactly when a newline or end of stream ends it; `Timeout(t)` exactly when a read times out; any other error is `Io` |
| `GrblPort.PayloadBytes` | src/machines/grbl/port.rs:111-116 | every byte kept is a data byte that was read, and none is a carriage return |
| `GrblPort.PayloadOfEcho` | src/machines/grbl/port.rs:110-116 | the bytes kept from delivered bytes are those bytes with every carriage return removed, in order |
| `GrblPort.FramedHasNoLineBreaks` | src/machines/grbl/port.rs:111-116 | a line read successfully holds no carriage return and no newline, interior ones included |
| `GrblPort.StopAfterEcho` | src/machines/grbl/port.rs:107-113 | the line stops at the first newline, end of stream or failed read |
| `GrblPort.PartialLine` | src/machines/grbl/port.rs:107-121 | end of stream returns the bytes so far; a timeout returns `Timeout` with the given duration and an I/O failure `Io`, both discarding the partial line |
| `GrblPort.ReadSentLine` | src/machines/grbl/port.rs:78-116 | a line without line breaks, as `send_line` frames it, reads back as itself and consumes exactly its framing |
| `GrblPort.Decimal` | src/machines/grbl/port.rs:137-142 | a number prints in canonical decimal: non-empty, digits only, a leading zero only for 0, which prints as "0" |
| `GrblPort.DecimalRoundTrip` | src/machines/grbl/port.rs:137-142 | the printed digits denote the number |
| `GrblPort.TypeSuffix` | src/machines/grbl/port.rs:135-147 | the suffix is empty exactly for an unknown port type, and otherwise is a parenthesised part after a space |
| `GrblPort.Title` | src/machines/grbl/port.rs:135-147 | the title is the port name followed by the suffix for its type |
| `GrblPort.Describe` | src/machines/grbl/port.rs:133-148 | a reported port keeps its name, its title begins with the name, and the title is the bare name exactly for an unknown type |
| `GrblPort.TitleExtendsName` | src/machines/grbl/port.rs:133-148 | the title begins with the port's name, and equals it exactly for an unknown port type |
| `GrblPort.TypeSuffixInjective` | src/machines/grbl/port.rs:135-147 | different port types (USB ids included) give different title suffixes |
| `GrblPort.TitleDeterminesType` | src/machines/grbl/port.rs:133-148 | a title identifies the port type of its port |
| `GrblPort.ListPorts` | src/machines/grbl/port.rs:129-151 | every reported port keeps its name, in order, with its title by port type; a failure of the system listing becomes a `Serial` error |

## Left out

- The serial device itself: the real reads and writes, and `from_utf8_lossy`. The device is a sequence of single-byte read results, and lines are byte strings. `Open` records the 8N1 settings and the baud rate but does not model what they do on the wire, and the reason an open fails is an opaque message.
- Failures of `write_all`, `flush` and `set_timeout`: writes and timeout changes always succeed in the model, so the `?` error paths of `send_line`, `send_byte`, `set_read_timeout` and the first line of `read_line` are not modelled.
- GrblPort.Port.ReadLine: requires that the pending reads contain an event that ends the line. A device that streams bytes forever without a newline would keep the source's loop running forever; the model does not represent that run.
- MachineStateDisplay.Lower: lower-cases only the ASCII letters A to Z. `toLowerCase` maps every Unicode letter; no keyword is affected, but a token whose non-ASCII letters lower-case to keyword letters is not modelled.
- Numbers: coordinates, bounds, work area, steps per millimetre and tool offsets are `real` constants with no arithmetic; floating-point rounding and formatting are not modelled.
- Asynchrony: each backend call is one atomic step; overlapping requests and out-of-order completion are not modelled, and the program has no guard against them either.
- The backend command channel, the Tauri commands and their mock port list, the app shell and header, the plain-JavaScript page, and the GRBL machine task (`src/machines/grbl/machine.rs`: tasks, channels and mutexes) are not part of this model.
- Templates and styles are left out, except the two bindings the job-file panel relies on: the history picker's output and the view toggle's output.
- JSON serialisation of machine profiles.
- Computing a file's real bounds: the program has none; the bounds are the fixture's constants.

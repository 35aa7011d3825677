# ArduinoUno dome driver: a Dafny model of its core

This project models the hardware class of an ASCOM Dome (interface version 3)
driver for a roll-off roof. An Arduino Uno drives the roof over a serial line.
The model covers four things.

- **The status-line parser.** Every line the microcontroller sends is trimmed and
  recorded as the received status. It is then split on `,`, and its whole tokens
  update the roof status (`Open | Closed | Moving | Unknown`), the safety status
  (`Safe | Unsafe | Unknown`) and a private direction flag. The flag records
  whether the roof was last reported open.
- **The shutter-state mapping.** The roof status and the flag give one of the
  five ASCOM shutter states: open, closed, opening, closing, error.
- **The connection-session bookkeeping.** This is the list of connected
  driver-instance IDs kept by `SetConnected`, `Connect` and `Disconnect`. It
  includes the "first client" and "last client" hardware branches and the
  `Connecting` flag.
- **Command gating.** `OpenShutter` and `CloseShutter` throw NotConnected when
  the driver is not connected. They silently refuse unless the safety status is
  `Safe`. Otherwise they write `open#` or `close#` and optimistically report the
  roof as `Moving`. `ReadStatus` writes `get#` only when connected.

The Dafny is split into four modules.

- `Tokens` (tokens.dfy) holds .NET `String.Split(char)`, `String.Join` and
  `String.Trim`, with the exact `Char.IsWhiteSpace` set.
- `Status` (status.dfy) holds the three enumerations, the parse rules and the
  shutter mapping. It also holds a five-state reference model of the reported
  state. On every reachable state the roof-status-plus-flag encoding is proved
  to agree with that reference.
- `Session` (session.dfy) holds the ID list as pure functions. It proves what
  each `SetConnected` call does and which branches any sequence of calls
  takes.
- `Dome` (dome.dfy) holds the class `DomeHardware`. Its fields are the static
  fields of the driver plus the three `SharedResources` properties it assigns.
  Its methods update those fields in place.

The C# keeps `IsConnected` (the field `connectedState`) separate from the list of
connected IDs. Only `InitialiseHardware` sets it, and `SetConnected` never
touches it. The doc comments of `Connect` and `Disconnect`
(DomeDriver/DomeHardware..cs:329-332 and :378-381) say that the first instance
establishes the hardware link and the last one drops it. But the two branches
of `SetConnected` where that would happen are empty, and `IsConnected` does not
follow the list. The model follows the code and keeps the two as separate
fields. The invariant `Valid()` ties `connectedState` only to the serial port having been opened (`runOnce`).

Serial writes are recorded in the field `written`, one entry per `WriteLine`
call, holding the command string. The line that `ReadLine` returns is the
parameter of `DataReceived`. Whether `SerialPort.Open()` succeeds is the
parameter `portOpens` of `InitialiseHardware`. The initial values of the
`SharedResources` properties are taken as `Unknown`, `Unknown` and the empty
string, because the `SharedResources` class is not part of this model.

One consequence of the code shows up in the proofs. The commands set the roof
to `Moving` but leave the direction flag alone. So the report after a command
is "the movement away from the last reported position", whichever command was
given. For example, `CloseShutter` on a closed roof, or on a roof still `Unknown`,
reports opening (`ReferenceMoveAgrees`, `DomeHardware.CloseShutter`). The model
keeps this behaviour.

## Model

| member | source | states |
|---|---|---|
| `Tokens.Split` | DomeDriver/DomeHardware..cs:135 | `Split`, which `Status.Tokenize` applies with `,`: at least one piece comes back, and no piece contains the separator. |
| `Tokens.JoinSplit` | DomeDriver/DomeHardware..cs:135 | Joining the pieces with the separator gives back the line exactly, so splitting loses nothing. |
| `Tokens.SplitJoin` | DomeDriver/DomeHardware..cs:135 | Splitting a join of separator-free tokens gives back those tokens, so the split is the unique such decomposition. |
| `Tokens.TokenFound` | DomeDriver/DomeHardware..cs:135-137 | A comma-free token is found among the pieces of any line made of it and other comma-free tokens, at any position. |
| `Tokens.SplitSingle` | DomeDriver/DomeHardware..cs:135 | A line without a separator is a single token. |
| `Tokens.TrimStart` | DomeDriver/DomeHardware..cs:127 | The result is a suffix of the input with no leading white space, and everything dropped is white space. |
| `Tokens.TrimEnd` | DomeDriver/DomeHardware..cs:127 | The result is a prefix of the input with no trailing white space, and everything dropped is white space. |
| `Tokens.Trim` | DomeDriver/DomeHardware..cs:127 | The trimmed line neither starts nor ends with white space and is no longer than the input. |
| `Tokens.TrimExact` | DomeDriver/DomeHardware..cs:127 | Trimming `w1 + m + w2` gives back exactly `m`, case and inner spaces kept, when `w1` and `w2` are all white space and `m` has no white-space margins. |
| `Tokens.TrimIdempotent` | DomeDriver/DomeHardware..cs:127 | Trimming twice is the same as trimming once. |
| `Status.ShutterRules` | DomeDriver/DomeHardware..cs:137-152 | `ShutterAfter`, the shutter rules over a token list: `opened` gives Open with the flag set, whatever else is on the line. `closed` without `opened` gives Closed with the flag clear. `moving#` with neither gives Moving and keeps the flag. With none of the three, roof and flag are unchanged. |
| `Status.SafetyRules` | DomeDriver/DomeHardware..cs:154-161 | `SafetyAfter`, the safety rules over a token list: `safe` gives Safe, even when `unsafe` is also present. `unsafe` alone gives Unsafe. With neither, the safety status is unchanged. |
| `Status.AxesIndependent` | DomeDriver/DomeHardware..cs:137-161 | A token the shutter rules do not know, safety tokens included, can be inserted anywhere without changing roof or flag. Likewise, a token the safety rules do not know leaves safety unchanged. |
| `Status.OpenedWinsOnLine` | DomeDriver/DomeHardware..cs:135-142 | Any line made of comma-free tokens that has `opened` at any position yields Open with the flag set. |
| `Status.SafeWinsOnLine` | DomeDriver/DomeHardware..cs:154-157 | Any line made of comma-free tokens that has `safe` at any position yields Safe. |
| `Status.OpenedSafeLine` | DomeDriver/DomeHardware..cs:131-161 | `opened,safe` splits into those two tokens and yields Open, the flag set, and Safe. |
| `Status.NearMissTokens` | DomeDriver/DomeHardware..cs:135 | `Opened,safe2` splits into `Opened` and `safe2`. |
| `Status.NearMissUnrecognised` | DomeDriver/DomeHardware..cs:137-161 | Neither `Opened` nor `safe2` equals any of the five recognised tokens. |
| `Status.NearMissLine` | DomeDriver/DomeHardware..cs:135-161 | Matching is whole-token and case-sensitive: the line `Opened,safe2` changes neither axis. |
| `Status.UnsafeLine` | DomeDriver/DomeHardware..cs:154-161 | `closed,unsafe` yields Unsafe, so `unsafe` is not taken for `safe`. |
| `Status.SingleTokenLines` | DomeDriver/DomeHardware..cs:135 | The lines `opened`, `closed` and `moving#` are each a single token. |
| `Status.MovingAfterOpened` | DomeDriver/DomeHardware..cs:818-838 | An `opened` line followed by a `moving#` line is reported as closing. |
| `Status.MovingAfterClosed` | DomeDriver/DomeHardware..cs:818-838 | A `closed` line followed by a `moving#` line is reported as opening. |
| `Status.ShutterAfterConsistent` | DomeDriver/DomeHardware..cs:137-152 | Every line keeps the reachable-state invariant: Open only with the flag set, Closed and Unknown only with it clear. |
| `Status.ReferenceAgrees` | DomeDriver/DomeHardware..cs:818-838 | `ShutterStatusOf` is the switch of the ShutterStatus getter. On reachable states, parsing a line and then reporting equals one step of the five-state reference model. |
| `Status.ReferenceMoveAgrees` | DomeDriver/DomeHardware..cs:818-838 | Setting the roof to Moving is reported as the reference move: closing from open, opening from closed or error, and a movement already under way is kept. |
| `Status.FromShutterState` | DomeDriver/DomeHardware..cs:818-838 | Every one of the five shutter states is reported by some reachable roof-status-and-flag pair. |
| `Status.ShutterStatusInjective` | DomeDriver/DomeHardware..cs:818-838 | Two reachable pairs with the same report are equal, so the four-state enum plus flag and the five-state enum correspond one-to-one. |
| `Session.Added` | DomeDriver/DomeHardware..cs:446-470 | The ID ends up present. The list is unchanged if the ID was already there, and otherwise the ID is appended. No other ID appears, and the list stays free of duplicates. |
| `Session.IndexOf` | DomeDriver/DomeHardware..cs:483 | The first position holding the ID. |
| `Session.Removed` | DomeDriver/DomeHardware..cs:475-484 | An absent ID leaves the list unchanged. Otherwise exactly the first occurrence is cut out, and all other IDs keep their relative order. |
| `Session.NoDupTail` | DomeDriver/DomeHardware..cs:483 | The tail of a duplicate-free list is duplicate-free and does not contain the head. |
| `Session.NoDupCons` | DomeDriver/DomeHardware..cs:483 | An ID absent from a duplicate-free list can be put in front of it without creating a duplicate. This is the step that rebuilds the list around the occurrence that `Remove` cuts. |
| `Session.RemovedNoDup` | DomeDriver/DomeHardware..cs:475-484 | On a duplicate-free list, removal takes the ID out altogether and keeps exactly the other IDs, still without duplicates. |
| `Session.SetConnectedSpec` | DomeDriver/DomeHardware..cs:440-499 | `SetConnectedStep` is one call of SetConnected, giving the new list and the branch taken. Connecting adds the ID only if absent. Disconnecting removes it only if present. The hardware-connect branch is taken exactly when the list was empty before, and the hardware-disconnect branch exactly when it becomes empty. The ignore branches are exactly the calls that leave the list unchanged. No duplicates ever appear. |
| `Session.ReplayAppend` | DomeDriver/DomeHardware..cs:440-507 | Calls run in two batches act like the concatenated sequence. The second batch starts from the list the first leaves, and the branches taken are the first's followed by the second's. |
| `Session.HardwareLinkFollowsList` | DomeDriver/DomeHardware..cs:440-499 | For any sequence of calls, the hardware-connect and hardware-disconnect branches (both empty in this code) are taken in strict alternation. `LinkedAfter` is the link these branches record. The connect branch happens only while it is down, and the disconnect branch only while it is up. It is up exactly while the ID list is non-empty. This is about the branches taken, `Replay` applying `SetConnectedStep` call by call. It is not about the serial port, which stays open from `InitialiseHardware` until `Dispose`. |
| `Session.TwoClients` | DomeDriver/DomeHardware..cs:440-499 | Connect T1, connect T2, disconnect T1, disconnect T2: the hardware-connect branch is taken once, at the first call, and the hardware-disconnect branch once, at the last call. The list ends empty. |
| `Session.ConnectTwiceDisconnectOnce` | DomeDriver/DomeHardware..cs:443-499 | Connecting an ID twice and disconnecting it once leaves it absent, with every other ID still present. |
| `Dome.DomeHardware.constructor` | DomeDriver/DomeHardware..cs:44-51 | Initial state: not connected, not connecting, not initialised, no IDs, nothing written, status Unknown/Unknown/empty, and the direction flag false as at line 583. |
| `Dome.DomeHardware.InitialiseHardware` | DomeDriver/DomeHardware..cs:85-115 | After initialisation, or when the port opens, the driver is connected and initialised. If the first port opening fails, the call raises the error and leaves the driver not connected and not initialised. |
| `Dome.DomeHardware.CheckConnected` | DomeDriver/DomeHardware..cs:918-937 | Through `IsConnected` (:918-925), which reads `connectedState`: returns normally exactly when connected; otherwise NotConnected with the caller's name. |
| `Dome.DomeHardware.ReadStatus` | DomeDriver/DomeHardware..cs:117-123 | Writes `get#` once when connected. Otherwise it writes nothing and returns normally. |
| `Dome.DomeHardware.ParseStatus` | DomeDriver/DomeHardware..cs:131-162 | Records the whole line as the received status. Roof, flag and safety become the parse rules applied to the line's tokens. The reported shutter state moves as the reference model says. The invariant is kept. |
| `Dome.DomeHardware.DataReceived` | DomeDriver/DomeHardware..cs:125-129 | Parses the trimmed line. |
| `Dome.DomeHardware.OpenShutter` | DomeDriver/DomeHardware..cs:781-795 | Not connected: NotConnected, nothing written, roof unchanged. Connected but not Safe: returns normally, nothing written, roof unchanged. Otherwise: `open#` written once, roof Moving, flag and safety unchanged, and the report takes the reference move. |
| `Dome.DomeHardware.CloseShutter` | DomeDriver/DomeHardware..cs:754-767 | Gated the same way as OpenShutter; when allowed it writes `close#` once and sets the roof to Moving. |
| `Dome.DomeHardware.ShutterStatus` | DomeDriver/DomeHardware..cs:818-838 | The report loses nothing on a valid state: the roof status and the flag can be read back from it. |
| `Dome.DomeHardware.SetConnected` | DomeDriver/DomeHardware..cs:440-507 | The ID list becomes the guarded add or the first-occurrence remove, and the branch is the one the step function gives. The hardware-connect branch is taken exactly when the list was empty before, and the hardware-disconnect branch exactly when it becomes empty. `connectedState` is untouched, and the list stays free of duplicates. |
| `Dome.DomeHardware.Connect` | DomeDriver/DomeHardware..cs:333-372 | An already listed ID changes neither the list nor the `Connecting` getter (:427-433). Otherwise the ID is appended and, once the connection has run, `Connecting()` is false. |
| `Dome.DomeHardware.Disconnect` | DomeDriver/DomeHardware..cs:383-422 | An unlisted ID changes neither the list nor the `Connecting` getter (:427-433). Otherwise its entry is removed and `Connecting()` is false afterwards. |

## Left out

- Serial port I/O is not modelled: constructing and opening the port,
  `ReadLine`, `WriteLine` and `Dispose`. A write is an append of the command
  string to `written`, without the newline that `WriteLine` adds. The line
  `ReadLine` delivers is a parameter. The success of `SerialPort.Open()` is the
  parameter `portOpens`.
- The serial data-received handler and the shutter commands are modelled as
  atomic, one after another. In the driver, .NET runs
  `SerialPort_DataReceived` (registered at :107) on a secondary thread, and it
  can run while `OpenShutter` or `CloseShutter` sleeps after its write
  (:763-765, :791-793). The model does not capture that interleaving. The
  commands' late `RoofStatus = Moving` (:766, :794) then overwrites any line
  parsed in that window. For example, `closed,unsafe` can arrive after
  `open#` and before the roof is set. The driver then ends with the roof
  Moving, the flag false, safety Unsafe and the received line `closed,unsafe`.
  No sequential run of the model reaches that state. After that line the roof
  is Closed, no command can run while safety is Unsafe, and any later
  `ParseStatus` would also replace the received line.
- Every serial write is assumed to succeed. A `WriteLine` that throws would
  raise out of `ReadStatus`, `OpenShutter` or `CloseShutter` before the roof is
  set to Moving, and the model has no such error path.
- The `Thread.Sleep` settle delays around the writes in `OpenShutter` and
  `CloseShutter` are timing only.
- `Dome.DomeHardware.Connect`: the connection task runs inside the call, to
  completion. The model does not capture the window in which `Connecting` is
  true while the background task runs, nor interleaving with other callers.
  The driver takes no lock around `uniqueIds`, so two concurrent `Connect` calls
  for one ID can both pass the check at :337 and both `Add` it. Two concurrent
  tasks can also both see an empty list and take the hardware-connect branch
  twice. So the no-duplicates invariant and `Session.HardwareLinkFollowsList`
  hold for sequential calls only.
- `Dome.DomeHardware.Disconnect`: the disconnection task runs inside the call
  in the same way, with the same gap.
- An exception rethrown from inside the background tasks is not modelled,
  because `SetConnected` raises none in this code.
- Logging is left out: `LogMessage` and the trace logger.
- The Profile store is left out (`ReadProfile` and `WriteProfile`, which supply
  the COM port name and the trace flag), along with `SetupDialog` and the
  message boxes.
- `Description`, `DriverInfo`, `DriverVersion`, `InterfaceVersion`, `Name` and
  `SupportedActions` only return constants or reflection data.
- The `Can*` capability getters, `Slaved` and `Slewing` return constants.
- The members that only throw not-implemented exceptions are left out:
  `Altitude`, `AtHome`, `AtPark`, `Azimuth`, `FindHome`, `Park`, `SetPark`,
  `SlewToAltitude`, `SlewToAzimuth`, `SyncToAzimuth`, `CommandBlind`,
  `CommandBool`, `CommandString` and `Action`. `AbortSlew` only logs.
- The change events raised when the `SharedResources` properties are assigned
  are not modelled: `SharedResources` is not part of this model, so its three
  properties are plain fields here.
- The WinForms status window (`frmDriver.cs` and its designer file) subscribes
  to those events and colours labels. It is presentation only.
- `Tokens.IsWhiteSpace` lists the code points that `Char.IsWhiteSpace`
  accepts. The model's characters are Unicode scalar values, while a .NET
  `char` is a UTF-16 code unit. The two differ only for surrogates: a
  character outside the Basic Multilingual Plane is one character here and two
  in .NET, and a lone surrogate cannot be represented at all. Such characters
  do not reach `Split` or `Trim` from this port, because `SerialPort` decodes
  as ASCII by default.

/**
 * The dome hardware class: the state the driver keeps (the shared status
 * store, the direction flag, the connected state, the list of connected
 * driver instances and what has been written to the serial port) and the
 * operations that read and change it.
 */
module Dome {
  import opened Tokens
  import opened Status
  import opened Session

  /** The exceptions the modelled members raise. */
  datatype DriverError =
    | NotConnected(message: string)  // ASCOM NotConnectedException, from CheckConnected
    | PortError                      // SerialPort.Open() failing in InitialiseHardware

  /** How a call returns: normally, or with an exception. */
  datatype Outcome = Done | Failed(error: DriverError)

  /** Commands sent to the microcontroller. */
  const OpenCommand: string := "open#"
  const CloseCommand: string := "close#"
  const StatusCommand: string := "get#"

  /** The static DomeHardware class together with the three properties of
      SharedResources it updates (RoofStatus, SafetyStatus, ReceivedStatus). */
  class DomeHardware {
    var roof: RoofStatus        // SharedResources.RoofStatus
    var safety: SafetyStatus    // SharedResources.SafetyStatus
    var received: string        // SharedResources.ReceivedStatus
    var dirOpen: bool           // _domeShutterState: true when last reported open
    var connectedState: bool    // what IsConnected reports
    var connecting: bool        // the Connecting completion flag
    var runOnce: bool           // one-off initialisation, port opening included, has happened
    var uniqueIds: seq<Guid>    // connected driver instances, in connection order
    var written: seq<string>    // the lines written to the serial port, oldest first

    /** The object invariant: no instance is listed twice, the roof status and
        the flag are a reachable pair, and the driver reports itself connected
        only once the serial port has been opened. */
    ghost predicate Valid()
      reads this
    {
      NoDup(uniqueIds) && Consistent(Shutter(roof, dirOpen)) && (connectedState ==> runOnce)
    }

    /** The state when the local server loads the class. */
    constructor ()
      ensures Valid()
      ensures roof == RoofStatus.Unknown && safety == SafetyStatus.Unknown && received == ""
      ensures !dirOpen && !connectedState && !connecting && !runOnce
      ensures uniqueIds == [] && written == []
    {
      roof, safety, received := RoofStatus.Unknown, SafetyStatus.Unknown, "";
      dirOpen, connectedState, connecting, runOnce := false, false, false, false;
      uniqueIds, written := [], [];
    }

    /** Called for every new driver instance. The first successful call opens
        the serial port; `portOpens` stands for whether SerialPort.Open()
        succeeds. Afterwards the driver reports itself connected. */
    method InitialiseHardware(portOpens: bool) returns (r: Outcome)
      requires Valid()
      modifies this`connectedState, this`runOnce
      ensures Valid()
      ensures old(runOnce) || portOpens ==> r == Done && connectedState && runOnce
      ensures !old(runOnce) && !portOpens ==> r == Failed(PortError) && !connectedState && !runOnce
    {
      if !runOnce {
        connectedState := false;
        if !portOpens {
          return Failed(PortError);
        }
        runOnce := true;
      }
      connectedState := true;
      return Done;
    }

    /** IsConnected: the connected flag, independent of the instance list. */
    function IsConnected(): bool
      reads this
    {
      connectedState
    }

    /** CheckConnected: NotConnected carrying the caller's name unless the
        driver is connected. */
    function CheckConnected(message: string): (r: Outcome)
      reads this
      ensures r == Done <==> connectedState
      ensures r != Done ==> r.error == NotConnected(message)
    {
      if IsConnected() then Done else Failed(NotConnected(message))
    }

    /** Ask the microcontroller for a status line; silently nothing when not
        connected. */
    method ReadStatus()
      requires Valid()
      modifies this`written
      ensures Valid()
      ensures connectedState ==> written == old(written) + [StatusCommand]
      ensures !connectedState ==> written == old(written)
    {
      if IsConnected() {
        written := written + [StatusCommand];
      }
    }

    /** Record a received status line and apply the parse rules to its
        comma-separated tokens. */
    method ParseStatus(status: string)
      requires Valid()
      modifies this`received, this`roof, this`dirOpen, this`safety
      ensures Valid()
      ensures received == status
      ensures Shutter(roof, dirOpen) == ShutterAfter(Tokenize(status), Shutter(old(roof), old(dirOpen)))
      ensures safety == SafetyAfter(Tokenize(status), old(safety))
      ensures ShutterStatus() == ReferenceStep(old(ShutterStatus()), Tokenize(status))
    {
      ReferenceAgrees(Tokenize(status), Shutter(roof, dirOpen));
      received := status;
      var statusList := Tokenize(status);
      if OpenedToken in statusList {
        roof := Open;
        dirOpen := true;
      } else if ClosedToken in statusList {
        roof := Closed;
        dirOpen := false;
      } else if MovingToken in statusList {
        roof := Moving;
      }
      if SafeToken in statusList {
        safety := Safe;
      } else if UnsafeToken in statusList {
        safety := Unsafe;
      }
    }

    /** The serial port's data-received handler, given the line ReadLine
        returned: the line is trimmed and parsed. */
    method DataReceived(line: string)
      requires Valid()
      modifies this`received, this`roof, this`dirOpen, this`safety
      ensures Valid()
      ensures received == Trim(line)
      ensures Shutter(roof, dirOpen) == ShutterAfter(Tokenize(Trim(line)), Shutter(old(roof), old(dirOpen)))
      ensures safety == SafetyAfter(Tokenize(Trim(line)), old(safety))
    {
      ParseStatus(Trim(line));
    }

    /** Open the roof: NotConnected when not connected; a silent refusal
        unless the safety status is Safe; otherwise `open#` is written once
        and the roof is optimistically reported Moving. */
    method OpenShutter() returns (r: Outcome)
      requires Valid()
      modifies this`written, this`roof
      ensures Valid()
      ensures !connectedState ==>
        r == Failed(NotConnected("OpenShutter")) && written == old(written) && roof == old(roof)
      ensures connectedState && safety != Safe ==>
        r == Done && written == old(written) && roof == old(roof)
      ensures connectedState && safety == Safe ==>
        r == Done && written == old(written) + [OpenCommand] && roof == Moving
      ensures connectedState && safety == Safe ==> ShutterStatus() == ReferenceMove(old(ShutterStatus()))
    {
      ReferenceMoveAgrees(Shutter(roof, dirOpen));
      r := CheckConnected("OpenShutter");
      if r.Failed? {
        return;
      }
      if safety != Safe {
        return;
      }
      written := written + [OpenCommand];
      roof := Moving;
    }

    /** Close the roof, gated like OpenShutter, writing `close#`. */
    method CloseShutter() returns (r: Outcome)
      requires Valid()
      modifies this`written, this`roof
      ensures Valid()
      ensures !connectedState ==>
        r == Failed(NotConnected("CloseShutter")) && written == old(written) && roof == old(roof)
      ensures connectedState && safety != Safe ==>
        r == Done && written == old(written) && roof == old(roof)
      ensures connectedState && safety == Safe ==>
        r == Done && written == old(written) + [CloseCommand] && roof == Moving
      ensures connectedState && safety == Safe ==> ShutterStatus() == ReferenceMove(old(ShutterStatus()))
    {
      ReferenceMoveAgrees(Shutter(roof, dirOpen));
      r := CheckConnected("CloseShutter");
      if r.Failed? {
        return;
      }
      if safety != Safe {
        return;
      }
      written := written + [CloseCommand];
      roof := Moving;
    }

    /** The ShutterStatus getter. On a valid state the report loses nothing:
        the roof status and the flag can be read back from it. */
    function ShutterStatus(): (r: ShutterState)
      reads this
      ensures Valid() ==> FromShutterState(r) == Shutter(roof, dirOpen)
    {
      ShutterStatusOf(Shutter(roof, dirOpen))
    }

    /** The Connecting getter: the completion flag the asynchronous Connect
        and Disconnect lower when they finish. */
    function Connecting(): bool
      reads this
    {
      connecting
    }

    /** Connect or disconnect one driver instance, returning the branch
        taken. The hardware connect and disconnect branches are empty in the
        driver; the branch value records which one was taken. */
    method SetConnected(id: Guid, newState: bool) returns (branch: Branch)
      requires Valid()
      modifies this`uniqueIds
      ensures Valid()
      ensures newState ==> uniqueIds == Added(old(uniqueIds), id)
      ensures !newState ==> uniqueIds == Removed(old(uniqueIds), id)
      ensures branch == HardwareConnect <==> newState && id !in old(uniqueIds) && old(uniqueIds) == []
      ensures branch == HardwareDisconnect <==> !newState && id in old(uniqueIds) && uniqueIds == []
      ensures (uniqueIds, branch) == SetConnectedStep(old(uniqueIds), id, newState)
    {
      SetConnectedSpec(uniqueIds, id, newState);
      if newState {
        if id in uniqueIds {
          branch := ConnectIgnored;
        } else {
          if |uniqueIds| == 0 {
            branch := HardwareConnect;
          } else {
            branch := ConnectAdded;
          }
          uniqueIds := uniqueIds + [id];
        }
      } else {
        if id !in uniqueIds {
          branch := DisconnectIgnored;
        } else {
          uniqueIds := Removed(uniqueIds, id);
          if |uniqueIds| == 0 {
            branch := HardwareDisconnect;
          } else {
            branch := DisconnectRemoved;
          }
        }
      }
    }

    /** Connect a driver instance. An instance already listed is ignored and
        nothing changes; otherwise Connecting is raised, the connection runs
        (here to completion) and Connecting is lowered again. */
    method Connect(id: Guid)
      requires Valid()
      modifies this`connecting, this`uniqueIds
      ensures Valid()
      ensures id in old(uniqueIds) ==> uniqueIds == old(uniqueIds) && Connecting() == old(Connecting())
      ensures id !in old(uniqueIds) ==> uniqueIds == old(uniqueIds) + [id] && !Connecting()
    {
      if id in uniqueIds {
        return;
      }
      connecting := true;
      var branch := SetConnected(id, true);
      connecting := false;
    }

    /** Disconnect a driver instance. An instance not listed is ignored and
        nothing changes; otherwise its first entry is removed between raising
        and lowering Connecting. */
    method Disconnect(id: Guid)
      requires Valid()
      modifies this`connecting, this`uniqueIds
      ensures Valid()
      ensures id !in old(uniqueIds) ==> uniqueIds == old(uniqueIds) && Connecting() == old(Connecting())
      ensures id in old(uniqueIds) ==> uniqueIds == Removed(old(uniqueIds), id) && !Connecting()
    {
      if id !in uniqueIds {
        return;
      }
      connecting := true;
      var branch := SetConnected(id, false);
      connecting := false;
    }
  }
}

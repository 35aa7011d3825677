/**
 * Connection-session bookkeeping: the list of driver-instance unique IDs
 * that SetConnected keeps, the branch each call takes (ignored, first
 * connection to the hardware, last disconnection, or neither), and which
 * branches a sequence of calls takes. The two hardware branches are empty in
 * the driver: the serial port is opened by InitialiseHardware and closed only
 * by Dispose.
 */
module Session {

  /** A System.Guid: a 128-bit value. */
  newtype Guid = x: int | 0 <= x < 0x1_0000_0000_0000_0000_0000_0000_0000_0000

  /** No ID occurs twice. */
  predicate NoDup(ids: seq<Guid>) {
    forall i, j :: 0 <= i < j < |ids| ==> ids[i] != ids[j]
  }

  /** The branch SetConnected takes, after its log messages. */
  datatype Branch =
    | ConnectIgnored      // already in the list
    | HardwareConnect     // first ID: "Connecting to hardware"
    | ConnectAdded        // other IDs present: "Hardware already connected"
    | DisconnectIgnored   // not in the list
    | HardwareDisconnect  // last ID removed: the hardware disconnect branch
    | DisconnectRemoved   // other IDs remain connected

  /** List<Guid>.Add guarded by Contains. */
  function Added(ids: seq<Guid>, id: Guid): (r: seq<Guid>)
    ensures id in r
    ensures forall x :: x in r <==> x in ids || x == id
    ensures id in ids ==> r == ids
    ensures id !in ids ==> r == ids + [id]
    ensures NoDup(ids) ==> NoDup(r)
  {
    if id in ids then ids else ids + [id]
  }

  /** The position of the first occurrence of `id`. */
  function IndexOf(ids: seq<Guid>, id: Guid): (k: nat)
    requires id in ids
    ensures k < |ids| && ids[k] == id && id !in ids[..k]
  {
    if ids[0] == id then 0
    else
      var k := IndexOf(ids[1..], id);
      assert ids[1..][..k] == ids[1..k + 1];
      assert ids[..k + 1] == [ids[0]] + ids[1..k + 1];
      k + 1
  }

  /** List<Guid>.Remove: drop the first occurrence, if any. */
  function Removed(ids: seq<Guid>, id: Guid): (r: seq<Guid>)
    ensures id !in ids ==> r == ids
    ensures id in ids ==> r == ids[..IndexOf(ids, id)] + ids[IndexOf(ids, id) + 1..]
  {
    if ids == [] then []
    else if ids[0] == id then ids[1..]
    else
      var rest := Removed(ids[1..], id);
      assert id in ids ==> id in ids[1..] && IndexOf(ids, id) == IndexOf(ids[1..], id) + 1;
      assert ids == [ids[0]] + ids[1..];
      [ids[0]] + rest
  }

  /** The tail of a duplicate-free list is duplicate-free and misses the head. */
  lemma NoDupTail(ids: seq<Guid>)
    requires NoDup(ids) && ids != []
    ensures NoDup(ids[1..]) && ids[0] !in ids[1..]
  {
    var tail := ids[1..];
    forall i, j | 0 <= i < j < |tail| ensures tail[i] != tail[j] {
      assert tail[i] == ids[i + 1] && tail[j] == ids[j + 1];
    }
    forall j | 0 <= j < |tail| ensures tail[j] != ids[0] {
      assert tail[j] == ids[j + 1];
    }
  }

  /** An ID not in a duplicate-free list can be put in front of it. */
  lemma NoDupCons(x: Guid, s: seq<Guid>)
    requires NoDup(s) && x !in s
    ensures NoDup([x] + s)
  {
    var r := [x] + s;
    forall i, j | 0 <= i < j < |r| ensures r[i] != r[j] {
      assert r[j] == s[j - 1];
      if i > 0 { assert r[i] == s[i - 1]; }
    }
  }

  /** Removing from a duplicate-free list removes the ID altogether and keeps
      every other ID, still without duplicates. */
  lemma {:induction false} RemovedNoDup(ids: seq<Guid>, id: Guid)
    requires NoDup(ids)
    ensures NoDup(Removed(ids, id))
    ensures id !in Removed(ids, id)
    ensures forall x :: x in Removed(ids, id) <==> x in ids && x != id
    decreases |ids|
  {
    if ids != [] {
      var tail := ids[1..];
      NoDupTail(ids);
      assert ids == [ids[0]] + tail;
      if ids[0] != id {
        RemovedNoDup(tail, id);
        var rest := Removed(tail, id);
        assert Removed(ids, id) == [ids[0]] + rest;
        NoDupCons(ids[0], rest);
      }
    }
  }

  /** SetConnected on the ID list: the new list and the branch taken. */
  function SetConnectedStep(ids: seq<Guid>, id: Guid, newState: bool): (seq<Guid>, Branch) {
    if newState then
      if id in ids then (ids, ConnectIgnored)
      else if |ids| == 0 then (ids + [id], HardwareConnect)
      else (ids + [id], ConnectAdded)
    else
      if id !in ids then (ids, DisconnectIgnored)
      else
        var r := Removed(ids, id);
        if |r| == 0 then (r, HardwareDisconnect) else (r, DisconnectRemoved)
  }

  /** What SetConnected promises: connecting adds the ID only if absent,
      disconnecting removes it only if present; the hardware-connect branch
      is taken exactly when the list was empty before, and the
      hardware-disconnect branch exactly when it becomes empty; the list stays free of duplicates. */
  lemma SetConnectedSpec(ids: seq<Guid>, id: Guid, newState: bool)
    ensures newState ==> SetConnectedStep(ids, id, newState).0 == Added(ids, id)
    ensures !newState ==> SetConnectedStep(ids, id, newState).0 == Removed(ids, id)
    ensures (SetConnectedStep(ids, id, newState).1 == HardwareConnect)
            <==> newState && id !in ids && |ids| == 0
    ensures (SetConnectedStep(ids, id, newState).1 == HardwareDisconnect)
            <==> !newState && id in ids && |SetConnectedStep(ids, id, newState).0| == 0
    ensures (SetConnectedStep(ids, id, newState).1 in {ConnectIgnored, DisconnectIgnored})
            <==> SetConnectedStep(ids, id, newState).0 == ids
    ensures NoDup(ids) ==> NoDup(SetConnectedStep(ids, id, newState).0)
  {
    if !newState && NoDup(ids) {
      RemovedNoDup(ids, id);
    }
  }

  /** One call of SetConnected, as a client makes it. */
  datatype Request = Request(id: Guid, connect: bool)

  /** A sequence of SetConnected calls: the final list and the branches. */
  function Replay(ids: seq<Guid>, reqs: seq<Request>): (seq<Guid>, seq<Branch>)
    decreases |reqs|
  {
    if reqs == [] then (ids, [])
    else
      var step := SetConnectedStep(ids, reqs[0].id, reqs[0].connect);
      var rest := Replay(step.0, reqs[1..]);
      (rest.0, [step.1] + rest.1)
  }

  /** The link as the branches record it: raised by a hardware-connect
      branch and dropped by a hardware-disconnect branch, starting from
      `linked`. Both branches are empty in the driver, so this follows the
      branches, not the serial port. */
  function LinkedAfter(linked: bool, bs: seq<Branch>): bool
    decreases |bs|
  {
    if bs == [] then linked
    else if bs[0] == HardwareConnect then LinkedAfter(true, bs[1..])
    else if bs[0] == HardwareDisconnect then LinkedAfter(false, bs[1..])
    else LinkedAfter(linked, bs[1..])
  }

  /** The branches are well bracketed: a hardware-connect branch only while
      the branch-derived link is down, a hardware-disconnect branch only
      while it is up, and the add and remove branches only while it is up. */
  predicate Bracketed(linked: bool, bs: seq<Branch>)
    decreases |bs|
  {
    bs == [] ||
    match bs[0]
    case HardwareConnect => !linked && Bracketed(true, bs[1..])
    case HardwareDisconnect => linked && Bracketed(false, bs[1..])
    case ConnectAdded => linked && Bracketed(linked, bs[1..])
    case DisconnectRemoved => linked && Bracketed(linked, bs[1..])
    case ConnectIgnored => Bracketed(linked, bs[1..])
    case DisconnectIgnored => Bracketed(linked, bs[1..])
  }

  /** However clients interleave their calls, the hardware-connect and
      hardware-disconnect branches are taken in strict alternation, and the
      branch-derived link is up exactly while the list of IDs is non-empty. */
  lemma {:induction false} HardwareLinkFollowsList(ids: seq<Guid>, reqs: seq<Request>)
    ensures Bracketed(|ids| > 0, Replay(ids, reqs).1)
    ensures LinkedAfter(|ids| > 0, Replay(ids, reqs).1) == (|Replay(ids, reqs).0| > 0)
    decreases |reqs|
  {
    if reqs != [] {
      var step := SetConnectedStep(ids, reqs[0].id, reqs[0].connect);
      SetConnectedSpec(ids, reqs[0].id, reqs[0].connect);
      HardwareLinkFollowsList(step.0, reqs[1..]);
      var bs := Replay(ids, reqs).1;
      assert bs[0] == step.1 && bs[1..] == Replay(step.0, reqs[1..]).1;
      if step.1 == ConnectAdded || step.1 == DisconnectRemoved {
        assert |step.0| > 0 && |ids| > 0;
      }
    }
  }

  /** Replaying a non-empty sequence is one step followed by the rest. */
  lemma ReplayCons(ids: seq<Guid>, r: Request, rest: seq<Request>)
    ensures Replay(ids, [r] + rest)
         == (Replay(SetConnectedStep(ids, r.id, r.connect).0, rest).0,
             [SetConnectedStep(ids, r.id, r.connect).1]
             + Replay(SetConnectedStep(ids, r.id, r.connect).0, rest).1)
  {
    assert ([r] + rest)[1..] == rest;
  }

  /** Running two sequences of calls one after the other is running their
      concatenation: the list the first leaves is where the second starts,
      and the branches taken are the first's followed by the second's. */
  lemma {:induction false} ReplayAppend(ids: seq<Guid>, a: seq<Request>, b: seq<Request>)
    ensures Replay(ids, a + b).0 == Replay(Replay(ids, a).0, b).0
    ensures Replay(ids, a + b).1 == Replay(ids, a).1 + Replay(Replay(ids, a).0, b).1
    decreases |a|
  {
    if a == [] {
      assert a + b == b;
    } else {
      var step := SetConnectedStep(ids, a[0].id, a[0].connect);
      assert (a + b)[0] == a[0];
      assert (a + b)[1..] == a[1..] + b;
      ReplayAppend(step.0, a[1..], b);
      var mid := Replay(ids, a).0;
      assert [step.1] + Replay(step.0, a[1..]).1 + Replay(mid, b).1
          == [step.1] + (Replay(step.0, a[1..]).1 + Replay(mid, b).1);
    }
  }

  /** Two clients: connect T1, connect T2, disconnect T1, disconnect T2.
      The hardware-connect branch is taken once, at the first call, and the
      hardware-disconnect branch once, at the last. */
  lemma TwoClients(t1: Guid, t2: Guid)
    requires t1 != t2
    ensures Replay([], [Request(t1, true), Request(t2, true), Request(t1, false), Request(t2, false)])
            == ([], [HardwareConnect, ConnectAdded, DisconnectRemoved, HardwareDisconnect])
  {
    var r1, r2, r3, r4 := Request(t1, true), Request(t2, true), Request(t1, false), Request(t2, false);
    assert Replay([t2], [r4]) == ([], [HardwareDisconnect]) by {
      assert Removed([t2], t2) == [];
      ReplayCons([t2], r4, []);
      assert [r4] + [] == [r4];
      assert [HardwareDisconnect] + [] == [HardwareDisconnect];
    }
    assert Replay([t1, t2], [r3, r4]) == ([], [DisconnectRemoved, HardwareDisconnect]) by {
      assert Removed([t1, t2], t1) == [t2];
      assert SetConnectedStep([t1, t2], t1, false) == ([t2], DisconnectRemoved);
      ReplayCons([t1, t2], r3, [r4]);
      assert [r3] + [r4] == [r3, r4];
      assert [DisconnectRemoved] + [HardwareDisconnect] == [DisconnectRemoved, HardwareDisconnect];
    }
    assert Replay([t1], [r2, r3, r4]) == ([], [ConnectAdded, DisconnectRemoved, HardwareDisconnect]) by {
      assert [t1] + [t2] == [t1, t2];
      assert SetConnectedStep([t1], t2, true) == ([t1, t2], ConnectAdded);
      ReplayCons([t1], r2, [r3, r4]);
      assert [r2] + [r3, r4] == [r2, r3, r4];
      assert [ConnectAdded] + [DisconnectRemoved, HardwareDisconnect]
          == [ConnectAdded, DisconnectRemoved, HardwareDisconnect];
    }
    var none: seq<Guid> := [];
    assert none + [t1] == [t1];
    assert SetConnectedStep([], t1, true) == ([t1], HardwareConnect);
    ReplayCons([], r1, [r2, r3, r4]);
    assert [r1] + [r2, r3, r4] == [r1, r2, r3, r4];
    assert [HardwareConnect] + [ConnectAdded, DisconnectRemoved, HardwareDisconnect]
        == [HardwareConnect, ConnectAdded, DisconnectRemoved, HardwareDisconnect];
  }

  /** Connecting twice and disconnecting once leaves the ID out of the list
      and every other ID where it was. */
  lemma ConnectTwiceDisconnectOnce(ids: seq<Guid>, id: Guid)
    requires NoDup(ids)
    ensures id !in Replay(ids, [Request(id, true), Request(id, true), Request(id, false)]).0
    ensures forall x :: x != id ==>
      (x in Replay(ids, [Request(id, true), Request(id, true), Request(id, false)]).0 <==> x in ids)
  {
    var reqs := [Request(id, true), Request(id, true), Request(id, false)];
    var a := Added(ids, id);
    RemovedNoDup(a, id);
    var r := Removed(a, id);
    assert SetConnectedStep(ids, id, true).0 == a;
    assert SetConnectedStep(a, id, true).0 == a;
    assert SetConnectedStep(a, id, false).0 == r;
    assert reqs[1..][1..][1..] == reqs[3..] == [];
    assert reqs[1..][1..] == reqs[2..];
    assert Replay(r, reqs[3..]).0 == r;
    assert Replay(a, reqs[2..]).0 == r;
    assert Replay(a, reqs[1..]).0 == r;
  }
}

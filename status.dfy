/**
 * The shared dome status and the rules that change it: how one status line
 * from the microcontroller updates the roof status, the safety status and the
 * direction flag, and how the roof status and the flag are reported as one
 * of the five ASCOM shutter states.
 */
module Status {
  import opened Tokens

  /** SharedResources.RoofStatusEnum. */
  datatype RoofStatus = Open | Closed | Moving | Unknown

  /** SharedResources.SafetyStatusEnum. */
  datatype SafetyStatus = Safe | Unsafe | Unknown

  /** The ASCOM ShutterState the driver reports. */
  datatype ShutterState = ShutterOpen | ShutterClosed | ShutterOpening | ShutterClosing | ShutterError

  /** The roof status together with the private flag _domeShutterState,
      which records whether the roof was last reported open (true) or
      closed (false). */
  datatype Shutter = Shutter(roof: RoofStatus, dirOpen: bool)

  /** Tokens of a status line and the separator between them. */
  const StatusSeparator: char := ','
  const OpenedToken: string := "opened"
  const ClosedToken: string := "closed"
  const MovingToken: string := "moving#"
  const SafeToken: string := "safe"
  const UnsafeToken: string := "unsafe"

  /** The tokens of a received line. */
  function Tokenize(line: string): seq<string> {
    Split(line, StatusSeparator)
  }

  /** Roof status and direction flag after one line: the first of `opened`,
      `closed`, `moving#` present decides; `moving#` keeps the flag; with
      none of them nothing changes. */
  function ShutterAfter(tokens: seq<string>, sh: Shutter): Shutter {
    if OpenedToken in tokens then Shutter(Open, true)
    else if ClosedToken in tokens then Shutter(Closed, false)
    else if MovingToken in tokens then Shutter(Moving, sh.dirOpen)
    else sh
  }

  /** Safety status after one line: `safe` before `unsafe`; with neither,
      unchanged. */
  function SafetyAfter(tokens: seq<string>, safety: SafetyStatus): SafetyStatus {
    if SafeToken in tokens then Safe
    else if UnsafeToken in tokens then Unsafe
    else safety
  }

  /** The ShutterStatus getter: the roof status, with Moving read as closing
      when the roof was last open and as opening otherwise. */
  function ShutterStatusOf(sh: Shutter): ShutterState {
    match sh.roof
    case Open => ShutterOpen
    case Closed => ShutterClosed
    case Moving => if sh.dirOpen then ShutterClosing else ShutterOpening
    case Unknown => ShutterError
  }

  /** The states the driver can reach from its initial (Unknown, false):
      Open always comes with the flag set, Closed and Unknown without it. */
  predicate Consistent(sh: Shutter) {
    (sh.roof == Open ==> sh.dirOpen)
    && (sh.roof == Closed ==> !sh.dirOpen)
    && (sh.roof == RoofStatus.Unknown ==> !sh.dirOpen)
  }

  // ---------------------------------------------------------------------
  // The parse rules

  /** `opened` wins over everything else on the line; `closed` wins when
      `opened` is absent; `moving#` alone keeps the flag; otherwise roof
      and flag are kept. */
  lemma ShutterRules(tokens: seq<string>, sh: Shutter)
    ensures OpenedToken in tokens ==> ShutterAfter(tokens, sh) == Shutter(Open, true)
    ensures OpenedToken !in tokens && ClosedToken in tokens ==>
      ShutterAfter(tokens, sh) == Shutter(Closed, false)
    ensures OpenedToken !in tokens && ClosedToken !in tokens && MovingToken in tokens ==>
      ShutterAfter(tokens, sh) == Shutter(Moving, sh.dirOpen)
    ensures OpenedToken !in tokens && ClosedToken !in tokens && MovingToken !in tokens ==>
      ShutterAfter(tokens, sh) == sh
  {
  }

  /** `safe` wins over `unsafe`; `unsafe` alone gives Unsafe; neither keeps
      the status. */
  lemma SafetyRules(tokens: seq<string>, safety: SafetyStatus)
    ensures SafeToken in tokens ==> SafetyAfter(tokens, safety) == Safe
    ensures SafeToken !in tokens && UnsafeToken in tokens ==> SafetyAfter(tokens, safety) == Unsafe
    ensures SafeToken !in tokens && UnsafeToken !in tokens ==> SafetyAfter(tokens, safety) == safety
  {
  }

  /** The two axes are independent: a token the shutter rules do not know
      (a safety token among them) can be inserted anywhere without changing
      the shutter outcome, and likewise for the safety rules. */
  lemma AxesIndependent(before: seq<string>, x: string, after: seq<string>, sh: Shutter, safety: SafetyStatus)
    ensures x != OpenedToken && x != ClosedToken && x != MovingToken ==>
      ShutterAfter(before + [x] + after, sh) == ShutterAfter(before + after, sh)
    ensures x != SafeToken && x != UnsafeToken ==>
      SafetyAfter(before + [x] + after, safety) == SafetyAfter(before + after, safety)
  {
    var with, without := before + [x] + after, before + after;
    forall y | y != x ensures (y in with) == (y in without) {
      assert y in with <==> y in before || y == x || y in after;
    }
  }

  /** `opened` wins wherever it stands on a line, whatever the other
      (comma-free) tokens are. */
  lemma OpenedWinsOnLine(before: seq<string>, after: seq<string>, sh: Shutter)
    requires SepFree(before, StatusSeparator) && SepFree(after, StatusSeparator)
    ensures ShutterAfter(Tokenize(Join(before + [OpenedToken] + after, StatusSeparator)), sh)
            == Shutter(Open, true)
  {
    TokenFound(before, OpenedToken, after, StatusSeparator);
  }

  /** `safe` wins wherever it stands on a line. */
  lemma SafeWinsOnLine(before: seq<string>, after: seq<string>, safety: SafetyStatus)
    requires SepFree(before, StatusSeparator) && SepFree(after, StatusSeparator)
    ensures SafetyAfter(Tokenize(Join(before + [SafeToken] + after, StatusSeparator)), safety) == Safe
  {
    TokenFound(before, SafeToken, after, StatusSeparator);
  }

  /** "opened,safe" gives an open roof, the flag set and a safe status. */
  lemma OpenedSafeLine(sh: Shutter, safety: SafetyStatus)
    ensures Tokenize("opened,safe") == ["opened", "safe"]
    ensures ShutterAfter(Tokenize("opened,safe"), sh) == Shutter(Open, true)
    ensures SafetyAfter(Tokenize("opened,safe"), safety) == Safe
  {
    var ts := ["opened", "safe"];
    assert Join(ts, StatusSeparator) == "opened,safe";
    SplitJoin(ts, StatusSeparator);
  }

  /** The tokens of "Opened,safe2". */
  lemma NearMissTokens()
    ensures Tokenize("Opened,safe2") == ["Opened", "safe2"]
  {
    var ts := ["Opened", "safe2"];
    assert Join(ts, StatusSeparator) == "Opened,safe2";
    SplitJoin(ts, StatusSeparator);
  }

  /** Matching is whole-token and case-sensitive: `Opened` is not `opened`
      and `safe2` is not `safe`, so the line changes neither axis. */
  lemma NearMissLine(sh: Shutter, safety: SafetyStatus)
    ensures ShutterAfter(Tokenize("Opened,safe2"), sh) == sh
    ensures SafetyAfter(Tokenize("Opened,safe2"), safety) == safety
  {
    NearMissTokens();
    NearMissUnrecognised();
  }

  /** Neither token of "Opened,safe2" is one the parser knows. */
  lemma NearMissUnrecognised()
    ensures OpenedToken !in ["Opened", "safe2"] && ClosedToken !in ["Opened", "safe2"]
    ensures MovingToken !in ["Opened", "safe2"]
    ensures SafeToken !in ["Opened", "safe2"] && UnsafeToken !in ["Opened", "safe2"]
  {
    var ts := ["Opened", "safe2"];
    assert ts[0][0] != OpenedToken[0] && ts[0][0] != ClosedToken[0] && |ts[0]| != |MovingToken|;
    assert |ts[1]| != |OpenedToken| && ts[1][0] != ClosedToken[0] && |ts[1]| != |MovingToken|;
    assert |ts[0]| != |SafeToken| && ts[0][0] != UnsafeToken[0];
    assert |ts[1]| != |SafeToken| && ts[1][0] != UnsafeToken[0];
  }

  /** `unsafe` is not taken for `safe`. */
  lemma UnsafeLine(safety: SafetyStatus)
    ensures Tokenize("closed,unsafe") == ["closed", "unsafe"]
    ensures SafetyAfter(Tokenize("closed,unsafe"), safety) == Unsafe
  {
    var ts := ["closed", "unsafe"];
    assert Join(ts, StatusSeparator) == "closed,unsafe";
    SplitJoin(ts, StatusSeparator);
    assert |ts[0]| != |SafeToken| && |ts[1]| != |SafeToken|;
    assert ts[1] == UnsafeToken;
  }

  // ---------------------------------------------------------------------
  // The reported shutter state

  /** The one-token lines. */
  lemma SingleTokenLines()
    ensures Tokenize(OpenedToken) == [OpenedToken]
    ensures Tokenize(ClosedToken) == [ClosedToken]
    ensures Tokenize(MovingToken) == [MovingToken]
  {
    SplitSingle(OpenedToken, StatusSeparator);
    SplitSingle(ClosedToken, StatusSeparator);
    SplitSingle(MovingToken, StatusSeparator);
  }

  /** A `moving#` line after an `opened` line reports closing. */
  lemma MovingAfterOpened(sh: Shutter)
    ensures ShutterStatusOf(ShutterAfter(Tokenize(MovingToken), ShutterAfter(Tokenize(OpenedToken), sh)))
            == ShutterClosing
  {
    SingleTokenLines();
    assert |MovingToken| != |OpenedToken| && |MovingToken| != |ClosedToken|;
  }

  /** A `moving#` line after a `closed` line reports opening. */
  lemma MovingAfterClosed(sh: Shutter)
    ensures ShutterStatusOf(ShutterAfter(Tokenize(MovingToken), ShutterAfter(Tokenize(ClosedToken), sh)))
            == ShutterOpening
  {
    SingleTokenLines();
    assert |MovingToken| != |OpenedToken| && |MovingToken| != |ClosedToken|;
    assert OpenedToken[0] != ClosedToken[0];
  }

  /** Every line keeps the reachable-state invariant. */
  lemma ShutterAfterConsistent(tokens: seq<string>, sh: Shutter)
    requires Consistent(sh)
    ensures Consistent(ShutterAfter(tokens, sh))
  {
  }

  /** Reference model: the five-state enumeration that could replace the
      roof status plus flag. A `moving#` line turns a last-known position
      into the movement away from it; the initial error state, whose flag is
      clear, moves to opening. */
  function ReferenceStep(s: ShutterState, tokens: seq<string>): ShutterState {
    if OpenedToken in tokens then ShutterOpen
    else if ClosedToken in tokens then ShutterClosed
    else if MovingToken in tokens then ReferenceMove(s)
    else s
  }

  /** Reference model of "the roof is now moving" (a `moving#` line or an
      optimistic command). */
  function ReferenceMove(s: ShutterState): ShutterState {
    match s
    case ShutterOpen => ShutterClosing
    case ShutterClosed => ShutterOpening
    case ShutterError => ShutterOpening
    case ShutterOpening => ShutterOpening
    case ShutterClosing => ShutterClosing
  }

  /** On every reachable state, parsing a line and then reporting agrees
      with the five-state reference model. */
  lemma ReferenceAgrees(tokens: seq<string>, sh: Shutter)
    requires Consistent(sh)
    ensures ShutterStatusOf(ShutterAfter(tokens, sh)) == ReferenceStep(ShutterStatusOf(sh), tokens)
  {
  }

  /** Setting the roof to Moving (as the open and close commands do) agrees
      with the reference model's move. */
  lemma ReferenceMoveAgrees(sh: Shutter)
    requires Consistent(sh)
    ensures ShutterStatusOf(Shutter(Moving, sh.dirOpen)) == ReferenceMove(ShutterStatusOf(sh))
  {
  }

  /** The reachable state behind a reported shutter state. */
  function FromShutterState(s: ShutterState): (sh: Shutter)
    ensures Consistent(sh)
    ensures ShutterStatusOf(sh) == s
  {
    match s
    case ShutterOpen => Shutter(Open, true)
    case ShutterClosed => Shutter(Closed, false)
    case ShutterOpening => Shutter(Moving, false)
    case ShutterClosing => Shutter(Moving, true)
    case ShutterError => Shutter(RoofStatus.Unknown, false)
  }

  /** On reachable states the report loses nothing: the roof status plus
      flag and the five-state enumeration are in one-to-one correspondence. */
  lemma ShutterStatusInjective(a: Shutter, b: Shutter)
    requires Consistent(a) && Consistent(b)
    requires ShutterStatusOf(a) == ShutterStatusOf(b)
    ensures a == b
  {
  }
}

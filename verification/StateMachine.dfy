/** The mode-keyed graph of payment-intent statuses (statemachine/intent.go). */
module StateMachine {
  datatype Mode = Direct | Escrow

  datatype Status =
    | Created
    | RequiresConfirmation
    | Authorized
    | Captured
    | Settled
    | HeldInEscrow
    | Released
    | Failed
    | Refunded
    | PartiallyRefunded

  function AllowedEdges(mode: Mode, from: Status): set<Status> {
    match (mode, from)
    case (_, Created) => {RequiresConfirmation, Failed}
    case (_, RequiresConfirmation) => {Authorized, Failed}
    case (_, Authorized) => {Captured, Failed}
    case (Direct, Captured) => {Settled, Refunded, PartiallyRefunded}
    case (Direct, Settled) => {Refunded, PartiallyRefunded}
    case (Escrow, Captured) => {HeldInEscrow}
    case (Escrow, HeldInEscrow) => {Released, Refunded}
    case _ => {}
  }

  predicate CanTransition(mode: Mode, from: Status, to: Status) {
    to in AllowedEdges(mode, from)
  }

  /** The graph as it is drawn: the way to capture and the failures before it are common; a direct intent
      then settles and may be refunded before or after, an escrow one is held and then released or refunded. */
  predicate Drawn(mode: Mode, from: Status, to: Status) {
    match to
    case Created => false
    case RequiresConfirmation => from == Created
    case Authorized => from == RequiresConfirmation
    case Captured => from == Authorized
    case Failed => from == Created || from == RequiresConfirmation || from == Authorized
    case Settled => mode == Direct && from == Captured
    case HeldInEscrow => mode == Escrow && from == Captured
    case Released => mode == Escrow && from == HeldInEscrow
    case PartiallyRefunded => mode == Direct && (from == Captured || from == Settled)
    case Refunded => if mode == Direct then from == Captured || from == Settled else from == HeldInEscrow
  }

  lemma EdgesAreAsDrawn(mode: Mode, from: Status, to: Status)
    ensures CanTransition(mode, from, to) <==> Drawn(mode, from, to)
  {
  }

  predicate Terminal(status: Status) {
    status in {Failed, Released, Refunded, PartiallyRefunded}
  }

  /** How far along its life a status is; every edge climbs. */
  function Rank(status: Status): (r: nat)
    ensures r <= 5
  {
    match status
    case Created => 0
    case RequiresConfirmation => 1
    case Authorized => 2
    case Captured => 3
    case Settled => 4
    case HeldInEscrow => 4
    case _ => 5
  }

  /** A walk takes one edge of the graph at each step. */
  ghost predicate Walk(mode: Mode, walk: seq<Status>) {
    forall k :: 0 < k < |walk| ==> CanTransition(mode, walk[k - 1], walk[k])
  }

  lemma {:induction false} WalkClimbs(mode: Mode, walk: seq<Status>, a: nat, b: nat)
    requires Walk(mode, walk) && a < b < |walk|
    ensures Rank(walk[a]) + (b - a) <= Rank(walk[b])
    decreases b
  {
    assert CanTransition(mode, walk[b - 1], walk[b]);
    if a < b - 1 {
      WalkClimbs(mode, walk, a, b - 1);
    }
  }

  /** The graph has no cycle, so no walk visits a status twice or takes more than five edges. */
  lemma {:induction false} WalksAreShort(mode: Mode, walk: seq<Status>)
    requires Walk(mode, walk)
    ensures |walk| <= 6
    ensures forall a, b :: 0 <= a < b < |walk| ==> walk[a] != walk[b]
  {
    forall a, b | 0 <= a < b < |walk|
      ensures walk[a] != walk[b]
    {
      WalkClimbs(mode, walk, a, b);
    }
    if |walk| > 1 {
      WalkClimbs(mode, walk, 0, |walk| - 1);
    }
  }

  /** Where a mode's walks from `Created` may stand: the two modes never cross after capture. */
  predicate OfMode(mode: Mode, status: Status) {
    match mode
    case Direct => status != HeldInEscrow && status != Released
    case Escrow => status != Settled && status != PartiallyRefunded
  }

  /** Following edges of one mode never reaches a status of the other, and a terminal status has
      no way out. */
  lemma {:induction false} ModesNeverCross(mode: Mode, walk: seq<Status>, k: nat)
    requires Walk(mode, walk) && k < |walk| && walk[0] == Created
    ensures OfMode(mode, walk[k])
    ensures Terminal(walk[k]) <==> AllowedEdges(mode, walk[k]) == {}
  {
    if k > 0 {
      assert CanTransition(mode, walk[k - 1], walk[k]);
      ModesNeverCross(mode, walk, k - 1);
    }
    var s := walk[k];
    assert Failed in AllowedEdges(mode, Created) && Failed in AllowedEdges(mode, RequiresConfirmation);
    assert Captured in AllowedEdges(mode, Authorized);
    assert s == Captured ==> Settled in AllowedEdges(mode, s) || HeldInEscrow in AllowedEdges(mode, s);
    assert s == Settled || s == HeldInEscrow ==> Refunded in AllowedEdges(mode, s);
  }
}

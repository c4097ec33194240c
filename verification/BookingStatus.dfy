/** The booking state machine: six statuses and the moves between them. */
module BookingStatus {
  import opened Collections

  /** Nanoseconds since the zero instant; ZERO itself is what an unset time reads as. */
  type Instant = int
  const ZERO: Instant := 0

  datatype Status = PendingPayment | Confirmed | PaymentFailed | RefundRequired | Expired | Cancelled {

    /** Keeps its child from booking that class again. */
    predicate IsLive() {
      PendingPayment? || Confirmed?
    }
  }

  datatype Actor = Parent | System | Admin | Payment

  /** The whole state machine, one row per status. */
  function AllowedTransitions(from: Status): set<Status> {
    match from
    case PendingPayment => {Confirmed, PaymentFailed, RefundRequired, Expired, Cancelled}
    case Confirmed => {Cancelled}
    case RefundRequired => {Cancelled}
    case PaymentFailed => {}
    case Expired => {}
    case Cancelled => {}
  }

  predicate CanTransition(from: Status, to: Status) {
    to in AllowedTransitions(from)
  }

  /** A walk along allowed moves, the first status included. */
  ghost predicate IsPath(path: seq<Status>) {
    forall i :: 0 < i < |path| ==> CanTransition(path[i - 1], path[i])
  }

  /** How many further moves a status can still make at most. */
  function MovesLeft(status: Status): nat {
    match status
    case PendingPayment => 2
    case Confirmed => 1
    case RefundRequired => 1
    case _ => 0
  }

  /** No booking ever changes status more than twice: the table has no cycle and no longer walk. */
  lemma {:induction false} PathsAreShort(path: seq<Status>)
    requires path != [] && IsPath(path)
    ensures |path| <= 1 + MovesLeft(path[0])
    ensures |path| <= 3
    ensures forall i, j :: 0 <= i < j < |path| ==> path[i] != path[j]
    decreases |path|
  {
    if |path| > 1 {
      assert CanTransition(path[0], path[1]);
      var tail := path[1..];
      assert forall i :: 0 < i < |tail| ==> tail[i - 1] == path[i] && tail[i] == path[i + 1];
      PathsAreShort(tail);
      StatusesFall(tail);
      forall j | 1 <= j < |path| ensures path[0] != path[j] {
        assert path[j] == tail[j - 1];
      }
      forall i, j | 1 <= i < j < |path| ensures path[i] != path[j] {
        assert path[i] == tail[i - 1] && path[j] == tail[j - 1];
      }
    }
  }

  /** Along a walk the moves left never grow. */
  lemma {:induction false} StatusesFall(path: seq<Status>)
    requires path != [] && IsPath(path)
    ensures forall i :: 0 <= i < |path| ==> MovesLeft(path[i]) <= MovesLeft(path[0])
    decreases |path|
  {
    if |path| > 1 {
      assert CanTransition(path[0], path[1]);
      var tail := path[1..];
      assert forall i :: 0 < i < |tail| ==> tail[i - 1] == path[i] && tail[i] == path[i + 1];
      StatusesFall(tail);
      forall i | 1 <= i < |path| ensures MovesLeft(path[i]) <= MovesLeft(path[0]) {
        assert path[i] == tail[i - 1];
      }
    }
  }
}

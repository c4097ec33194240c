/**
 * The charge: attempts, idempotency keys, the provider, and the service that
 * drives them. Each class is proved against functions on the ledger and the
 * provider's own record.
 */
module Payments {
  import opened Collections
  import opened BookingStatus

  type Int32 = n: int | -0x8000_0000 <= n < 0x8000_0000

  const DEFAULT_CURRENCY := "SGD"
  const MAX_KEY_LENGTH: nat := 128

  datatype Amount = Amount(cents: Int32, currency: string) {
    function Normalised(): Amount {
      if currency == "" then this.(currency := DEFAULT_CURRENCY) else this
    }

    predicate SameAs(other: Amount) {
      Normalised() == other.Normalised()
    }

    /** What is wrong with it, the cents before the code. */
    function Problem(): Option<PayError> {
      if cents <= 0 then Some(InvalidAmount)
      else if !IsCurrency(Normalised().currency) then Some(InvalidCurrency)
      else None
    }

    predicate IsValid() {
      Problem().None?
    }
  }

  predicate IsCurrency(code: string) {
    |code| == 3 && forall i :: 0 <= i < |code| ==> 'A' <= code[i] <= 'Z'
  }

  /** One printable token a header can carry. */
  predicate IsKey(key: string) {
    0 < |key| <= MAX_KEY_LENGTH && forall i :: 0 <= i < |key| ==> '!' <= key[i] <= '~'
  }

  datatype PayStatus = Initiated | Succeeded | Failed {
    predicate IsSettled() {
      Succeeded? || Failed?
    }
  }

  datatype Attempt = Attempt(
    id: string, bookingId: string, key: string, amount: Amount, status: PayStatus,
    providerRef: string, failureReason: string, createdAt: Instant, settledAt: Instant)

  datatype PayError =
    | InvalidRequest | InvalidAmount | InvalidCurrency | InvalidKey | BookingNotFound
    | IdempotencyConflict | AttemptNotFound | AlreadySettled
    | Declined | ProviderUnavailable | AttemptPending | NothingToRefund

  // ---- The ledger ----

  /** The attempts, and the order they were written in. */
  datatype Ledger = Ledger(bookings: set<string>, attempts: map<string, Attempt>, order: seq<string>)

  datatype BeginRequest = BeginRequest(attemptId: string, bookingId: string, key: string, amount: Amount, now: Instant)

  predicate IsOrdered(l: Ledger) {
    forall i :: 0 <= i < |l.order| ==> l.order[i] in l.attempts
  }

  predicate HasKey(a: Attempt, bookingId: string, key: string) {
    a.bookingId == bookingId && a.key == key
  }

  /** The first attempt written under a key, from position i on. */
  function FindFrom(l: Ledger, i: nat, bookingId: string, key: string): (r: Option<string>)
    requires IsOrdered(l) && i <= |l.order|
    ensures r.Some? ==> r.value in l.order && r.value in l.attempts && HasKey(l.attempts[r.value], bookingId, key)
    ensures r.None? ==> forall k :: i <= k < |l.order| ==> !HasKey(l.attempts[l.order[k]], bookingId, key)
    decreases |l.order| - i
  {
    if i == |l.order| then None
    else if HasKey(l.attempts[l.order[i]], bookingId, key) then Some(l.order[i])
    else FindFrom(l, i + 1, bookingId, key)
  }

  function Find(l: Ledger, bookingId: string, key: string): Option<string>
    requires IsOrdered(l)
  {
    FindFrom(l, 0, bookingId, key)
  }

  function AttemptsOf(l: Ledger, order: seq<string>, bookingId: string): seq<Attempt>
    requires forall i :: 0 <= i < |order| ==> order[i] in l.attempts
  {
    if order == [] then []
    else
      var front := AttemptsOf(l, order[..|order| - 1], bookingId);
      var last := l.attempts[order[|order| - 1]];
      if last.bookingId == bookingId then front + [last] else front
  }

  datatype BeginAnswer = Opened(attempt: Attempt) | Replayed(attempt: Attempt) | BeginRefused(error: PayError)

  function OpenedBy(r: BeginRequest): Attempt {
    Attempt(r.attemptId, r.bookingId, r.key, r.amount.Normalised(), Initiated, "", "", r.now, ZERO)
  }

  /** A row found under the key is the same charge again, or another one wearing its key. */
  function MatchReplay(stored: Attempt, amount: Amount): BeginAnswer {
    if stored.amount.SameAs(amount) then Replayed(stored) else BeginRefused(IdempotencyConflict)
  }

  function RefusedUnread(r: BeginRequest): Option<PayError> {
    if r.attemptId == "" || r.bookingId == "" then Some(InvalidRequest)
    else if !IsKey(r.key) then Some(InvalidKey)
    else r.amount.Problem()
  }

  function Begin(l: Ledger, r: BeginRequest): BeginAnswer
    requires IsOrdered(l)
  {
    if RefusedUnread(r).Some? then BeginRefused(RefusedUnread(r).value)
    else if r.bookingId !in l.bookings then BeginRefused(BookingNotFound)
    else
      var found := Find(l, r.bookingId, r.key);
      if found.Some? then MatchReplay(l.attempts[found.value], r.amount) else Opened(OpenedBy(r))
  }

  function Opening(l: Ledger, a: Attempt): Ledger {
    l.(attempts := l.attempts[a.id := a], order := l.order + [a.id])
  }

  function AfterBegin(l: Ledger, r: BeginRequest): Ledger
    requires IsOrdered(l)
  {
    if Begin(l, r).Opened? then Opening(l, OpenedBy(r)) else l
  }

  datatype SettleRequest = SettleRequest(attemptId: string, status: PayStatus, providerRef: string, failureReason: string, now: Instant) {
    /** Only the two settled shapes: a success names its charge, a failure names none. */
    predicate IsValid() {
      attemptId != "" && status.IsSettled() && (status.Succeeded? <==> providerRef != "")
    }
  }

  datatype SettleAnswer = Settled(attempt: Attempt) | SettleRefused(error: PayError, seen: Option<Attempt>)

  function SettledBy(a: Attempt, r: SettleRequest): Attempt {
    a.(status := r.status, providerRef := r.providerRef, failureReason := r.failureReason, settledAt := r.now)
  }

  function Settle(l: Ledger, r: SettleRequest): SettleAnswer {
    if !r.IsValid() then SettleRefused(InvalidRequest, None)
    else if r.attemptId !in l.attempts then SettleRefused(AttemptNotFound, None)
    else if l.attempts[r.attemptId].status.IsSettled() then SettleRefused(AlreadySettled, Some(l.attempts[r.attemptId]))
    else Settled(SettledBy(l.attempts[r.attemptId], r))
  }

  function AfterSettle(l: Ledger, r: SettleRequest): Ledger {
    var answer := Settle(l, r);
    if answer.Settled? then l.(attempts := l.attempts[r.attemptId := answer.attempt]) else l
  }

  class MemoryRepository {
    var bookings: set<string>
    var attempts: map<string, Attempt>
    var order: seq<string>

    ghost function State(): Ledger
      reads this
    {
      Ledger(bookings, attempts, order)
    }

    /** Everything in the order is stored under its own id, and everything stored is in the order. */
    ghost predicate Valid()
      reads this
    {
      && IsOrdered(State())
      && (forall id :: id in attempts ==> id in order && attempts[id].id == id)
    }

    constructor ()
      ensures Valid() && State() == Ledger({}, map[], [])
    {
      bookings, attempts, order := {}, map[], [];
    }

    method AddBooking(bookingId: string)
      requires Valid()
      modifies this
      ensures Valid() && State() == old(State()).(bookings := old(bookings) + {bookingId})
    {
      bookings := bookings + {bookingId};
    }

    method AttemptsFor(bookingId: string) returns (found: seq<Attempt>)
      requires Valid()
      ensures found == AttemptsOf(State(), order, bookingId)
    {
      found := [];
      for i := 0 to |order|
        invariant found == AttemptsOf(State(), order[..i], bookingId)
      {
        assert order[..i + 1][..i] == order[..i];
        var stored := attempts[order[i]];
        if stored.bookingId == bookingId {
          found := found + [stored];
        }
      }
      assert order[..|order|] == order;
    }

    method AttemptByKeyLocked(bookingId: string, key: string) returns (found: Option<Attempt>)
      requires Valid()
      ensures var id := Find(State(), bookingId, key); found == if id.Some? then Some(attempts[id.value]) else None
    {
      for i := 0 to |order|
        invariant Find(State(), bookingId, key) == FindFrom(State(), i, bookingId, key)
      {
        var stored := attempts[order[i]];
        if stored.bookingId == bookingId && stored.key == key {
          return Some(stored);
        }
      }
      return None;
    }

    method BeginAttempt(r: BeginRequest) returns (answer: BeginAnswer)
      requires Valid()
      modifies this
      ensures Valid()
      ensures answer == Begin(old(State()), r) && State() == AfterBegin(old(State()), r)
    {
      if r.attemptId == "" || r.bookingId == "" {
        return BeginRefused(InvalidRequest);
      }
      if !IsKey(r.key) {
        return BeginRefused(InvalidKey);
      }
      if !r.amount.IsValid() {
        return BeginRefused(r.amount.Problem().value);
      }
      if r.bookingId !in bookings {
        return BeginRefused(BookingNotFound);
      }
      var stored := AttemptByKeyLocked(r.bookingId, r.key);
      if stored.Some? {
        if !stored.value.amount.SameAs(r.amount) {
          return BeginRefused(IdempotencyConflict);
        }
        return Replayed(stored.value);
      }
      var openedRow := Attempt(r.attemptId, r.bookingId, r.key, r.amount.Normalised(), Initiated, "", "", r.now, ZERO);
      attempts := attempts[openedRow.id := openedRow];
      order := order + [openedRow.id];
      return Opened(openedRow);
    }

    method SettleAttempt(r: SettleRequest) returns (answer: SettleAnswer)
      requires Valid()
      modifies this
      ensures Valid()
      ensures answer == Settle(old(State()), r) && State() == AfterSettle(old(State()), r)
    {
      if !r.IsValid() {
        return SettleRefused(InvalidRequest, None);
      }
      if r.attemptId !in attempts {
        return SettleRefused(AttemptNotFound, None);
      }
      var stored := attempts[r.attemptId];
      if stored.status.IsSettled() {
        return SettleRefused(AlreadySettled, Some(stored));
      }
      var settled := stored.(status := r.status, providerRef := r.providerRef, failureReason := r.failureReason, settledAt := r.now);
      attempts := attempts[settled.id := settled];
      return Settled(settled);
    }
  }

  // ---- The provider ----

  datatype Outcome = OutcomeSettled | OutcomeDeclined | OutcomeUnreachable

  datatype ChargeResult = Charged(providerRef: string) | ChargeDeclined(reason: string) | ChargeFailed(error: PayError)

  datatype ChargeRequest = ChargeRequest(attemptId: string, reference: string, amount: Amount)

  datatype RefundRequest = RefundRequest(providerRef: string, reference: string, amount: Amount, key: string)

  /** The provider's own record: pinned answers, what it was asked, and the refunds it made by key. */
  datatype Till = Till(forced: map<string, Outcome>, charges: nat, refunds: nat, settledRefunds: map<string, string>)

  const DECLINE_REASON := "the provider declined this charge"

  /** The amount rule: the last two digits decide. */
  function DecideOutcome(amount: Amount): Outcome
    requires amount.cents > 0
  {
    match amount.cents % 100
    case 1 => OutcomeDeclined
    case 2 => OutcomeUnreachable
    case _ => OutcomeSettled
  }

  predicate IsCharge(r: ChargeRequest) {
    r.attemptId != "" && r.reference != "" && r.amount.IsValid()
  }

  function OutcomeOf(t: Till, r: ChargeRequest, fault: bool): Outcome
    requires IsCharge(r)
  {
    if fault then OutcomeUnreachable
    else if r.reference in t.forced then t.forced[r.reference]
    else DecideOutcome(r.amount)
  }

  function Charge(t: Till, r: ChargeRequest, fault: bool): ChargeResult {
    if r.attemptId == "" || r.reference == "" then ChargeFailed(InvalidRequest)
    else if !r.amount.IsValid() then ChargeFailed(r.amount.Problem().value)
    else
      match OutcomeOf(t, r, fault)
      case OutcomeDeclined => ChargeDeclined(DECLINE_REASON)
      case OutcomeUnreachable => ChargeFailed(ProviderUnavailable)
      case OutcomeSettled => Charged("mock_" + r.attemptId)
  }

  /** A call that left is counted, answered or not. */
  function AfterCharge(t: Till, r: ChargeRequest): Till {
    if IsCharge(r) then t.(charges := t.charges + 1) else t
  }

  predicate IsPinnedUnreachable(t: Till, reference: string) {
    reference in t.forced && t.forced[reference].OutcomeUnreachable?
  }

  datatype RefundReply = Refunded(refundRef: string) | RefundFailed(error: PayError)

  function RefundAnswer(t: Till, r: RefundRequest): RefundReply {
    if r.providerRef == "" || r.reference == "" || r.key == "" then RefundFailed(InvalidRequest)
    else if !r.amount.IsValid() then RefundFailed(r.amount.Problem().value)
    else if r.key in t.settledRefunds then Refunded(t.settledRefunds[r.key])
    else if IsPinnedUnreachable(t, r.reference) then RefundFailed(ProviderUnavailable)
    else Refunded("mock_refund_" + r.providerRef)
  }

  /** Money moves once per key. */
  function AfterRefund(t: Till, r: RefundRequest): Till {
    if RefundAnswer(t, r).RefundFailed? || r.key in t.settledRefunds then t
    else t.(settledRefunds := t.settledRefunds[r.key := RefundAnswer(t, r).refundRef], refunds := t.refunds + 1)
  }

  class MockProvider {
    var forced: map<string, Outcome>
    var charges: nat
    var refunds: nat
    var settledRefunds: map<string, string>

    ghost function State(): Till
      reads this
    {
      Till(forced, charges, refunds, settledRefunds)
    }

    constructor ()
      ensures State() == Till(map[], 0, 0, map[])
    {
      forced, charges, refunds, settledRefunds := map[], 0, 0, map[];
    }

    method ForceOutcome(reference: string, outcome: Outcome) returns (refused: bool)
      modifies this
      ensures refused <==> reference == ""
      ensures State() == if refused then old(State()) else old(State()).(forced := old(forced)[reference := outcome])
    {
      if reference == "" {
        return true;
      }
      forced := forced[reference := outcome];
      return false;
    }

    method ChargeOnce(r: ChargeRequest, fault: bool) returns (result: ChargeResult)
      modifies this
      ensures result == Charge(old(State()), r, fault) && State() == AfterCharge(old(State()), r)
    {
      if r.attemptId == "" || r.reference == "" {
        return ChargeFailed(InvalidRequest);
      }
      if !r.amount.IsValid() {
        return ChargeFailed(r.amount.Problem().value);
      }
      charges := charges + 1;
      var outcome := DecideOutcome(r.amount);
      if r.reference in forced {
        outcome := forced[r.reference];
      }
      if fault {
        outcome := OutcomeUnreachable;
      }
      match outcome
      case OutcomeDeclined => return ChargeDeclined(DECLINE_REASON);
      case OutcomeUnreachable => return ChargeFailed(ProviderUnavailable);
      case OutcomeSettled => return Charged("mock_" + r.attemptId);
    }

    method RefundOnce(r: RefundRequest) returns (answer: RefundReply)
      modifies this
      ensures answer == RefundAnswer(old(State()), r) && State() == AfterRefund(old(State()), r)
    {
      if r.providerRef == "" || r.reference == "" || r.key == "" {
        return RefundFailed(InvalidRequest);
      }
      if !r.amount.IsValid() {
        return RefundFailed(r.amount.Problem().value);
      }
      if r.key in settledRefunds {
        return Refunded(settledRefunds[r.key]);
      }
      if r.reference in forced && forced[r.reference] == OutcomeUnreachable {
        return RefundFailed(ProviderUnavailable);
      }
      var settled := "mock_refund_" + r.providerRef;
      settledRefunds := settledRefunds[r.key := settled];
      refunds := refunds + 1;
      return Refunded(settled);
    }
  }

  // ---- The service ----

  datatype PayCommand = PayCommand(bookingId: string, amount: Amount, key: string)

  /** The attempt as far as it got, and the refusal if there was one. */
  datatype PayAnswer = PayAnswer(attempt: Option<Attempt>, error: Option<PayError>)

  function ReplayOf(stored: Attempt): PayAnswer {
    match stored.status
    case Succeeded => PayAnswer(Some(stored), None)
    case Failed => PayAnswer(Some(stored), Some(Declined))
    case Initiated => PayAnswer(Some(stored), Some(AttemptPending))
  }

  /** What settling after the provider's answer comes to. */
  function SettlementOf(a: Attempt, result: ChargeResult, now: Instant): SettleRequest
    requires !result.ChargeFailed?
  {
    if result.ChargeDeclined? then SettleRequest(a.id, Failed, "", result.reason, now)
    else SettleRequest(a.id, Succeeded, result.providerRef, "", now)
  }

  function Refusal(c: PayCommand): Option<PayError> {
    if c.bookingId == "" then Some(InvalidRequest)
    else if !c.amount.IsValid() then c.amount.Problem()
    else if !IsKey(c.key) then Some(InvalidKey)
    else None
  }

  /** One call of Pay: its answer, the ledger and the till afterwards. */
  function PayOnce(l: Ledger, t: Till, c: PayCommand, attemptId: string, begun: Instant, settled: Instant, fault: bool): (PayAnswer, Ledger, Till)
    requires IsOrdered(l)
  {
    if Refusal(c).Some? then (PayAnswer(None, Refusal(c)), l, t)
    else
      var r := BeginRequest(attemptId, c.bookingId, c.key, c.amount, begun);
      var begin := Begin(l, r);
      match begin
      case BeginRefused(e) => (PayAnswer(None, Some(e)), l, t)
      case Replayed(a) => (ReplayOf(a), l, t)
      case Opened(a) =>
        var openedRow := AfterBegin(l, r);
        var ask := ChargeRequest(a.id, a.bookingId, a.amount);
        var result := Charge(t, ask, fault);
        if result.ChargeFailed? then (PayAnswer(Some(a), Some(result.error)), openedRow, AfterCharge(t, ask))
        else
          var close := SettlementOf(a, result, settled);
          var answer := Settle(openedRow, close);
          (match answer
           case Settled(b) => PayAnswer(Some(b), if result.ChargeDeclined? then Some(Declined) else None)
           case SettleRefused(e, seen) => PayAnswer(if result.ChargeDeclined? then None else seen, Some(e)),
           AfterSettle(openedRow, close), AfterCharge(t, ask))
  }

  /** What the trail says of a debt the refund job closed. */
  const REFUND_REASON := "refund settled, booking closed by the worker"

  const REFUND_KEY_PREFIX := "refund_"

  /** The same settled charge always comes to the same key. */
  function RefundKeyFor(attemptId: string): string {
    REFUND_KEY_PREFIX + attemptId
  }

  lemma RefundKeysDiffer(a: string, b: string)
    requires RefundKeyFor(a) == RefundKeyFor(b)
    ensures a == b
  {
    assert RefundKeyFor(a)[|REFUND_KEY_PREFIX|..] == a;
    assert RefundKeyFor(b)[|REFUND_KEY_PREFIX|..] == b;
  }

  predicate IsRefundable(a: Attempt) {
    a.status.Succeeded? && a.providerRef != ""
  }

  /** The first attempt that moved money. */
  function FirstRefundable(attempts: seq<Attempt>): (r: Option<Attempt>)
    ensures r.Some? ==> r.value in attempts && IsRefundable(r.value)
    ensures r.None? ==> forall a :: a in attempts ==> !IsRefundable(a)
  {
    if attempts == [] then None
    else if IsRefundable(attempts[0]) then Some(attempts[0])
    else FirstRefundable(attempts[1..])
  }

  datatype RefundResult = RefundMade(attemptId: string, refundRef: string, amount: Amount) | RefundRefused(error: PayError)

  function RefundRequestFor(a: Attempt): RefundRequest {
    RefundRequest(a.providerRef, a.bookingId, a.amount, RefundKeyFor(a.id))
  }

  function RefundOf(l: Ledger, t: Till, bookingId: string): RefundResult
    requires IsOrdered(l)
  {
    if bookingId == "" then RefundRefused(InvalidRequest)
    else
      var settled := FirstRefundable(AttemptsOf(l, l.order, bookingId));
      if settled.None? then RefundRefused(NothingToRefund)
      else
        var answer := RefundAnswer(t, RefundRequestFor(settled.value));
        if answer.RefundFailed? then RefundRefused(answer.error)
        else RefundMade(settled.value.id, answer.refundRef, settled.value.amount)
  }

  function TillAfterRefundOf(l: Ledger, t: Till, bookingId: string): Till
    requires IsOrdered(l)
  {
    if bookingId == "" then t
    else
      var settled := FirstRefundable(AttemptsOf(l, l.order, bookingId));
      if settled.None? then t else AfterRefund(t, RefundRequestFor(settled.value))
  }

  class PaymentService {
    const repository: MemoryRepository
    const provider: MockProvider

    constructor (repository: MemoryRepository, provider: MockProvider)
      ensures this.repository == repository && this.provider == provider
    {
      this.repository := repository;
      this.provider := provider;
    }

    method Pay(c: PayCommand, attemptId: string, begun: Instant, settledAt: Instant, fault: bool) returns (answer: PayAnswer)
      requires repository.Valid() && attemptId != ""
      modifies repository, provider
      ensures repository.Valid()
      ensures (answer, repository.State(), provider.State())
              == PayOnce(old(repository.State()), old(provider.State()), c, attemptId, begun, settledAt, fault)
    {
      if c.bookingId == "" {
        return PayAnswer(None, Some(InvalidRequest));
      }
      if !c.amount.IsValid() {
        return PayAnswer(None, c.amount.Problem());
      }
      if !IsKey(c.key) {
        return PayAnswer(None, Some(InvalidKey));
      }
      var begin := repository.BeginAttempt(BeginRequest(attemptId, c.bookingId, c.key, c.amount, begun));
      match begin
      case BeginRefused(e) =>
        return PayAnswer(None, Some(e));
      case Replayed(a) =>
        return ReplayOf(a);
      case Opened(a) =>
        var result := provider.ChargeOnce(ChargeRequest(a.id, a.bookingId, a.amount), fault);
        match result
        case ChargeFailed(e) =>
          return PayAnswer(Some(a), Some(e));
        case ChargeDeclined(reason) =>
          var closed := repository.SettleAttempt(SettleRequest(a.id, Failed, "", reason, settledAt));
          match closed {
            case SettleRefused(e, _) => return PayAnswer(None, Some(e));
            case Settled(b) => return PayAnswer(Some(b), Some(Declined));
          }
        case Charged(ref) =>
          var closed := repository.SettleAttempt(SettleRequest(a.id, Succeeded, ref, "", settledAt));
          match closed {
            case SettleRefused(e, seen) => return PayAnswer(seen, Some(e));
            case Settled(b) => return PayAnswer(Some(b), None);
          }
    }

    method Refund(bookingId: string) returns (result: RefundResult)
      requires repository.Valid()
      modifies provider
      ensures result == RefundOf(repository.State(), old(provider.State()), bookingId)
      ensures provider.State() == TillAfterRefundOf(repository.State(), old(provider.State()), bookingId)
    {
      if bookingId == "" {
        return RefundRefused(InvalidRequest);
      }
      var settled := SettledAttempt(bookingId);
      if settled.None? {
        return RefundRefused(NothingToRefund);
      }
      var a := settled.value;
      var answer := provider.RefundOnce(RefundRequest(a.providerRef, a.bookingId, a.amount, RefundKeyFor(a.id)));
      if answer.RefundFailed? {
        return RefundRefused(answer.error);
      }
      return RefundMade(a.id, answer.refundRef, a.amount);
    }

    method SettledAttempt(bookingId: string) returns (settled: Option<Attempt>)
      requires repository.Valid()
      ensures settled == FirstRefundable(AttemptsOf(repository.State(), repository.order, bookingId))
    {
      var attempts := repository.AttemptsFor(bookingId);
      for i := 0 to |attempts|
        invariant FirstRefundable(attempts) == FirstRefundable(attempts[i..])
      {
        if attempts[i].status.Succeeded? && attempts[i].providerRef != "" {
          return Some(attempts[i]);
        }
        assert attempts[i..][1..] == attempts[i + 1..];
      }
      assert attempts[|attempts|..] == [];
      return None;
    }
  }

  // ---- Paying twice under one key ----

  lemma {:induction false} FoundAfterOpening(l: Ledger, a: Attempt, i: nat)
    requires IsOrdered(l) && i <= |l.order| && a.id !in l.attempts
    requires FindFrom(l, i, a.bookingId, a.key).None?
    ensures IsOrdered(Opening(l, a)) && FindFrom(Opening(l, a), i, a.bookingId, a.key) == Some(a.id)
    decreases |l.order| - i
  {
    var after := Opening(l, a);
    if i < |l.order| {
      assert after.order[i] == l.order[i] && after.attempts[l.order[i]] == l.attempts[l.order[i]];
      FoundAfterOpening(l, a, i + 1);
    }
  }

  lemma {:induction false} FoundAfterChange(l: Ledger, m: Ledger, i: nat, bookingId: string, key: string)
    requires IsOrdered(l) && IsOrdered(m) && l.order == m.order && i <= |l.order|
    requires forall k :: 0 <= k < |l.order| ==> HasKey(l.attempts[l.order[k]], bookingId, key) == HasKey(m.attempts[l.order[k]], bookingId, key)
    ensures FindFrom(l, i, bookingId, key) == FindFrom(m, i, bookingId, key)
    decreases |l.order| - i
  {
    if i < |l.order| {
      FoundAfterChange(l, m, i + 1, bookingId, key);
    }
  }

  /** A call that opens an attempt leaves it where the key finds it, settled unless the provider went unanswered. */
  lemma OpenedIsFound(l: Ledger, t: Till, c: PayCommand, id: string, t1: Instant, t2: Instant, fault: bool)
    requires IsOrdered(l) && id != "" && id !in l.attempts
    requires Refusal(c).None? && c.bookingId in l.bookings && Find(l, c.bookingId, c.key).None?
    ensures var (answer, after, _) := PayOnce(l, t, c, id, t1, t2, fault);
            && IsOrdered(after) && Find(after, c.bookingId, c.key) == Some(id)
            && answer.attempt == Some(after.attempts[id])
            && after.attempts[id].amount.SameAs(c.amount)
            && (answer.error == Some(ProviderUnavailable) <==> after.attempts[id].status.Initiated?)
            && (answer.error == None <==> after.attempts[id].status.Succeeded?)
            && (answer.error == Some(Declined) <==> after.attempts[id].status.Failed?)
  {
    var r := BeginRequest(id, c.bookingId, c.key, c.amount, t1);
    var a := OpenedBy(r);
    FoundAfterOpening(l, a, 0);
    var openedRow := Opening(l, a);
    var result := Charge(t, ChargeRequest(id, c.bookingId, a.amount), fault);
    if !result.ChargeFailed? {
      var close := SettlementOf(a, result, t2);
      FoundAfterChange(openedRow, AfterSettle(openedRow, close), 0, c.bookingId, c.key);
    }
  }

  /**
   * The same key twice. A second identical call, whatever it mints and whatever
   * the provider would say now, charges nothing and writes nothing; it gives
   * the first answer again exactly when the provider answered the first call.
   */
  lemma {:induction false} SecondCallRepeatsTheFirst(l: Ledger, t: Till, c: PayCommand, id1: string, id2: string,
                                  t1: Instant, t2: Instant, t3: Instant, t4: Instant, fault1: bool, fault2: bool)
    requires IsOrdered(l) && id1 != "" && id1 !in l.attempts && id2 != ""
    ensures var (first, l1, till1) := PayOnce(l, t, c, id1, t1, t2, fault1);
            && IsOrdered(l1)
            && var (second, l2, till2) := PayOnce(l1, till1, c, id2, t3, t4, fault2);
            && l2 == l1 && till2 == till1
            && (second == first <==> first.error != Some(ProviderUnavailable))
            && (first.error == Some(ProviderUnavailable) ==> second == first.(error := Some(AttemptPending)))
  {
    if Refusal(c).None? && c.bookingId in l.bookings && Find(l, c.bookingId, c.key).None? {
      OpenedIsFound(l, t, c, id1, t1, t2, fault1);
    }
  }
}

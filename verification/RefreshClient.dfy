/**
 * One page of the client, its refresh coordinator, and the server's store.
 *
 * Every event of the page is a step: a request goes out, an answer comes back,
 * a refresh is sent, served, answered, and its promise settles. Steps of
 * different requests interleave freely. What is assumed of the network is that
 * a refresh the server has answered is delivered before its promise settles; a
 * refresh that never reached the server may be lost.
 */
module RefreshClient {
  import opened Collections
  import opened BookingStatus
  import opened RefreshTokens

  type PromiseId = nat
  type RequestId = nat

  // ---- The coordinator ----

  /** Joining the refresh in flight, or starting one under a new promise. */
  function Join(inFlight: Option<PromiseId>, minted: PromiseId): PromiseId {
    if inFlight.Some? then inFlight.value else minted
  }

  class RefreshCoordinator {
    var inFlight: Option<PromiseId>
    var minted: nat

    ghost predicate Valid()
      reads this
    {
      inFlight.Some? ==> inFlight.value < minted
    }

    constructor ()
      ensures Valid() && inFlight == None && minted == 0
    {
      inFlight, minted := None, 0;
    }

    /** Every caller until the promise settles gets the one promise; a new one is a new refresh. */
    method Run() returns (promise: PromiseId, started: bool)
      requires Valid()
      modifies this
      ensures Valid() && inFlight == Some(promise)
      ensures promise == Join(old(inFlight), old(minted))
      ensures started <==> old(inFlight) == None
      ensures minted == old(minted) + if started then 1 else 0
    {
      if inFlight != None {
        return inFlight.value, false;
      }
      var attempt := minted;
      minted := minted + 1;
      inFlight := Some(attempt);
      return attempt, true;
    }

    /** The settled promise is cleared before any waiter runs again. */
    method Settle()
      requires Valid()
      modifies this
      ensures Valid() && inFlight == None && minted == old(minted)
    {
      inFlight := None;
    }
  }

  // ---- The page and the server ----

  /** How far one outgoing request has got. */
  datatype Request = First | Waiting(on: PromiseId) | Second | Finished

  /** How far the promise in flight has got. */
  datatype Stage = Scheduled | OnTheWire | Answered(ok: bool)

  /** A refresh on the network: the cookie it carries, or the cookie it brings back. */
  datatype Message = Asked(token: Hash) | Replied(next: Option<Hash>)

  datatype Page = Page(
    table: Table,
    cookie: Hash,                        // empty when there is none
    inFlight: Option<PromiseId>,
    stage: Stage,
    minted: nat,
    network: map<PromiseId, Message>,
    requests: map<RequestId, Request>,
    sends: map<RequestId, nat>)

  datatype Outcome = Succeeded | TokenAgedOut | Failed

  datatype Step =
    | Start(r: RequestId)
    | FirstAnswer(r: RequestId, outcome: Outcome)
    | SecondAnswer(r: RequestId)
    | SendRefresh
    | Serve(p: PromiseId, rotate: RotateRequest, accountMissing: bool)
    | LoseRefresh(p: PromiseId)
    | Deliver(p: PromiseId)
    | SettleIt
    | SignIn(issue: IssueRequest)

  predicate Enabled(s: Page, step: Step) {
    match step
    case Start(r) => r !in s.requests
    case FirstAnswer(r, _) => r in s.requests && s.requests[r].First?
    case SecondAnswer(r) => r in s.requests && s.requests[r].Second?
    case SendRefresh => s.inFlight.Some? && s.stage.Scheduled?
    case Serve(p, q, _) =>
      && p in s.network && s.network[p].Asked? && q.presented == s.network[p].token
      && (q.presented != "" ==> q.IsValid()) && q.nextHash !in s.table
    case LoseRefresh(p) => p in s.network && s.network[p].Asked?
    case Deliver(p) => p in s.network && s.network[p].Replied?
    case SettleIt => s.inFlight.Some? && s.stage.Answered?
    case SignIn(i) => i.IsValid() && i.tokenHash !in s.table
  }


  /** What the server sends back for a refresh: the next cookie, or word to clear it. */
  function ReplyTo(table: Table, q: RotateRequest, accountMissing: bool): Message {
    if RotateAnswer(table, q).Written? && !accountMissing then Replied(Some(q.nextHash)) else Replied(None)
  }

  function Fire(s: Page, step: Step): Page
    requires Enabled(s, step)
  {
    match step
    case Start(r) =>
      s.(requests := s.requests[r := First], sends := s.sends[r := 1])
    case FirstAnswer(r, outcome) =>
      if !outcome.TokenAgedOut? then s.(requests := s.requests[r := Finished])
      else
        var joined := s.(requests := s.requests[r := Waiting(Join(s.inFlight, s.minted))]);
        if s.inFlight.Some? then joined
        else joined.(inFlight := Some(s.minted), stage := Scheduled, minted := s.minted + 1)
    case SecondAnswer(r) =>
      s.(requests := s.requests[r := Finished])
    case SendRefresh =>
      s.(stage := OnTheWire, network := s.network[s.inFlight.value := Asked(s.cookie)])
    case Serve(p, q, accountMissing) =>
      s.(table := RotateTable(s.table, q), network := s.network[p := ReplyTo(s.table, q, accountMissing)])
    case LoseRefresh(p) =>
      s.(network := s.network - {p}, stage := Answered(false))
    case Deliver(p) =>
      s.(network := s.network - {p},
         cookie := if s.network[p].next.Some? then s.network[p].next.value else "",
         stage := Answered(s.network[p].next.Some?))
    case SettleIt =>
      var p := s.inFlight.value;
      var ok := s.stage.ok;
      s.(inFlight := None,
         requests := map r | r in s.requests ::
           if s.requests[r] == Waiting(p) then (if ok then Second else Finished) else s.requests[r],
         sends := map r | r in s.sends ::
           if r in s.requests && s.requests[r] == Waiting(p) && ok then s.sends[r] + 1 else s.sends[r])
    case SignIn(i) =>
      s.(table := IssueTable(s.table, i), cookie := i.tokenHash)
  }

  predicate IsRun(s: Page, steps: seq<Step>)
    decreases |steps|
  {
    steps == [] || (Enabled(s, steps[0]) && IsRun(Fire(s, steps[0]), steps[1..]))
  }

  function Exec(s: Page, steps: seq<Step>): Page
    requires IsRun(s, steps)
    decreases |steps|
  {
    if steps == [] then s else Exec(Fire(s, steps[0]), steps[1..])
  }

  // ---- The invariant ----

  /** A token the server would not call reused. */
  predicate Unspent(table: Table, h: Hash) {
    h == "" || (h in table && !table[h].IsRevoked())
  }

  predicate RequestOk(s: Page, r: RequestId)
    requires r in s.requests
  {
    && r in s.sends
    && match s.requests[r]
       case First => s.sends[r] == 1
       case Waiting(p) => s.sends[r] == 1 && s.inFlight == Some(p)
       case Second => s.sends[r] == 2
       case Finished => s.sends[r] <= 2
  }

  predicate PageOk(s: Page) {
    && "" !in s.table
    && (s.inFlight.Some? ==> s.inFlight.value < s.minted)
    && s.network.Keys == (if s.inFlight.Some? && s.stage.OnTheWire? then {s.inFlight.value} else {})
    && (forall p :: p in s.network ==>
         match s.network[p]
         case Asked(h) => Unspent(s.table, h)
         case Replied(h) => h.Some? ==> h.value != "" && Unspent(s.table, h.value))
    && ((forall p :: p in s.network ==> s.network[p].Asked?) ==> Unspent(s.table, s.cookie))
    && (forall r :: r in s.requests ==> RequestOk(s, r))
  }

  /** Serving a refresh whose token is unspent is never a reuse, and spends no other token. */
  lemma ServeIsClean(table: Table, q: RotateRequest)
    requires "" !in table && Unspent(table, q.presented) && q.nextHash !in table
    ensures RotateAnswer(table, q) != Refused(TokenReused)
    ensures "" !in RotateTable(table, q)
    ensures forall h :: h in table && h != q.presented ==> h in RotateTable(table, q) && RotateTable(table, q)[h] == table[h]
    ensures RotateAnswer(table, q).Written? ==> q.nextHash != "" && Unspent(RotateTable(table, q), q.nextHash)
  {
  }

  lemma ServeKeeps(s: Page, p: PromiseId, q: RotateRequest, accountMissing: bool)
    requires PageOk(s) && Enabled(s, Serve(p, q, accountMissing))
    ensures PageOk(Fire(s, Serve(p, q, accountMissing)))
  {
    ServeIsClean(s.table, q);
    var t := Fire(s, Serve(p, q, accountMissing));
    forall r | r in t.requests ensures RequestOk(t, r) {
      assert RequestOk(s, r);
    }
  }

  lemma SettleKeeps(s: Page)
    requires PageOk(s) && Enabled(s, SettleIt)
    ensures PageOk(Fire(s, SettleIt))
  {
    var t := Fire(s, SettleIt);
    forall r | r in t.requests ensures RequestOk(t, r) {
      assert RequestOk(s, r);
    }
  }

  lemma FireKeeps(s: Page, step: Step)
    requires PageOk(s) && Enabled(s, step)
    ensures PageOk(Fire(s, step))
  {
    match step
    case Serve(p, q, accountMissing) => ServeKeeps(s, p, q, accountMissing);
    case SettleIt => SettleKeeps(s);
    case _ =>
      var t := Fire(s, step);
      forall r | r in t.requests ensures RequestOk(t, r) {
        if r in s.requests {
          assert RequestOk(s, r);
        }
      }
  }

  predicate ReportsReuse(s: Page, step: Step) {
    step.Serve? && RotateAnswer(s.table, step.rotate) == Refused(TokenReused)
  }

  /**
   * However requests, 401s, refreshes and sign ins interleave: at most one
   * refresh is on the network, no request goes out more than twice, nobody
   * waits on a promise that has settled, and the server never sees a spent token.
   */
  lemma {:induction false} OneRefreshNoReuse(s: Page, steps: seq<Step>, n: nat)
    requires PageOk(s) && IsRun(s, steps) && n <= |steps|
    ensures IsRun(s, steps[..n])
    ensures var t := Exec(s, steps[..n]);
            && PageOk(t)
            && |t.network| <= 1
            && (forall r :: r in t.requests ==> r in t.sends && t.sends[r] <= 2)
            && (forall r :: r in t.requests && t.requests[r].Waiting? ==> t.inFlight == Some(t.requests[r].on))
            && (n < |steps| ==> Enabled(t, steps[n]) && !ReportsReuse(t, steps[n]))
    decreases n
  {
    if n == 0 {
      OkMeans(s);
      if 0 < |steps| {
        NoReuseNow(s, steps[0]);
      }
    } else {
      FireKeeps(s, steps[0]);
      var next := Fire(s, steps[0]);
      OneRefreshNoReuse(next, steps[1..], n - 1);
      assert steps[..n][1..] == steps[1..][..n - 1];
      if n < |steps| {
        assert steps[1..][n - 1] == steps[n];
      }
    }
  }

  lemma OkMeans(t: Page)
    requires PageOk(t)
    ensures |t.network| <= 1
    ensures forall r :: r in t.requests ==> r in t.sends && t.sends[r] <= 2
    ensures forall r :: r in t.requests && t.requests[r].Waiting? ==> t.inFlight == Some(t.requests[r].on)
  {
    assert |t.network| == |t.network.Keys|;
    forall r | r in t.requests
      ensures r in t.sends && t.sends[r] <= 2
      ensures t.requests[r].Waiting? ==> t.inFlight == Some(t.requests[r].on)
    {
      assert RequestOk(t, r);
    }
  }

  lemma NoReuseNow(s: Page, step: Step)
    requires PageOk(s) && Enabled(s, step)
    ensures !ReportsReuse(s, step)
  {
    if step.Serve? {
      ServeIsClean(s.table, step.rotate);
    }
  }

  /** Delivery is what this rests on: were an answer lost on the way back, the page's next refresh would read as a theft. */
  lemma LostAnswerReadsAsReuse(table: Table, q: RotateRequest, again: RotateRequest)
    requires RotateAnswer(table, q).Written? && again.IsValid() && again.presented == q.presented
    ensures RotateAnswer(RotateTable(table, q), again) == Refused(TokenReused)
  {
  }
}

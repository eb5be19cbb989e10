/**
 * Fiat ramp status: webhooks and reconciliation moving one ledger row up a rank
 * (src/services/ramp/ramp.service.ts). A handler is one step.
 */
module Ramp {
  import opened Common

  datatype Status = PENDING | PROCESSING | FAILED | COMPLETED

  function Rank(s: Status): nat {
    match s
    case PENDING => 0
    case PROCESSING => 1
    case FAILED => 2
    case COMPLETED => 3
  }

  /** The four statuses as the ladder they are climbed: open, then FAILED, then COMPLETED over everything. */
  predicate Above(high: Status, low: Status) {
    match high
    case PENDING => false
    case PROCESSING => low == PENDING
    case FAILED => low == PENDING || low == PROCESSING
    case COMPLETED => low != COMPLETED
  }

  lemma RankIsLadder(high: Status, low: Status)
    ensures Rank(high) > Rank(low) <==> Above(high, low)
  {
  }

  datatype RampRow = RampRow(
    status: Status, providerReference: Option<string>, failureReason: Option<string>,
    providerStatusRaw: Option<Status>, providerAmountNgn: Option<string>)

  datatype EventRow = EventRow(reference: string, status: Status, signatureValid: bool, processed: bool)

  /** One arrival of a provider event; the empty reference stands for a missing one. */
  datatype Delivery = Delivery(
    provider: string, eventId: string, reference: string, status: Status, signatureValid: bool,
    providerReference: Option<string>, failureReason: Option<string>, amountNgn: string)

  /** What asking the provider comes to. */
  datatype Answer =
    | Unconfigured
    | Reported(status: Status, failureReason: Option<string>)
    | ProviderError(statusCode: Option<int>)
    | OtherError

  datatype Refusal = NoReference | Duplicate | UnmatchedReference | InvalidSignature | StaleStatus

  datatype Reply =
    | Applied
    | NotApplied(reason: Refusal)
    | Reconciled(status: Option<Status>, applied: bool)

  type EventKey = (string, string)

  datatype State = State(rows: map<string, RampRow>, events: map<EventKey, EventRow>)

  datatype Action = Webhook(d: Delivery) | Reconcile(reference: string, answer: Answer)

  const PROVIDER_FAILURE: string := "The provider reported a failure"
  const NO_RECORD: string := "The provider has no record of this transaction"

  function Key(d: Delivery): EventKey { (d.provider, d.eventId) }

  function OrElse<T>(x: Option<T>, y: Option<T>): Option<T> {
    if x.Some? then x else y
  }

  /** The row after an applied event. */
  function Moved(row: RampRow, d: Delivery): RampRow {
    RampRow(d.status, OrElse(d.providerReference, row.providerReference),
            OrElse(d.failureReason, if d.status == FAILED then Some(PROVIDER_FAILURE) else row.failureReason),
            Some(d.status), if d.amountNgn != "" then Some(d.amountNgn) else row.providerAmountNgn)
  }

  function WebhookReply(s: State, d: Delivery): Reply {
    if d.reference == "" then NotApplied(NoReference)
    else if Key(d) in s.events then NotApplied(Duplicate)
    else if d.reference !in s.rows then NotApplied(UnmatchedReference)
    else if !d.signatureValid then NotApplied(InvalidSignature)
    else if Rank(s.rows[d.reference].status) >= Rank(d.status) then NotApplied(StaleStatus)
    else Applied
  }

  function AfterWebhook(s: State, d: Delivery): State {
    var reply := WebhookReply(s, d);
    if reply == NotApplied(NoReference) || reply == NotApplied(Duplicate) then s
    else State(if reply == Applied then s.rows[d.reference := Moved(s.rows[d.reference], d)] else s.rows,
               s.events[Key(d) := EventRow(d.reference, d.status, d.signatureValid,
                                           reply != NotApplied(InvalidSignature))])
  }

  /** Where reconciliation takes an open row: the reported status when it ranks higher, FAILED on a 404. */
  function Target(row: RampRow, answer: Answer): Option<Status> {
    if row.status == COMPLETED || row.status == FAILED then None
    else match answer
      case Reported(status, _) => if Rank(row.status) >= Rank(status) then None else Some(status)
      case ProviderError(code) => if code == Some(404) then Some(FAILED) else None
      case _ => None
  }

  function Settled(row: RampRow, status: Status, answer: Answer): RampRow {
    if answer.Reported?
    then row.(status := status, failureReason := OrElse(answer.failureReason, row.failureReason),
              providerStatusRaw := Some(status))
    else row.(status := status, failureReason := Some(NO_RECORD))
  }

  function AfterReconcile(s: State, reference: string, answer: Answer): State {
    if reference !in s.rows then s
    else
      var row := s.rows[reference];
      match Target(row, answer)
      case None => s
      case Some(status) =>
        s.(rows := s.rows[reference := Settled(row, status, answer)])
  }

  /** A 404 moves the row but is answered with the status found before it. */
  function ReconcileReply(s: State, reference: string, answer: Answer): Reply {
    if reference !in s.rows then Reconciled(None, false)
    else
      var row := s.rows[reference];
      match Target(row, answer)
      case None => Reconciled(Some(row.status), false)
      case Some(status) =>
        if answer.Reported? then Reconciled(Some(status), true) else Reconciled(Some(row.status), false)
  }

  function Step(s: State, act: Action): State {
    match act
    case Webhook(d) => AfterWebhook(s, d)
    case Reconcile(reference, answer) => AfterReconcile(s, reference, answer)
  }

  function Run(s: State, acts: seq<Action>): State {
    if acts == [] then s else Step(Run(s, acts[..|acts| - 1]), acts[|acts| - 1])
  }

  // ----- what any mix of handlers keeps

  /**
   * A row exists throughout, climbs only, and stops at COMPLETED; only a webhook leaves FAILED. Event rows are
   * never rewritten.
   */
  lemma {:induction false} RankNeverFalls(s: State, acts: seq<Action>, r: string)
    requires r in s.rows
    ensures var t := Run(s, acts);
            && t.rows.Keys == s.rows.Keys
            && Rank(t.rows[r].status) >= Rank(s.rows[r].status)
            && (t.rows[r].status == s.rows[r].status && (forall act :: act in acts ==> act.Webhook?) ==>
                  t.rows[r] == s.rows[r])
            && (s.rows[r].status == COMPLETED ==> t.rows[r] == s.rows[r])
            && (s.rows[r].status == FAILED && (forall act :: act in acts ==> act.Reconcile?) ==> t.rows[r] == s.rows[r])
            && forall k :: k in s.events ==> k in t.events && t.events[k] == s.events[k]
  {
    if acts != [] {
      var before := acts[..|acts| - 1];
      assert acts[|acts| - 1] in acts;
      forall act | act in before ensures act in acts { }
      RankNeverFalls(s, before, r);
    }
  }

  /** Someone said `status` of row `r`: a signed webhook, a report, or for FAILED a provider that knows no such row. */
  ghost predicate Said(acts: seq<Action>, r: string, status: Status) {
    || (exists d :: Webhook(d) in acts && d.reference == r && d.signatureValid && d.status == status)
    || (exists why :: Reconcile(r, Reported(status, why)) in acts)
    || (status == FAILED && Reconcile(r, ProviderError(Some(404))) in acts)
  }

  /** Any mix of handlers leaves a row where it started or at a status someone said of it. */
  lemma {:induction false} StatusWasSaid(s: State, acts: seq<Action>, r: string)
    requires r in s.rows
    ensures r in Run(s, acts).rows
    ensures Run(s, acts).rows[r].status == s.rows[r].status || Said(acts, r, Run(s, acts).rows[r].status)
  {
    if acts != [] {
      var before, act := acts[..|acts| - 1], acts[|acts| - 1];
      StatusWasSaid(s, before, r);
      if Said(before, r, Run(s, before).rows[r].status) { SaidStays(before, acts, r, Run(s, before).rows[r].status); }
      SaidNow(Run(s, before), acts, act, r);
    }
  }

  lemma SaidStays(before: seq<Action>, acts: seq<Action>, r: string, status: Status)
    requires before <= acts && Said(before, r, status)
    ensures Said(acts, r, status)
  {
    forall act | act in before ensures act in acts { }
  }

  lemma SaidNow(s: State, acts: seq<Action>, act: Action, r: string)
    requires r in s.rows && act in acts
    ensures r in Step(s, act).rows
    ensures Step(s, act).rows[r].status != s.rows[r].status ==> Said(acts, r, Step(s, act).rows[r].status)
  {
  }

  // ----- webhooks alone converge

  function Webhooks(ds: seq<Delivery>): (acts: seq<Action>)
    ensures |acts| == |ds| && forall i :: 0 <= i < |ds| ==> acts[i] == Webhook(ds[i])
  {
    seq(|ds|, i requires 0 <= i < |ds| => Webhook(ds[i]))
  }

  function Deliver(s: State, ds: seq<Delivery>): State {
    Run(s, Webhooks(ds))
  }

  lemma DeliverLast(s: State, ds: seq<Delivery>)
    requires ds != []
    ensures Deliver(s, ds) == AfterWebhook(Deliver(s, ds[..|ds| - 1]), ds[|ds| - 1])
  {
    assert Webhooks(ds)[..|ds| - 1] == Webhooks(ds[..|ds| - 1]);
  }

  /** The first arrival of an event that carries a reference. */
  predicate FirstArrival(s: State, ds: seq<Delivery>, i: nat)
    requires i < |ds|
  {
    && ds[i].reference != "" && Key(ds[i]) !in s.events
    && forall j :: 0 <= j < i ==> ds[j].reference == "" || Key(ds[j]) != Key(ds[i])
  }

  /** An arrival that may move row `r`. */
  predicate Counts(s: State, ds: seq<Delivery>, i: nat, r: string)
    requires i < |ds|
  {
    FirstArrival(s, ds, i) && ds[i].reference == r && ds[i].signatureValid
  }

  /** The events on record are the earlier ones and the first arrivals. */
  lemma {:induction false} EventsRecorded(s: State, ds: seq<Delivery>, k: EventKey)
    ensures k in Deliver(s, ds).events <==>
              k in s.events || exists i :: 0 <= i < |ds| && ds[i].reference != "" && Key(ds[i]) == k
  {
    if ds == [] {
      assert Webhooks(ds) == [];
    } else {
      var n := |ds| - 1;
      DeliverLast(s, ds);
      EventsRecorded(s, ds[..n], k);
      forall i | 0 <= i < n ensures ds[..n][i] == ds[i] { }
    }
  }

  /** `status` is the highest-ranked of the starting status and the first arrivals for `r`. */
  ghost predicate Highest(s: State, ds: seq<Delivery>, r: string, status: Status)
    requires r in s.rows
  {
    && Rank(status) >= Rank(s.rows[r].status)
    && (forall i :: 0 <= i < |ds| && Counts(s, ds, i, r) ==> Rank(status) >= Rank(ds[i].status))
    && (status == s.rows[r].status || exists i :: 0 <= i < |ds| && Counts(s, ds, i, r) && ds[i].status == status)
  }

  lemma PrefixCounts(s: State, ds: seq<Delivery>, n: nat, i: nat, r: string)
    requires i < n <= |ds|
    ensures Counts(s, ds[..n], i, r) <==> Counts(s, ds, i, r)
  {
    forall j | 0 <= j <= i ensures ds[..n][j] == ds[j] { }
  }

  /** One more delivery keeps the status highest. */
  lemma HighestStep(s: State, ds: seq<Delivery>, r: string, before: Status, after: Status)
    requires r in s.rows && ds != [] && Highest(s, ds[..|ds| - 1], r, before)
    requires var last := |ds| - 1;
             after == if Counts(s, ds, last, r) && Rank(ds[last].status) > Rank(before) then ds[last].status else before
    ensures Highest(s, ds, r, after)
  {
    var n := |ds| - 1;
    forall i | 0 <= i < n ensures ds[..n][i] == ds[i] && (Counts(s, ds[..n], i, r) <==> Counts(s, ds, i, r)) {
      PrefixCounts(s, ds, n, i, r);
    }
  }

  /** Webhooks alone leave the highest status that the start and the first arrivals offer, whatever came in between. */
  lemma {:induction false} WebhooksReachHighest(s: State, ds: seq<Delivery>, r: string)
    requires r in s.rows
    ensures r in Deliver(s, ds).rows && Highest(s, ds, r, Deliver(s, ds).rows[r].status)
  {
    if ds == [] {
      assert Webhooks(ds) == [];
    } else {
      var n := |ds| - 1;
      DeliverLast(s, ds);
      WebhooksReachHighest(s, ds[..n], r);
      EventsRecorded(s, ds[..n], Key(ds[n]));
      RankNeverFalls(s, Webhooks(ds[..n]), r);
      forall i | 0 <= i < n ensures ds[..n][i] == ds[i] { }
      HighestStep(s, ds, r, Deliver(s, ds[..n]).rows[r].status, Deliver(s, ds).rows[r].status);
    }
  }

  /** Every event id with a reference carries one reference, one status and one verdict on its signature. */
  ghost predicate Consistent(ds: seq<Delivery>) {
    forall i, j ::
      0 <= i < |ds| && 0 <= j < |ds| && ds[i].reference != "" && ds[j].reference != "" && Key(ds[i]) == Key(ds[j]) ==>
      ds[i].reference == ds[j].reference && ds[i].status == ds[j].status && ds[i].signatureValid == ds[j].signatureValid
  }

  ghost predicate SameDeliveries(ds: seq<Delivery>, es: seq<Delivery>) {
    forall d :: d in ds <==> d in es
  }

  lemma {:induction false} FirstOfItsId(s: State, ds: seq<Delivery>, i: nat) returns (j: nat)
    requires i < |ds| && ds[i].reference != "" && Key(ds[i]) !in s.events
    ensures j <= i && Key(ds[j]) == Key(ds[i]) && FirstArrival(s, ds, j)
  {
    if k: nat :| k < i && ds[k].reference != "" && Key(ds[k]) == Key(ds[i]) {
      j := FirstOfItsId(s, ds, k);
    } else {
      j := i;
    }
  }

  /** What one order reaches, another order of the same deliveries reaches too. */
  lemma ReachesAsHigh(s: State, ds: seq<Delivery>, es: seq<Delivery>, r: string, a: Status, b: Status)
    requires r in s.rows && Consistent(ds) && SameDeliveries(ds, es)
    requires Highest(s, ds, r, a) && Highest(s, es, r, b)
    ensures Rank(a) <= Rank(b)
  {
    if a != s.rows[r].status {
      var i :| 0 <= i < |ds| && Counts(s, ds, i, r) && ds[i].status == a;
      assert ds[i] in es;
      var k :| 0 <= k < |es| && es[k] == ds[i];
      var j := FirstOfItsId(s, es, k);
      assert es[j] in ds;
      assert Counts(s, es, j, r) && es[j].status == a;
    }
  }

  /** Reordering and redelivery do not change where a row ends, when every event id says one thing. */
  lemma OrderDoesNotMatter(s: State, ds: seq<Delivery>, es: seq<Delivery>, r: string)
    requires r in s.rows && Consistent(ds) && SameDeliveries(ds, es)
    ensures r in Deliver(s, ds).rows && r in Deliver(s, es).rows
    ensures Deliver(s, ds).rows[r].status == Deliver(s, es).rows[r].status
  {
    WebhooksReachHighest(s, ds, r);
    WebhooksReachHighest(s, es, r);
    var a, b := Deliver(s, ds).rows[r].status, Deliver(s, es).rows[r].status;
    forall i, j | 0 <= i < |es| && 0 <= j < |es| && es[i].reference != "" && es[j].reference != ""
        && Key(es[i]) == Key(es[j])
      ensures es[i].reference == es[j].reference && es[i].status == es[j].status
              && es[i].signatureValid == es[j].signatureValid
    {
      assert es[i] in ds && es[j] in ds;
    }
    ReachesAsHigh(s, ds, es, r, a, b);
    ReachesAsHigh(s, es, ds, r, b, a);
  }

  // ----- exactly when order does not matter

  /** A delivery that moves row `r` when it is the first of its id. */
  predicate Candidate(s: State, d: Delivery, r: string) {
    d.reference != "" && Key(d) !in s.events && d.reference == r && d.signatureValid
  }

  /** No candidate outranks the start. */
  ghost predicate NothingToReach(s: State, ds: seq<Delivery>, r: string)
    requires r in s.rows
  {
    forall d :: d in ds && Candidate(s, d, r) ==> Rank(d.status) <= Rank(s.rows[r].status)
  }

  /** `d` reaches the top rank, and so does whatever else arrives under its id. */
  ghost predicate SureTop(s: State, ds: seq<Delivery>, r: string, d: Delivery) {
    && d in ds && Candidate(s, d, r)
    && (forall x :: x in ds && Candidate(s, x, r) ==> Rank(x.status) <= Rank(d.status))
    && (forall x :: x in ds && x.reference != "" && Key(x) == Key(d) ==> Candidate(s, x, r) && x.status == d.status)
  }

  /** All orders and redeliveries of the same deliveries leave row `r` at one status. */
  ghost predicate OrderIrrelevant(s: State, ds: seq<Delivery>, r: string)
    requires r in s.rows
  {
    forall es: seq<Delivery> | SameDeliveries(ds, es) :: FinalStatus(s, es, r) == FinalStatus(s, ds, r)
  }

  function FinalStatus(s: State, ds: seq<Delivery>, r: string): Option<Status> {
    if r in Deliver(s, ds).rows then Some(Deliver(s, ds).rows[r].status) else None
  }

  lemma CountsIsCandidate(s: State, ds: seq<Delivery>, i: nat, r: string)
    requires i < |ds| && Counts(s, ds, i, r)
    ensures ds[i] in ds && Candidate(s, ds[i], r)
  {
  }

  lemma NothingToReachStays(s: State, ds: seq<Delivery>, r: string)
    requires r in s.rows && NothingToReach(s, ds, r)
    ensures FinalStatus(s, ds, r) == Some(s.rows[r].status)
  {
    WebhooksReachHighest(s, ds, r);
    forall i | 0 <= i < |ds| && Counts(s, ds, i, r) ensures Rank(ds[i].status) <= Rank(s.rows[r].status) {
      CountsIsCandidate(s, ds, i, r);
    }
  }

  /** A sure top is reached in any order. */
  lemma SureTopReached(s: State, ds: seq<Delivery>, r: string, d: Delivery)
    requires r in s.rows && SureTop(s, ds, r, d) && Rank(d.status) > Rank(s.rows[r].status)
    ensures FinalStatus(s, ds, r) == Some(d.status)
  {
    WebhooksReachHighest(s, ds, r);
    var a := Deliver(s, ds).rows[r].status;
    var k :| 0 <= k < |ds| && ds[k] == d;
    var j := FirstOfItsId(s, ds, k);
    assert ds[j] in ds && Counts(s, ds, j, r) && ds[j].status == d.status;
    if a != s.rows[r].status {
      var i :| 0 <= i < |ds| && Counts(s, ds, i, r) && ds[i].status == a;
      CountsIsCandidate(s, ds, i, r);
    }
  }

  /** The deliveries that do not move `r` to `top`, in their order. */
  function Weaker(s: State, ds: seq<Delivery>, r: string, top: Status): (es: seq<Delivery>)
    ensures forall d :: d in es <==> d in ds && !(Candidate(s, d, r) && d.status == top)
  {
    if ds == [] then []
    else
      var d := ds[|ds| - 1];
      assert ds == ds[..|ds| - 1] + [d];
      Weaker(s, ds[..|ds| - 1], r, top) + (if Candidate(s, d, r) && d.status == top then [] else [d])
  }

  /** Putting `top` first reaches it. */
  lemma TopFirst(s: State, ds: seq<Delivery>, r: string, d: Delivery)
    requires r in s.rows && d in ds && Candidate(s, d, r) && Rank(d.status) > Rank(s.rows[r].status)
    requires forall x :: x in ds && Candidate(s, x, r) ==> Rank(x.status) <= Rank(d.status)
    ensures SameDeliveries(ds, [d] + ds) && FinalStatus(s, [d] + ds, r) == Some(d.status)
  {
    var es := [d] + ds;
    WebhooksReachHighest(s, es, r);
    var a := Deliver(s, es).rows[r].status;
    assert es[0] == d && Counts(s, es, 0, r);
    if a != s.rows[r].status {
      var i :| 0 <= i < |es| && Counts(s, es, i, r) && es[i].status == a;
      CountsIsCandidate(s, es, i, r);
      assert es[i] in ds;
    }
  }

  /** Putting everything else first keeps `top` out, when every id that reaches it can also say something else. */
  lemma TopLast(s: State, ds: seq<Delivery>, r: string, top: Status)
    requires r in s.rows && Rank(top) > Rank(s.rows[r].status)
    requires forall d :: d in ds && Candidate(s, d, r) && d.status == top ==>
               exists x :: x in ds && x.reference != "" && Key(x) == Key(d) && !(Candidate(s, x, r) && x.status == top)
    ensures SameDeliveries(ds, Weaker(s, ds, r, top) + ds) && FinalStatus(s, Weaker(s, ds, r, top) + ds, r) != Some(top)
  {
    var es := Weaker(s, ds, r, top) + ds;
    WebhooksReachHighest(s, es, r);
    forall i | 0 <= i < |es| && Candidate(s, es[i], r) && es[i].status == top ensures !FirstArrival(s, es, i) {
      EarlierRival(s, ds, r, top, i);
    }
  }

  /** An arrival that would reach `top` comes after a rival of its own id. */
  lemma EarlierRival(s: State, ds: seq<Delivery>, r: string, top: Status, i: nat)
    requires var es := Weaker(s, ds, r, top) + ds;
             && i < |es| && Candidate(s, es[i], r) && es[i].status == top
             && exists x ::
                  x in ds && x.reference != "" && Key(x) == Key(es[i]) && !(Candidate(s, x, r) && x.status == top)
    ensures !FirstArrival(s, Weaker(s, ds, r, top) + ds, i)
  {
    var weaker := Weaker(s, ds, r, top);
    var es := weaker + ds;
    assert forall k :: 0 <= k < |weaker| ==> es[k] in weaker;
    var x :| x in ds && x.reference != "" && Key(x) == Key(es[i]) && !(Candidate(s, x, r) && x.status == top);
    assert x in weaker;
    var j :| 0 <= j < |weaker| && weaker[j] == x;
    assert es[j] == x && j < i;
  }

  /** Some candidate has the highest rank among candidates. */
  lemma {:induction false} TopCandidate(s: State, ds: seq<Delivery>, r: string) returns (top: Option<Delivery>)
    ensures top.None? ==> forall x :: x in ds ==> !Candidate(s, x, r)
    ensures top.Some? ==>
              && top.value in ds && Candidate(s, top.value, r)
              && forall x :: x in ds && Candidate(s, x, r) ==> Rank(x.status) <= Rank(top.value.status)
  {
    if ds == [] {
      top := None;
    } else {
      var d := ds[|ds| - 1];
      assert ds == ds[..|ds| - 1] + [d];
      top := TopCandidate(s, ds[..|ds| - 1], r);
      if Candidate(s, d, r) && (top.None? || Rank(d.status) > Rank(top.value.status)) { top := Some(d); }
    }
  }

  /**
   * All orders and redeliveries of the deliveries agree on row `r` exactly when nothing in them outranks
   * where it stands, or some event id reaches the top rank whatever arrives under it.
   */
  lemma OrderIrrelevantIff(s: State, ds: seq<Delivery>, r: string)
    requires r in s.rows
    ensures OrderIrrelevant(s, ds, r) <==> NothingToReach(s, ds, r) || exists d :: SureTop(s, ds, r, d)
  {
    if NothingToReach(s, ds, r) {
      NothingToReachAgrees(s, ds, r);
    } else if d :| SureTop(s, ds, r, d) {
      SureTopAgrees(s, ds, r, d);
    } else {
      OrderMatters(s, ds, r);
    }
  }

  lemma NothingToReachAgrees(s: State, ds: seq<Delivery>, r: string)
    requires r in s.rows && NothingToReach(s, ds, r)
    ensures OrderIrrelevant(s, ds, r)
  {
    NothingToReachStays(s, ds, r);
    forall es: seq<Delivery> | SameDeliveries(ds, es) ensures FinalStatus(s, es, r) == FinalStatus(s, ds, r) {
      NothingToReachStays(s, es, r);
    }
  }

  lemma SureTopAgrees(s: State, ds: seq<Delivery>, r: string, d: Delivery)
    requires r in s.rows && SureTop(s, ds, r, d) && !NothingToReach(s, ds, r)
    ensures OrderIrrelevant(s, ds, r)
  {
    SureTopReached(s, ds, r, d);
    forall es: seq<Delivery> | SameDeliveries(ds, es) ensures FinalStatus(s, es, r) == FinalStatus(s, ds, r) {
      assert SureTop(s, es, r, d);
      SureTopReached(s, es, r, d);
    }
  }

  /** An id that reaches the top and is not sure to has a rival arrival. */
  lemma RivalArrives(s: State, ds: seq<Delivery>, r: string, top: Delivery, d: Delivery)
    requires d in ds && Candidate(s, d, r) && d.status == top.status && !SureTop(s, ds, r, d)
    requires forall x :: x in ds && Candidate(s, x, r) ==> Rank(x.status) <= Rank(top.status)
    ensures exists y ::
              y in ds && y.reference != "" && Key(y) == Key(d) && !(Candidate(s, y, r) && y.status == top.status)
  {
  }

  /** Two orders that disagree. */
  lemma OrdersDiffer(s: State, ds: seq<Delivery>, r: string, first: seq<Delivery>, last: seq<Delivery>)
    requires r in s.rows && SameDeliveries(ds, first) && SameDeliveries(ds, last)
    requires FinalStatus(s, first, r) != FinalStatus(s, last, r)
    ensures !OrderIrrelevant(s, ds, r)
  {
  }

  lemma OrderMatters(s: State, ds: seq<Delivery>, r: string)
    requires r in s.rows && !NothingToReach(s, ds, r) && forall d :: !SureTop(s, ds, r, d)
    ensures !OrderIrrelevant(s, ds, r)
  {
    var top := TopCandidate(s, ds, r);
    var d := top.value;
    TopFirst(s, ds, r, d);
    forall x | x in ds && Candidate(s, x, r) && x.status == d.status
      ensures exists y ::
                y in ds && y.reference != "" && Key(y) == Key(x) && !(Candidate(s, y, r) && y.status == d.status)
    {
      RivalArrives(s, ds, r, d, x);
    }
    TopLast(s, ds, r, d.status);
    OrdersDiffer(s, ds, r, [d] + ds, Weaker(s, ds, r, d.status) + ds);
  }

  /**
   * An event id that carries two statuses, as a provider that reuses the payment's id for every event of it
   * sends them: both signed, and the row ends where the first arrival put it.
   */
  lemma ReusedEventIdBreaksOrder(row: RampRow, r: string, processing: Delivery, completed: Delivery)
    requires r != "" && row.status == PENDING
    requires processing.reference == r && processing.status == PROCESSING && processing.signatureValid
    requires completed == processing.(status := COMPLETED)
    ensures var s := State(map[r := row], map[]);
            && FinalStatus(s, [processing, completed], r) == Some(PROCESSING)
            && FinalStatus(s, [completed, processing], r) == Some(COMPLETED)
  {
    var s := State(map[r := row], map[]);
    forall a: Delivery, b: Delivery ensures Deliver(s, [a, b]) == AfterWebhook(AfterWebhook(s, a), b) {
      DeliverLast(s, [a, b]);
      assert [a, b][..1] == [a];
      DeliverLast(s, [a]);
      assert [a][..0] == [] && Webhooks([]) == [];
    }
  }

  // ----- webhooks and reconciliation together

  lemma {:induction false} RunConcat(s: State, a: seq<Action>, b: seq<Action>)
    ensures Run(s, a + b) == Run(Run(s, a), b)
  {
    if b == [] {
      assert a + b == a;
    } else {
      assert (a + b)[..|a + b| - 1] == a + b[..|b| - 1];
      RunConcat(s, a, b[..|b| - 1]);
    }
  }

  /**
   * In any mix: an event is applied or found stale at most once, every later arrival of its id is a
   * duplicate, and the row never ends below the status of an event that was applied or found stale.
   */
  lemma EventCountsOnce(s: State, acts: seq<Action>, i: nat, d: Delivery)
    requires i < |acts| && acts[i] == Webhook(d) && d.reference != ""
    ensures forall j, e :: i < j < |acts| && acts[j] == Webhook(e) && e.reference != "" && Key(e) == Key(d) ==>
              WebhookReply(Run(s, acts[..j]), e) == NotApplied(Duplicate)
    ensures WebhookReply(Run(s, acts[..i]), d) in {Applied, NotApplied(StaleStatus)} ==>
              d.reference in Run(s, acts).rows && Rank(Run(s, acts).rows[d.reference].status) >= Rank(d.status)
  {
    var after := Run(s, acts[..i + 1]);
    assert acts[..i + 1][..i] == acts[..i];
    assert after == AfterWebhook(Run(s, acts[..i]), d) && Key(d) in after.events;
    forall j, e | i < j < |acts| && acts[j] == Webhook(e) && e.reference != "" && Key(e) == Key(d)
      ensures WebhookReply(Run(s, acts[..j]), e) == NotApplied(Duplicate)
    {
      assert acts[..j] == acts[..i + 1] + acts[i + 1..j];
      RunConcat(s, acts[..i + 1], acts[i + 1..j]);
      EventsStay(after, acts[i + 1..j]);
    }
    assert acts == acts[..i + 1] + acts[i + 1..];
    RunConcat(s, acts[..i + 1], acts[i + 1..]);
    if d.reference in after.rows {
      RankNeverFalls(after, acts[i + 1..], d.reference);
    }
  }

  lemma {:induction false} EventsStay(s: State, acts: seq<Action>)
    ensures forall k :: k in s.events ==> k in Run(s, acts).events && Run(s, acts).events[k] == s.events[k]
  {
    if acts != [] {
      EventsStay(s, acts[..|acts| - 1]);
    }
  }

  // ----- a handler that others overtake

  /** The status the `i`-th handler of a mix can move row `r` to, as it finds the row and the events. */
  function Offered(s: State, acts: seq<Action>, i: nat, r: string): Option<Status>
    requires i < |acts|
  {
    var t := Run(s, acts[..i]);
    match acts[i]
    case Webhook(d) =>
      if d.reference == r && r != "" && d.signatureValid && Key(d) !in t.events then Some(d.status) else None
    case Reconcile(reference, answer) => if reference == r && r in t.rows then Target(t.rows[r], answer) else None
  }

  /** Some handler of the mix can move row `r` above `status`. */
  ghost predicate Outranked(s: State, acts: seq<Action>, r: string, status: Status) {
    exists i :: 0 <= i < |acts| && Outranks(Offered(s, acts, i, r), status)
  }

  predicate Outranks(offer: Option<Status>, status: Status) {
    offer.Some? && Rank(offer.value) > Rank(status)
  }

  lemma OfferedBefore(s: State, acts: seq<Action>, n: nat, i: nat, r: string)
    requires i < n <= |acts|
    ensures Offered(s, acts[..n], i, r) == Offered(s, acts, i, r)
  {
    assert acts[..n][..i] == acts[..i];
  }

  lemma OutrankedByLast(s: State, acts: seq<Action>, r: string, status: Status)
    requires acts != []
    ensures var n := |acts| - 1;
            Outranked(s, acts, r, status) <==>
              Outranked(s, acts[..n], r, status) || Outranks(Offered(s, acts, n, r), status)
  {
    var n := |acts| - 1;
    if i :| 0 <= i < n && Outranks(Offered(s, acts[..n], i, r), status) {
      OfferedBefore(s, acts, n, i, r);
    }
    if i :| 0 <= i < |acts| && Outranks(Offered(s, acts, i, r), status) {
      if i < n { OfferedBefore(s, acts, n, i, r); }
    }
  }

  /** Any mix of handlers leaves a row above `status` exactly when it started there or some handler offered as much. */
  lemma {:induction false} MixRisesAboveIff(s: State, acts: seq<Action>, r: string, status: Status)
    requires r in s.rows
    ensures r in Run(s, acts).rows
    ensures Rank(Run(s, acts).rows[r].status) > Rank(status) <==>
              Rank(s.rows[r].status) > Rank(status) || Outranked(s, acts, r, status)
  {
    if acts != [] {
      var n := |acts| - 1;
      MixRisesAboveIff(s, acts[..n], r, status);
      OutrankedByLast(s, acts, r, status);
      LastHandler(Run(s, acts[..n]), acts[n], r);
    }
  }

  /** One handler raises the row to what it offers, or leaves its status. */
  lemma LastHandler(t: State, act: Action, r: string)
    requires r in t.rows
    ensures r in Step(t, act).rows
    ensures var offer := Offered(t, [act], 0, r);
            var (before, after) := (Rank(t.rows[r].status), Rank(Step(t, act).rows[r].status));
            after == if offer.Some? && Rank(offer.value) > before then Rank(offer.value) else before
  {
  }

  /** The write of a reconciliation that read `read` and asked before others acted. */
  function AfterLateReconcile(read: RampRow, t: State, reference: string, answer: Answer): State
    requires reference in t.rows
  {
    match Target(read, answer)
    case None => t
    case Some(status) => t.(rows := t.rows[reference := Settled(t.rows[reference], status, answer)])
  }

  /**
   * The write does not compare the status it read, so it can walk a row back: it does exactly when a handler
   * in between, webhook or reconciliation, could take the row above its target.
   */
  lemma LateReconcileLowersIff(s: State, acts: seq<Action>, r: string, answer: Answer)
    requires r in s.rows
    ensures r in Run(s, acts).rows
    ensures var t := Run(s, acts);
            var target := Target(s.rows[r], answer);
            (Rank(AfterLateReconcile(s.rows[r], t, r, answer).rows[r].status) < Rank(t.rows[r].status))
            <==> (target.Some? && Outranked(s, acts, r, target.value))
  {
    RankNeverFalls(s, acts, r);
    if Target(s.rows[r], answer).Some? { MixRisesAboveIff(s, acts, r, Target(s.rows[r], answer).value); }
  }

  /** The write of a webhook that recorded its event and read `read` before others acted. */
  function AfterLateWebhook(read: RampRow, t: State, d: Delivery): State
    requires d.reference in t.rows
  {
    if !d.signatureValid || Rank(read.status) >= Rank(d.status) then t
    else
      var late := Moved(read, d);
      t.(rows := t.rows[d.reference :=
           if d.amountNgn != "" then late else late.(providerAmountNgn := t.rows[d.reference].providerAmountNgn)])
  }

  /** With nobody in between, the late writes are those of the handlers. */
  lemma LateWritesInTime(s: State, d: Delivery, r: string, answer: Answer)
    requires d.reference in s.rows && r in s.rows
    ensures AfterLateReconcile(s.rows[r], s, r, answer) == AfterReconcile(s, r, answer)
    ensures d.reference != "" && Key(d) !in s.events ==>
              AfterLateWebhook(s.rows[d.reference], s, d).rows == AfterWebhook(s, d).rows
  {
  }

  /**
   * A late webhook walks its row back exactly when it writes at all and a handler in between could take the
   * row above it.
   */
  lemma LateWebhookLowersIff(s: State, acts: seq<Action>, d: Delivery)
    requires d.reference in s.rows && d.signatureValid
    ensures d.reference in Run(s, acts).rows
    ensures var (t, r) := (Run(s, acts), d.reference);
            (Rank(AfterLateWebhook(s.rows[r], t, d).rows[r].status) < Rank(t.rows[r].status))
            <==> (Rank(s.rows[r].status) < Rank(d.status) && Outranked(s, acts, r, d.status))
  {
    RankNeverFalls(s, acts, d.reference);
    MixRisesAboveIff(s, acts, d.reference, d.status);
  }

  /** For one: the provider answers 404, a webhook completes the row meanwhile, and the completed row ends FAILED. */
  lemma CompletedRowWalkedBack(row: RampRow, r: string, d: Delivery)
    requires r != "" && row.status == PENDING && d.reference == r && d.status == COMPLETED && d.signatureValid
    ensures var s := State(map[r := row], map[]);
            var t := AfterWebhook(s, d);
            && t.rows[r].status == COMPLETED
            && AfterLateReconcile(s.rows[r], t, r, ProviderError(Some(404))).rows[r].status == FAILED
  {
  }

  // ----- the handlers as programs

  class RampService {
    var rows: map<string, RampRow>
    var events: map<EventKey, EventRow>

    function View(): State
      reads this
    {
      State(rows, events)
    }

    constructor (rows: map<string, RampRow>)
      ensures View() == State(rows, map[])
    {
      this.rows, events := rows, map[];
    }

    /** The unique insert of the event row: false when the id is already recorded. */
    method InsertEvent(d: Delivery) returns (inserted: bool)
      modifies this`events
      ensures inserted <==> Key(d) !in old(events)
      ensures inserted ==> events == old(events)[Key(d) := EventRow(d.reference, d.status, d.signatureValid, false)]
      ensures !inserted ==> events == old(events)
    {
      inserted := Key(d) !in events;
      if inserted {
        events := events[Key(d) := EventRow(d.reference, d.status, d.signatureValid, false)];
      }
    }

    method MarkProcessed(k: EventKey)
      modifies this`events
      ensures events == if k in old(events) then old(events)[k := old(events)[k].(processed := true)] else old(events)
    {
      if k in events {
        events := events[k := events[k].(processed := true)];
      }
    }

    /**
     * `handleWebhook`: refusals in order; an event with a new id and a reference is put on record once, as
     * unprocessed only when its signature failed for a known row; a signed one that climbs moves the row.
     */
    method HandleWebhook(d: Delivery) returns (reply: Reply)
      modifies this
      ensures View() == AfterWebhook(old(View()), d) && reply == WebhookReply(old(View()), d)
      ensures reply == NotApplied(NoReference) <==> d.reference == ""
      ensures reply == NotApplied(Duplicate) <==> d.reference != "" && (d.provider, d.eventId) in old(events)
      ensures d.reference != "" && (d.provider, d.eventId) !in old(events) ==>
                && (reply == NotApplied(UnmatchedReference) <==> d.reference !in old(rows))
                && (reply == NotApplied(InvalidSignature) <==> d.reference in old(rows) && !d.signatureValid)
                && (reply == Applied <==> d.reference in old(rows) && d.signatureValid
                                          && Above(d.status, old(rows)[d.reference].status))
                && events == old(events)[(d.provider, d.eventId) :=
                               EventRow(d.reference, d.status, d.signatureValid,
                                        d.signatureValid || d.reference !in old(rows))]
      ensures reply == Applied ==>
                && rows.Keys == old(rows.Keys)
                && (forall r :: r in old(rows) && r != d.reference ==> rows[r] == old(rows)[r])
                && var (was, row) := (old(rows)[d.reference], rows[d.reference]);
                   && row.status == d.status && row.providerStatusRaw == Some(d.status)
                   && row.providerReference
                        == (if d.providerReference.Some? then d.providerReference else was.providerReference)
                   && row.providerAmountNgn == (if d.amountNgn == "" then was.providerAmountNgn else Some(d.amountNgn))
                   && row.failureReason == (if d.failureReason.Some? then d.failureReason
                                            else if d.status == FAILED then Some("The provider reported a failure")
                                            else was.failureReason)
      ensures reply == Applied ==>
                rows[d.reference].status == d.status && Rank(old(rows)[d.reference].status) < Rank(d.status)
      ensures reply != Applied ==> rows == old(rows)
      ensures reply in {NotApplied(NoReference), NotApplied(Duplicate)} <==> events == old(events)
    {
      if d.reference == "" {
        return NotApplied(NoReference);
      }
      var inserted := InsertEvent(d);
      if !inserted {
        return NotApplied(Duplicate);
      }
      if d.reference !in rows {
        MarkProcessed(Key(d));
        return NotApplied(UnmatchedReference);
      }
      if !d.signatureValid {
        return NotApplied(InvalidSignature);
      }
      var row := rows[d.reference];
      if Rank(row.status) >= Rank(d.status) {
        MarkProcessed(Key(d));
        return NotApplied(StaleStatus);
      }
      rows := rows[d.reference := Moved(row, d)];
      MarkProcessed(Key(d));
      return Applied;
    }

    /**
     * `reconcile`: a report moves an open row to exactly the reported status when that is above its own, a 404
     * fails an open row and is answered with the status found, and nothing else changes anything.
     */
    method ReconcileRow(reference: string, answer: Answer) returns (reply: Reply)
      modifies this`rows
      ensures View() == AfterReconcile(old(View()), reference, answer)
              && reply == ReconcileReply(old(View()), reference, answer)
      ensures reply == Reconciled(None, false) <==> reference !in old(rows)
      ensures reference !in old(rows) ==> rows == old(rows)
      ensures reference in old(rows) ==>
                && rows.Keys == old(rows.Keys)
                && (forall r :: r in old(rows) && r != reference ==> rows[r] == old(rows)[r])
                && var (was, row) := (old(rows)[reference], rows[reference]);
                   var open := was.status == PENDING || was.status == PROCESSING;
                   match answer
                   case Reported(status, why) =>
                     && row == (if open && Above(status, was.status)
                                then was.(status := status, providerStatusRaw := Some(status),
                                          failureReason := if why.Some? then why else was.failureReason)
                                else was)
                     && reply == Reconciled(Some(row.status), open && Above(status, was.status))
                   case ProviderError(code) =>
                     && row == (if open && code == Some(404)
                                then was.(status := FAILED,
                                          failureReason := Some("The provider has no record of this transaction"))
                                else was)
                     && reply == Reconciled(Some(was.status), false)
                   case _ => row == was && reply == Reconciled(Some(was.status), false)
    {
      if reference !in rows {
        return Reconciled(None, false);
      }
      var row := rows[reference];
      if row.status == COMPLETED || row.status == FAILED {
        return Reconciled(Some(row.status), false);
      }
      match answer {
        case Reported(status, reason) =>
          if Rank(row.status) >= Rank(status) {
            return Reconciled(Some(row.status), false);
          }
          rows := rows[reference := row.(status := status, failureReason := OrElse(reason, row.failureReason),
                                         providerStatusRaw := Some(status))];
          return Reconciled(Some(status), true);
        case ProviderError(code) =>
          if code == Some(404) {
            rows := rows[reference := row.(status := FAILED, failureReason := Some(NO_RECORD))];
          }
          return Reconciled(Some(row.status), false);
        case _ =>
          return Reconciled(Some(row.status), false);
      }
    }
  }
}

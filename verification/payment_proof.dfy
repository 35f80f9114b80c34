/**
  Transfer proofs (ai/payment_proof.go, ai/payment_proof_route.go, order/payment_proof.go, order/approve.go): which
  order a proof is for, when it is refused as a duplicate, verified, or left to the shop, and what that
  writes.
 */
module PaymentProof {
  import opened Writes
  import opened OrderStore
  import opened Checkout

  const MAX_REJECTIONS: nat := 5
  const TOLERANCE: real := 1000.0

  // "" is no file hash.
  datatype Meta = Meta(hash: string, rejections: nat, blocked: bool, notified: bool)

  datatype Entry = Entry(order: Order, meta: Meta)

  type Table = seq<Entry>

  // What the picture says: the amount, and whether the date and the account fit. The accounts are
  // those the shop has listed.
  datatype Reading = Unread | Reading(amount: real, dateOk: bool, accountOk: bool, confidence: real)

  datatype Settings = Settings(auto: bool, minConfidence: real, accounts: nat)

  // One job: the buyer's words (the number of an order they name, if any, and whether they are about
  // a new order or a checkout), the file, and the answers of everything it calls.
  datatype Job = Job(scope: Scope, limited: bool, named: bool, isNamed: OrderId -> bool, newOrder: bool, checkout: bool,
                     hash: string, fetched: bool, lookup: bool, settings: Settings, quota: bool, reading: Reading,
                     stockOk: bool, notice: Sql, update: Sql)

  datatype Target = NoTarget | AskBuyer | Target(id: OrderId)

  // ── the order a proof is for ───────────────────────────────────────────────

  predicate Open(pay: Payment) {
    pay == Unpaid || pay == ProofSubmitted || pay == Rejected
  }

  // isResolvableForPaymentProof
  predicate Resolvable(r: Entry) {
    r.order.status != Cancelled && r.order.status != Completed && Open(r.order.pay)
  }

  predicate Blocked(m: Meta) {
    m.blocked || m.rejections >= MAX_REJECTIONS
  }

  // isPayablePaymentOrder
  predicate Payable(r: Entry) {
    Resolvable(r) && !Blocked(r.meta)
  }

  // The newest row of the conversation whose number the buyer named, or NO_ORDER.
  function NewestNamed(t: Table, job: Job): OrderId {
    if t == [] then NO_ORDER
    else
      var o := t[|t| - 1].order;
      if o.conversation == job.scope.conversation && !o.deleted && job.isNamed(|t|) then |t|
      else NewestNamed(t[..|t| - 1], job)
  }

  // The buyer's newest order.
  function Latest(t: Table, scope: Scope): OrderId {
    if t == [] then NO_ORDER
    else if InScope(t[|t| - 1].order, scope) then |t|
    else Latest(t[..|t| - 1], scope)
  }

  // loadPaymentTargetOrder: the buyer's newest order that still takes a proof
  function LatestOpen(t: Table, scope: Scope): OrderId {
    if t == [] then NO_ORDER
    else if TakesProof(t[|t| - 1], scope) then |t|
    else LatestOpen(t[..|t| - 1], scope)
  }

  predicate TakesProof(r: Entry, scope: Scope) {
    InScope(r.order, scope) && Cancellable(r.order.status) && Open(r.order.pay)
  }

  lemma {:induction false} CandidatesAreThere(t: Table, job: Job)
    ensures var named, latest, open := NewestNamed(t, job), Latest(t, job.scope), LatestOpen(t, job.scope);
            && named <= |t| && latest <= |t| && open <= |t|
            && (latest != NO_ORDER ==> InScope(t[latest - 1].order, job.scope))
            && (open != NO_ORDER ==> TakesProof(t[open - 1], job.scope))
  {
    if t != [] {
      CandidatesAreThere(t[..|t| - 1], job);
    }
  }

  // resolvePaymentTargetOrder
  function TargetOf(t: Table, job: Job): Target {
    CandidatesAreThere(t, job);
    var open, latest := LatestOpen(t, job.scope), Latest(t, job.scope);
    if job.named then
      var id := NewestNamed(t, job);
      if id != NO_ORDER && InScope(t[id - 1].order, job.scope) && Resolvable(t[id - 1]) then Target(id) else NoTarget
    else if open != NO_ORDER then
      if t[open - 1].order.pay == Rejected && (latest > open || job.newOrder) then AskBuyer else Target(open)
    else if job.checkout && latest != NO_ORDER && Payable(t[latest - 1]) then Target(latest)
    else NoTarget
  }

  lemma {:induction false} TargetIsOpen(t: Table, job: Job)
    ensures var x := TargetOf(t, job);
            x.Target? ==> 1 <= x.id <= |t| && InScope(t[x.id - 1].order, job.scope) && Resolvable(t[x.id - 1])
  {
    CandidatesAreThere(t, job);
  }

  // ── the decision ───────────────────────────────────────────────────────────

  // lookupPaymentProofHashOtherOrder: another order that is not deleted carries the file's hash.
  predicate Duplicate(t: Table, hash: string, id: OrderId) {
    hash != "" && exists k :: 0 <= k < |t| && k + 1 != id && !t[k].order.deleted && t[k].meta.hash == hash
  }

  function Abs(x: real): real {
    if x < 0.0 then -x else x
  }

  // evaluatePaymentProofRules
  predicate RulesOk(total: real, s: Settings, r: Reading) {
    s.accounts > 0 && r.Reading? && r.amount > 0.0 && Abs(r.amount - total) <= TOLERANCE && r.dateOk && r.accountOk
  }

  predicate VerifiesAlone(total: real, s: Settings, r: Reading) {
    s.auto && RulesOk(total, s, r) && r.confidence >= if s.minConfidence >= 1.0 then 0.95 else s.minConfidence
  }

  // IncrementPaymentRejection
  function OneMoreRejection(m: Meta): Meta {
    m.(rejections := m.rejections + 1, blocked := m.blocked || m.rejections + 1 >= MAX_REJECTIONS)
  }

  // applyPaymentProofResult, as far as the row goes
  function Decided(r: Entry, pay: Payment, status: Status, hash: string): Entry {
    var m := r.meta.(hash := hash);
    Entry(r.order.(pay := pay, status := status), if pay == Rejected then OneMoreRejection(m) else m)
  }

  predicate StockChecked(job: Job, was: Status, status: Status) {
    status == Processing && (was == Draft || was == Confirmed || was == Paid) ==> job.stockOk
  }

  function Verdict(t: Table, job: Job, id: OrderId): Entry
    requires 1 <= id <= |t|
  {
    var r := t[id - 1];
    if Duplicate(t, job.hash, id) then Decided(r, Rejected, r.order.status, job.hash)
    else if job.quota && VerifiesAlone(r.order.total, job.settings, job.reading) then
      Decided(r, Verified, Processing, job.hash)
    else Decided(r, ProofSubmitted, r.order.status, job.hash)
  }

  // processPaymentProofJob
  function Process(t: Table, job: Job): Table {
    var x := TargetOf(t, job);
    if job.limited || !x.Target? then t
    else
      TargetIsOpen(t, job);
      var r := t[x.id - 1];
      if Blocked(r.meta) then
        if r.meta.notified || job.notice == Refused then t else t[x.id - 1 := r.(meta := r.meta.(notified := true))]
      else if !job.fetched || !job.lookup then t
      else
        var r' := Verdict(t, job, x.id);
        if job.update == Refused || !(r'.order.pay == Verified ==> StockChecked(job, r.order.status, Processing)) then t
        else t[x.id - 1 := r']
  }

  // ── what jobs keep ─────────────────────────────────────────────────────────

  predicate Live(r: Entry) {
    !r.order.deleted
  }

  // The target row is the only one a job changes, it is open, and it is in the job's scope.
  lemma {:induction false} JobFrame(t: Table, job: Job)
    ensures var t' := Process(t, job);
            && |t'| == |t|
            && forall k :: 0 <= k < |t| ==>
                 || t'[k] == t[k]
                 || (InScope(t[k].order, job.scope) && Resolvable(t[k]) && TargetOf(t, job) == Target(k + 1))
  {
    TargetIsOpen(t, job);
  }

  // A job never changes an order that is verified, cancelled or completed.
  lemma {:induction false} SettledStaysSettled(t: Table, job: Job, k: nat)
    requires k < |t| && (t[k].order.pay == Verified || t[k].order.status == Cancelled || t[k].order.status == Completed)
    ensures |Process(t, job)| == |t| && Process(t, job)[k] == t[k]
  {
    JobFrame(t, job);
  }

  // A verified verdict needs a file no other live order carries.
  lemma {:induction false} VerifiedIsFirst(t: Table, job: Job, k: nat)
    requires k < |t| == |Process(t, job)| && Process(t, job)[k] != t[k] && Process(t, job)[k].order.pay == Verified
    ensures Process(t, job)[k].meta.hash == job.hash && !Duplicate(t, job.hash, k + 1)
    ensures VerifiesAlone(t[k].order.total, job.settings, job.reading) && t[k].order.pay != Verified
    ensures !Blocked(t[k].meta)
  {
    TargetIsOpen(t, job);
  }

  // A job changes no more of a blocked order than the mark that the buyer was told: it never raises its count.
  lemma {:induction false} BlockedStaysBlocked(t: Table, job: Job, k: nat)
    requires k < |t| && Blocked(t[k].meta)
    ensures |Process(t, job)| == |t|
    ensures Process(t, job)[k] == t[k].(meta := t[k].meta.(notified := Process(t, job)[k].meta.notified))
  {
    TargetIsOpen(t, job);
  }

  // ── runs ───────────────────────────────────────────────────────────────────

  // Between jobs orders are created (unpaid), deleted, or edited by staff or by the chat: items, address,
  // subtotal, total, status and contact, in any status. Staff verify, approve, reject and unblock by hand;
  // `proof` says that a proof message or a reading is stored.
  datatype Event = RunJob(job: Job) | Create(order: Order) | Delete(id: OrderId) | Edit(id: OrderId, order: Order)
                 | StaffVerify(id: OrderId) | StaffApprove(id: OrderId, proof: bool) | StaffReject(id: OrderId)
                 | Unblock(id: OrderId)

  predicate IsLive(t: Table, id: OrderId) {
    1 <= id <= |t| && Live(t[id - 1])
  }

  // What an edit can not change.
  predicate Edits(o: Order, o': Order) {
    o' == o.(contact := o'.contact, status := o'.status, items := o'.items, ship := o'.ship,
             subtotal := o'.subtotal, total := o'.total)
  }

  // orderapprove.Decide
  predicate MayApprove(r: Entry, proof: bool) {
    && r.order.status != Completed && r.order.status != Cancelled && !r.meta.blocked
    && (r.order.pay == Verified || r.order.pay == ProofSubmitted || (proof && r.order.status != Draft))
  }

  predicate Enabled(t: Table, e: Event) {
    match e
    case RunJob(_) => true
    case Create(o) => o.pay == Unpaid
    case Delete(id) => IsLive(t, id)
    case Edit(id, o) => IsLive(t, id) && Edits(t[id - 1].order, o)
    case StaffVerify(id) => IsLive(t, id) && Open(t[id - 1].order.pay)
    case StaffApprove(id, proof) => IsLive(t, id) && MayApprove(t[id - 1], proof)
    case StaffReject(id) => IsLive(t, id) && t[id - 1].order.pay != Verified
    case Unblock(id) => IsLive(t, id) && t[id - 1].order.pay != Verified && Blocked(t[id - 1].meta)
  }

  // A paid order that had not gone further is being processed.
  function AfterPayment(s: Status): Status {
    if s == Draft || s == Confirmed || s == Paid then Processing else s
  }

  // What an event other than a job makes of the row it is about.
  function Handled(r: Entry, e: Event): Entry {
    match e
    case Delete(_) => r.(order := r.order.(deleted := true))
    case Edit(_, o) => r.(order := o)
    case StaffVerify(_) => r.(order := r.order.(pay := Verified, status := AfterPayment(r.order.status)))
    case StaffApprove(_, _) => r.(order := r.order.(pay := Verified, status := Completed))
    case StaffReject(_) => Entry(r.order.(pay := Rejected), OneMoreRejection(r.meta))
    case Unblock(_) => r.(meta := Meta(r.meta.hash, 0, false, false))
    case _ => r
  }

  function Next(t: Table, e: Event): Table
    requires Enabled(t, e)
  {
    match e
    case RunJob(job) => Process(t, job)
    case Create(o) => t + [Entry(o, Meta("", 0, false, false))]
    case _ => t[e.id - 1 := Handled(t[e.id - 1], e)]
  }

  ghost predicate ValidRun(ts: seq<Table>, es: seq<Event>) {
    && |ts| == |es| + 1 && ts[0] == []
    && forall k :: 0 <= k < |es| ==> Enabled(ts[k], es[k]) && ts[k + 1] == Next(ts[k], es[k])
  }

  lemma {:induction false} StepGrows(t: Table, e: Event)
    requires Enabled(t, e)
    ensures |t| <= |Next(t, e)|
  {
    if e.RunJob? {
      JobFrame(t, e.job);
    }
  }

  // ── verified orders ────────────────────────────────────────────────────────

  predicate IsEdit(e: Event, k: nat) {
    e.Edit? && e.id == k + 1
  }

  // Order k + 1 was edited from event `start` on, before event `end`.
  ghost predicate Edited(es: seq<Event>, k: nat, start: nat, end: nat)
    requires end <= |es|
  {
    exists m: nat :: start <= m < end && IsEdit(es[m], k)
  }

  predicate SameGoods(r: Entry, r': Entry) {
    r'.order.items == r.order.items && r'.order.total == r.order.total
  }

  // Verified for good, with the file; with the items and the total unless they were edited.
  predicate StaysVerified(r: Entry, r': Entry, edited: bool) {
    r.order.pay == Verified ==>
      r'.order.pay == Verified && r'.meta.hash == r.meta.hash && (!edited ==> SameGoods(r, r'))
  }

  lemma {:induction false} StepStaysVerified(t: Table, e: Event, k: nat)
    requires Enabled(t, e) && k < |t|
    ensures k < |Next(t, e)| && StaysVerified(t[k], Next(t, e)[k], IsEdit(e, k))
    ensures Live(Next(t, e)[k]) ==> Live(t[k])
  {
    if e.RunJob? {
      JobFrame(t, e.job);
      if t[k].order.pay == Verified {
        SettledStaysSettled(t, e.job, k);
      }
      JobKeepsTheOrder(t, e.job, k);
    }
  }

  lemma {:induction false} JobKeepsTheOrder(t: Table, job: Job, k: nat)
    requires k < |t|
    ensures |Process(t, job)| == |t|
    ensures SameGoods(t[k], Process(t, job)[k]) && Live(Process(t, job)[k]) == Live(t[k])
  {
    TargetIsOpen(t, job);
  }

  // Over every run, a verified order stays verified with its file, whatever jobs and staff do; its items and
  // its total stay as long as nobody edits the order.
  lemma {:induction false} VerifiedForGood(ts: seq<Table>, es: seq<Event>, i: nat, j: nat, k: nat)
    requires ValidRun(ts, es) && i <= j < |ts| && k < |ts[i]|
    ensures k < |ts[j]| && StaysVerified(ts[i][k], ts[j][k], Edited(es, k, i, j))
  {
    if i < j {
      VerifiedForGood(ts, es, i, j - 1, k);
      StepStaysVerified(ts[j - 1], es[j - 1], k);
      assert IsEdit(es[j - 1], k) ==> Edited(es, k, i, j);
      assert Edited(es, k, i, j - 1) ==> Edited(es, k, i, j);
    }
  }

  // Job e verified order k + 1: it was not verified before, no other live order carried the file, and the
  // shop's mode and accounts, the date and the account of the transfer fitted, as did its amount the total.
  ghost predicate VerifiedByJob(t: Table, e: Event, k: nat, r: Entry) {
    && e.RunJob? && k < |t| && t[k].order.pay != Verified && InScope(t[k].order, e.job.scope) && !Blocked(t[k].meta)
    && !Duplicate(t, e.job.hash, k + 1) && e.job.hash == r.meta.hash
    && VerifiesAlone(t[k].order.total, e.job.settings, e.job.reading)
  }

  ghost predicate VerifiedByStaff(t: Table, e: Event, k: nat) {
    && (e.StaffVerify? || e.StaffApprove?) && e.id == k + 1
    && k < |t| && t[k].order.pay != Verified
  }

  ghost predicate VerifiedBy(t: Table, e: Event, k: nat, r: Entry) {
    VerifiedByJob(t, e, k, r) || VerifiedByStaff(t, e, k)
  }

  lemma {:induction false} VerifiedStep(t: Table, e: Event, k: nat)
    requires Enabled(t, e) && k < |Next(t, e)| && Next(t, e)[k].order.pay == Verified
    ensures k < |t|
    ensures t[k].order.pay != Verified ==> VerifiedBy(t, e, k, Next(t, e)[k]) && SameGoods(t[k], Next(t, e)[k])
  {
    if e.RunJob? {
      JobFrame(t, e.job);
      if t[k].order.pay != Verified {
        VerifiedIsFirst(t, e.job, k);
        JobKeepsTheOrder(t, e.job, k);
      }
    }
  }

  // Order k + 1 was verified in event j, and unless it was edited since, it has the items and the total it had
  // then.
  ghost predicate VerifiedAt(ts: seq<Table>, es: seq<Event>, j: nat, i: nat, k: nat)
    requires j < i < |ts| == |es| + 1 && k < |ts[i]|
  {
    && VerifiedBy(ts[j], es[j], k, ts[i][k]) && k < |ts[j]|
    && (!Edited(es, k, j, i) ==> SameGoods(ts[j][k], ts[i][k]))
  }

  // No order is verified without the shop or for money nobody saw: over every run, each verified order was
  // verified by staff, or by a job whose reading of its file was within the tolerance of the total it had then;
  // that is the total it still has, unless it was edited since.
  lemma {:induction false} VerifiedWasPaid(ts: seq<Table>, es: seq<Event>, i: nat, k: nat)
    requires ValidRun(ts, es) && i < |ts| && k < |ts[i]| && ts[i][k].order.pay == Verified
    ensures exists j: nat :: j < i && VerifiedAt(ts, es, j, i, k)
  {
    var n := i - 1;
    VerifiedStep(ts[n], es[n], k);
    if ts[n][k].order.pay == Verified {
      VerifiedWasPaid(ts, es, n, k);
      var j: nat :| j < n && VerifiedAt(ts, es, j, n, k);
      StepStaysVerified(ts[n], es[n], k);
      StillVerifiedAt(ts, es, j, n, k);
    } else {
      assert VerifiedAt(ts, es, n, i, k);
    }
  }

  lemma {:induction false} StillVerifiedAt(ts: seq<Table>, es: seq<Event>, j: nat, n: nat, k: nat)
    requires j < n < |es| == |ts| - 1 && k < |ts[n]| && k < |ts[n + 1]| && VerifiedAt(ts, es, j, n, k)
    requires ts[n][k].order.pay == Verified && StaysVerified(ts[n][k], ts[n + 1][k], IsEdit(es[n], k))
    ensures VerifiedAt(ts, es, j, n + 1, k)
  {
    assert IsEdit(es[n], k) ==> Edited(es, k, j, n + 1);
    assert Edited(es, k, j, n) ==> Edited(es, k, j, n + 1);
  }

  // Staff verified order k + 1 in one of the first i events.
  ghost predicate StaffVerified(ts: seq<Table>, es: seq<Event>, k: nat, i: nat)
    requires i < |ts| == |es| + 1
  {
    exists j: nat :: j < i && VerifiedByStaff(ts[j], es[j], k)
  }

  // Both orders are live and verified with the same file.
  predicate Twins(t: Table, a: nat, b: nat) {
    && a < |t| && b < |t| && a != b && Live(t[a]) && Live(t[b])
    && t[a].order.pay == Verified && t[b].order.pay == Verified && t[a].meta.hash == t[b].meta.hash != ""
  }

  // The later verification of a pair of twins was not a job's.
  lemma {:induction false} NotByAJob(t: Table, e: Event, a: nat, b: nat)
    requires Enabled(t, e) && Twins(Next(t, e), a, b) && a < |t| && t[a].order.pay != Verified
    ensures VerifiedByStaff(t, e, a)
  {
    if e.RunJob? {
      JobFrame(t, e.job);
      assert Next(t, e)[b] == t[b];
    }
    VerifiedStep(t, e, a);
  }

  lemma {:induction false} TwinsBefore(t: Table, e: Event, a: nat, b: nat)
    requires Enabled(t, e) && Twins(Next(t, e), a, b)
    ensures Twins(t, a, b) || VerifiedByStaff(t, e, a) || VerifiedByStaff(t, e, b)
  {
    VerifiedStep(t, e, a);
    VerifiedStep(t, e, b);
    StepStaysVerified(t, e, a);
    StepStaysVerified(t, e, b);
    if t[a].order.pay != Verified {
      NotByAJob(t, e, a, b);
    } else if t[b].order.pay != Verified {
      NotByAJob(t, e, b, a);
    }
  }

  // One file pays for one order unless staff say otherwise: over every run, of two live orders verified with
  // the same file, staff verified at least one.
  lemma {:induction false} ProofsAreUnique(ts: seq<Table>, es: seq<Event>, i: nat, a: nat, b: nat)
    requires ValidRun(ts, es) && i < |ts| && Twins(ts[i], a, b)
    ensures StaffVerified(ts, es, a, i) || StaffVerified(ts, es, b, i)
  {
    var n := i - 1;
    TwinsBefore(ts[n], es[n], a, b);
    if Twins(ts[n], a, b) {
      ProofsAreUnique(ts, es, n, a, b);
    }
  }

  // ── rejected orders ────────────────────────────────────────────────────────

  // Job e rejected order k + 1, whose file then was another live order's.
  ghost predicate RejectedByJob(t: Table, e: Event, k: nat, r: Entry) {
    e.RunJob? && k < |t| && !Blocked(t[k].meta) && e.job.hash == r.meta.hash && Duplicate(t, e.job.hash, k + 1)
  }

  ghost predicate RejectedBy(t: Table, e: Event, k: nat, r: Entry) {
    RejectedByJob(t, e, k, r) || e == StaffReject(k + 1)
  }

  lemma {:induction false} RejectedStep(t: Table, e: Event, k: nat)
    requires Enabled(t, e) && k < |Next(t, e)| && Next(t, e)[k].order.pay == Rejected
    ensures k < |t|
    ensures || (t[k].order.pay == Rejected && Next(t, e)[k].meta.hash == t[k].meta.hash)
            || RejectedBy(t, e, k, Next(t, e)[k])
  {
    if e.RunJob? {
      TargetIsOpen(t, e.job);
    }
  }

  // No order is rejected without cause: over every run, each rejected order was rejected by staff, or its file
  // was, when a job rejected it, the file of another live order.
  lemma {:induction false} RejectedHadATwin(ts: seq<Table>, es: seq<Event>, i: nat, k: nat)
    requires ValidRun(ts, es) && i < |ts| && k < |ts[i]| && ts[i][k].order.pay == Rejected
    ensures exists j: nat :: j < i && RejectedBy(ts[j], es[j], k, ts[i][k])
  {
    var n := i - 1;
    RejectedStep(ts[n], es[n], k);
    if !RejectedBy(ts[n], es[n], k, ts[i][k]) {
      RejectedHadATwin(ts, es, n, k);
      var j: nat :| j < n && RejectedBy(ts[j], es[j], k, ts[n][k]);
      assert RejectedBy(ts[j], es[j], k, ts[i][k]);
    }
  }

  // The event is a job that rejects order k + 1: it is for that order, which is not blocked, nothing stops
  // it, and its file is another live order's.
  ghost predicate Rejects(t: Table, e: Event, k: nat) {
    && e.RunJob? && TargetOf(t, e.job) == Target(k + 1) && k < |t| && !Blocked(t[k].meta)
    && !e.job.limited && e.job.fetched && e.job.lookup && e.job.update != Refused && Duplicate(t, e.job.hash, k + 1)
  }

  // How often jobs, and how often staff, have rejected order k + 1 in the first i events, since staff last
  // unblocked it.
  ghost function ByJobs(ts: seq<Table>, es: seq<Event>, k: nat, i: nat): nat
    requires i < |ts| == |es| + 1
  {
    if i == 0 || es[i - 1] == Unblock(k + 1) then 0
    else ByJobs(ts, es, k, i - 1) + if Rejects(ts[i - 1], es[i - 1], k) then 1 else 0
  }

  function ByStaff(es: seq<Event>, k: nat, i: nat): nat
    requires i <= |es|
  {
    if i == 0 || es[i - 1] == Unblock(k + 1) then 0
    else ByStaff(es, k, i - 1) + if es[i - 1] == StaffReject(k + 1) then 1 else 0
  }

  predicate Counted(m: Meta, jobs: nat, staff: nat) {
    && m.rejections == jobs + staff && jobs <= MAX_REJECTIONS
    && (m.blocked <==> jobs + staff >= MAX_REJECTIONS)
  }

  lemma {:induction false} StepCounts(t: Table, e: Event, k: nat, jobs: nat, staff: nat)
    requires Enabled(t, e) && k < |Next(t, e)| && e != Unblock(k + 1)
    requires if k < |t| then Counted(t[k].meta, jobs, staff) else jobs == 0 == staff
    ensures Counted(Next(t, e)[k].meta, jobs + if Rejects(t, e, k) then 1 else 0,
                    staff + if e == StaffReject(k + 1) then 1 else 0)
  {
    if e.RunJob? {
      TargetIsOpen(t, e.job);
    }
  }

  lemma {:induction false} NothingToCount(ts: seq<Table>, es: seq<Event>, i: nat, k: nat)
    requires ValidRun(ts, es) && i < |ts| && k >= |ts[i]|
    ensures ByJobs(ts, es, k, i) == 0 && ByStaff(es, k, i) == 0
  {
    if i > 0 {
      StepGrows(ts[i - 1], es[i - 1]);
      NothingToCount(ts, es, i - 1, k);
    }
  }

  // Over every run the stored count is the number of rejections by jobs and by staff since staff last unblocked
  // the order; jobs reject it at most five times, however often staff do; and it is blocked exactly from the
  // fifth rejection on.
  lemma {:induction false} RejectionsAreCounted(ts: seq<Table>, es: seq<Event>, i: nat, k: nat)
    requires ValidRun(ts, es) && i < |ts| && k < |ts[i]|
    ensures Counted(ts[i][k].meta, ByJobs(ts, es, k, i), ByStaff(es, k, i))
  {
    var n := i - 1;
    if k < |ts[n]| {
      RejectionsAreCounted(ts, es, n, k);
    } else {
      NothingToCount(ts, es, n, k);
    }
    if es[n] != Unblock(k + 1) {
      StepCounts(ts[n], es[n], k, ByJobs(ts, es, k, n), ByStaff(es, k, n));
    }
  }

  // ── the job, step by step ──────────────────────────────────────────────────

  class ProofJobs {
    var rows: Table

    constructor ()
      ensures rows == []
    {
      rows := [];
    }

    method FindLatest(scope: Scope) returns (id: OrderId)
      ensures id == Latest(rows, scope)
    {
      id := |rows|;
      assert rows[..id] == rows;
      while id > 0 && !InScope(rows[id - 1].order, scope)
        invariant id <= |rows| && Latest(rows[..id], scope) == Latest(rows, scope)
      {
        assert rows[..id][..id - 1] == rows[..id - 1];
        id := id - 1;
      }
    }

    method FindLatestOpen(scope: Scope) returns (id: OrderId)
      ensures id == LatestOpen(rows, scope)
    {
      id := |rows|;
      assert rows[..id] == rows;
      while id > 0 && !TakesProof(rows[id - 1], scope)
        invariant id <= |rows| && LatestOpen(rows[..id], scope) == LatestOpen(rows, scope)
      {
        assert rows[..id][..id - 1] == rows[..id - 1];
        id := id - 1;
      }
    }

    method FindDuplicate(hash: string, id: OrderId) returns (found: bool)
      ensures found <==> Duplicate(rows, hash, id)
    {
      found := false;
      if hash == "" {
        return;
      }
      for k := 0 to |rows|
        invariant forall i :: 0 <= i < k ==> i + 1 == id || rows[i].order.deleted || rows[i].meta.hash != hash
      {
        if k + 1 != id && !rows[k].order.deleted && rows[k].meta.hash == hash {
          return true;
        }
      }
    }

    method FindTarget(job: Job) returns (x: Target)
      ensures x == TargetOf(rows, job)
    {
      CandidatesAreThere(rows, job);
      if job.named {
        var id := NewestNamed(rows, job);
        if id == NO_ORDER || !InScope(rows[id - 1].order, job.scope) || !Resolvable(rows[id - 1]) {
          return NoTarget;
        }
        return Target(id);
      }
      var open := FindLatestOpen(job.scope);
      var latest := FindLatest(job.scope);
      if open != NO_ORDER {
        if rows[open - 1].order.pay == Rejected && (latest > open || job.newOrder) {
          return AskBuyer;
        }
        return Target(open);
      }
      if !job.checkout || latest == NO_ORDER || !Payable(rows[latest - 1]) {
        return NoTarget;
      }
      return Target(latest);
    }

    method ApplyResult(id: OrderId, pay: Payment, status: Status, job: Job)
      requires 1 <= id <= |rows|
      modifies this
      ensures var r := old(rows)[id - 1];
              rows == if job.update == Refused || (pay == Verified && !StockChecked(job, r.order.status, status))
                      then old(rows) else old(rows)[id - 1 := Decided(r, pay, status, job.hash)]
    {
      var r := rows[id - 1];
      var meta := r.meta.(hash := job.hash);
      if pay == Rejected {
        meta := OneMoreRejection(meta);
      }
      if pay == Verified && !StockChecked(job, r.order.status, status) {
        return;
      }
      if job.update != Refused {
        rows := rows[id - 1 := Entry(r.order.(pay := pay, status := status), meta)];
      }
    }

    method ProcessJob(job: Job)
      modifies this
      ensures rows == Process(old(rows), job)
    {
      if job.limited {
        return;
      }
      var x := FindTarget(job);
      if !x.Target? {
        return;
      }
      TargetIsOpen(rows, job);
      var r := rows[x.id - 1];
      if Blocked(r.meta) {
        if !r.meta.notified && job.notice != Refused {
          rows := rows[x.id - 1 := r.(meta := r.meta.(notified := true))];
        }
        return;
      }
      if !job.fetched || !job.lookup {
        return;
      }
      var duplicate := FindDuplicate(job.hash, x.id);
      if duplicate {
        ApplyResult(x.id, Rejected, r.order.status, job);
        return;
      }
      if job.quota && VerifiesAlone(r.order.total, job.settings, job.reading) {
        ApplyResult(x.id, Verified, Processing, job);
        return;
      }
      ApplyResult(x.id, ProofSubmitted, r.order.status, job);
    }
  }
}

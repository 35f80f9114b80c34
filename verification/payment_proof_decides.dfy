/**
  Which order a transfer proof goes to, and what the job makes of it, said of the table, the buyer's words and
  the picture alone (ai/payment_proof.go, ai/payment_proof_route.go).
 */
module PaymentProofDecides {
  import opened Writes
  import opened Checkout
  import opened OrderStore
  import opened PaymentProof

  // ── the newest of a kind ───────────────────────────────────────────────────

  predicate Own(r: Entry, scope: Scope) {
    && r.order.conversation == scope.conversation && !r.order.deleted
    && (r.order.contact == scope.contact || r.order.contact == 0)
  }

  predicate AwaitsProof(r: Entry) {
    r.order.pay == Payment.Unpaid || r.order.pay == ProofSubmitted || r.order.pay == Payment.Rejected
  }

  // A row of the buyer that takes a proof without being named.
  predicate OpenRow(r: Entry, scope: Scope) {
    && Own(r, scope) && AwaitsProof(r)
    && r.order.status in {Draft, Processing, Confirmed, Paid}
  }

  predicate NamedRow(t: Table, job: Job, k: nat)
    requires k < |t|
  {
    t[k].order.conversation == job.scope.conversation && !t[k].order.deleted && job.isNamed(k + 1)
  }

  ghost predicate NewestOpen(t: Table, scope: Scope, id: OrderId) {
    1 <= id <= |t| && OpenRow(t[id - 1], scope) && forall k :: id <= k < |t| ==> !OpenRow(t[k], scope)
  }

  ghost predicate NoneOpen(t: Table, scope: Scope) {
    forall k :: 0 <= k < |t| ==> !OpenRow(t[k], scope)
  }

  ghost predicate NewestOwn(t: Table, scope: Scope, id: OrderId) {
    1 <= id <= |t| && Own(t[id - 1], scope) && forall k :: id <= k < |t| ==> !Own(t[k], scope)
  }

  ghost predicate NewestNamedRow(t: Table, job: Job, id: OrderId) {
    1 <= id <= |t| && NamedRow(t, job, id - 1) && forall k :: id <= k < |t| ==> !NamedRow(t, job, k)
  }

  lemma {:induction false} LatestOpenIs(t: Table, scope: Scope, id: OrderId)
    ensures NewestOpen(t, scope, id) ==> LatestOpen(t, scope) == id
    ensures NoneOpen(t, scope) ==> LatestOpen(t, scope) == NO_ORDER
  {
    if t != [] {
      var n := |t| - 1;
      assert TakesProof(t[n], scope) <==> OpenRow(t[n], scope);
      if !OpenRow(t[n], scope) {
        LatestOpenIs(t[..n], scope, id);
      }
    }
  }

  lemma {:induction false} LatestIs(t: Table, scope: Scope, id: OrderId)
    ensures NewestOwn(t, scope, id) ==> Latest(t, scope) == id
    ensures (forall k :: 0 <= k < |t| ==> !Own(t[k], scope)) ==> Latest(t, scope) == NO_ORDER
  {
    if t != [] {
      var n := |t| - 1;
      assert InScope(t[n].order, scope) <==> Own(t[n], scope);
      if !Own(t[n], scope) {
        LatestIs(t[..n], scope, id);
      }
    }
  }

  lemma {:induction false} NewestNamedIs(t: Table, job: Job, id: OrderId)
    ensures NewestNamedRow(t, job, id) ==> NewestNamed(t, job) == id
    ensures (forall k :: 0 <= k < |t| ==> !NamedRow(t, job, k)) ==> NewestNamed(t, job) == NO_ORDER
  {
    if t != [] {
      var n := |t| - 1;
      if !NamedRow(t, job, n) {
        forall k | 0 <= k < n ensures NamedRow(t[..n], job, k) == NamedRow(t, job, k) {
        }
        NewestNamedIs(t[..n], job, id);
      }
    }
  }

  lemma {:induction false} LatestIsLater(t: Table, scope: Scope, id: OrderId)
    requires 1 <= id <= |t|
    ensures Latest(t, scope) > id <==> exists k :: id <= k < |t| && Own(t[k], scope)
  {
    var n := |t| - 1;
    assert InScope(t[n].order, scope) <==> Own(t[n], scope);
    LatestInRange(t, scope);
    if !Own(t[n], scope) && id <= n {
      LatestIsLater(t[..n], scope, id);
      assert forall k :: id <= k < n ==> t[..n][k] == t[k];
    }
  }

  lemma {:induction false} LatestInRange(t: Table, scope: Scope)
    ensures Latest(t, scope) <= |t|
  {
    if t != [] {
      LatestInRange(t[..|t| - 1], scope);
    }
  }

  // ── the target ─────────────────────────────────────────────────────────────

  // An order of this kind can still be paid: neither cancelled, completed nor verified.
  predicate CanBePaid(r: Entry) {
    r.order.status != Cancelled && r.order.status != Completed && AwaitsProof(r)
  }

  predicate IsBlocked(r: Entry) {
    r.meta.blocked || r.meta.rejections >= 5
  }

  // The buyer has a later order than this one.
  ghost predicate LaterOrder(t: Table, scope: Scope, id: OrderId) {
    exists k :: id <= k < |t| && Own(t[k], scope)
  }

  // A proof whose words name no order goes to the newest open order of the buyer: never to an older one. Only
  // when that order was rejected, and the buyer has a later order or talks of a new one, the buyer is asked.
  lemma {:induction false} ProofGoesToTheNewestOpen(t: Table, job: Job, id: OrderId)
    requires !job.named && NewestOpen(t, job.scope, id)
    ensures TargetOf(t, job) ==
            if t[id - 1].order.pay == Payment.Rejected && (job.newOrder || LaterOrder(t, job.scope, id)) then AskBuyer
            else Target(id)
  {
    LatestOpenIs(t, job.scope, id);
    LatestIsLater(t, job.scope, id);
  }

  // Without an open order it goes to the buyer's newest order, exactly in a checkout and if that order can still
  // be paid and is not blocked.
  lemma {:induction false} ProofWithoutAnOpenOrder(t: Table, job: Job, id: OrderId)
    requires !job.named && NoneOpen(t, job.scope) && NewestOwn(t, job.scope, id)
    ensures TargetOf(t, job) ==
            if job.checkout && CanBePaid(t[id - 1]) && !IsBlocked(t[id - 1]) then Target(id) else NoTarget
  {
    LatestOpenIs(t, job.scope, id);
    LatestIs(t, job.scope, id);
  }

  // A proof whose words name an order goes to the newest order so named, if that is the buyer's own and can still
  // be paid, and to no other.
  lemma {:induction false} ProofGoesToTheNamed(t: Table, job: Job, id: OrderId)
    requires job.named && NewestNamedRow(t, job, id)
    ensures TargetOf(t, job) == if Own(t[id - 1], job.scope) && CanBePaid(t[id - 1]) then Target(id) else NoTarget
  {
    NewestNamedIs(t, job, id);
  }

  lemma {:induction false} ProofOfNoOrder(t: Table, job: Job)
    requires if job.named then forall k :: 0 <= k < |t| ==> !NamedRow(t, job, k)
             else forall k :: 0 <= k < |t| ==> !Own(t[k], job.scope)
    ensures TargetOf(t, job) == NoTarget
  {
    NewestNamedIs(t, job, NO_ORDER);
    LatestIs(t, job.scope, NO_ORDER);
    LatestOpenIs(t, job.scope, NO_ORDER);
  }

  // ── the decision ───────────────────────────────────────────────────────────

  // Another live order carries the file.
  ghost predicate FileIsTaken(t: Table, job: Job, id: OrderId) {
    job.hash != "" && exists k :: 0 <= k < |t| && k + 1 != id && !t[k].order.deleted && t[k].meta.hash == job.hash
  }

  // The shop lets proofs verify themselves and has listed an account, the picture could be read within the
  // quota, and amount, date, account and confidence fit.
  predicate Fits(total: real, job: Job) {
    && job.settings.auto && job.settings.accounts > 0 && job.quota && job.reading.Reading?
    && job.reading.amount > 0.0 && total - 1000.0 <= job.reading.amount <= total + 1000.0
    && job.reading.dateOk && job.reading.accountOk
    && (if job.settings.minConfidence >= 1.0 then job.reading.confidence >= 0.95
        else job.reading.confidence >= job.settings.minConfidence)
  }

  // Nothing keeps the job from its decision, and nothing fails after it.
  ghost predicate GoesThrough(t: Table, job: Job, id: OrderId) {
    && TargetOf(t, job) == Target(id) && 1 <= id <= |t| && !IsBlocked(t[id - 1])
    && !job.limited && job.fetched && job.lookup && job.stockOk && job.update != Refused
  }

  // What the row becomes: rejected and counted, verified and being processed, or waiting for the team; with the
  // file, and nothing else of it changed.
  predicate Becomes(r: Entry, r': Entry, job: Job, pay: Payment) {
    && r'.order == r.order.(pay := pay, status := if pay == Payment.Verified then Processing else r.order.status)
    && r'.meta.hash == job.hash && r'.meta.notified == r.meta.notified
    && r'.meta.rejections == r.meta.rejections + (if pay == Payment.Rejected then 1 else 0)
    && (r'.meta.blocked <==> r'.meta.rejections >= 5)
  }

  lemma {:induction false} ProofIsDecided(t: Table, job: Job, id: OrderId)
    requires GoesThrough(t, job, id)
    ensures var t' := Process(t, job);
            && |t'| == |t| && (forall k :: 0 <= k < |t| && k + 1 != id ==> t'[k] == t[k])
            && Becomes(t[id - 1], t'[id - 1], job,
                       if FileIsTaken(t, job, id) then Payment.Rejected
                       else if Fits(t[id - 1].order.total, job) then Payment.Verified else ProofSubmitted)
  {
    assert Duplicate(t, job.hash, id) <==> FileIsTaken(t, job, id);
    assert job.quota && VerifiesAlone(t[id - 1].order.total, job.settings, job.reading) <==>
           Fits(t[id - 1].order.total, job);
  }

  // A job that is stopped before its decision, or whose write is refused, changes no order at all.
  lemma {:induction false} StoppedJobDoesNothing(t: Table, job: Job)
    requires || job.limited || !TargetOf(t, job).Target?
             || (1 <= TargetOf(t, job).id <= |t| && !IsBlocked(t[TargetOf(t, job).id - 1])
                 && (!job.fetched || !job.lookup || job.update == Refused))
    ensures Process(t, job) == t
  {
    TargetIsOpen(t, job);
  }
}

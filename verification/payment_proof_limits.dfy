/**
  What staff can do to orders with a transfer proof that a job never does (order/payment_proof.go): reject an
  order any number of times, and verify a second order with a file that has paid for another one.
 */
module PaymentProofLimits {
  import opened Checkout
  import opened OrderStore
  import opened PaymentProof

  // ── rejections without end ─────────────────────────────────────────────────

  function Unpaid(scope: Scope): Order {
    NewDraft(scope, [], NoShipping)
  }

  function RejectEvents(scope: Scope, n: nat): seq<Event> {
    if n == 0 then [Create(Unpaid(scope))] else RejectEvents(scope, n - 1) + [StaffReject(1)]
  }

  function RejectedOrder(scope: Scope, n: nat): Entry {
    if n == 0 then Entry(Unpaid(scope), Meta("", 0, false, false))
    else Handled(RejectedOrder(scope, n - 1), StaffReject(1))
  }

  function RejectTables(scope: Scope, n: nat): seq<Table> {
    if n == 0 then [[], [RejectedOrder(scope, 0)]] else RejectTables(scope, n - 1) + [[RejectedOrder(scope, n)]]
  }

  lemma {:induction false} RejectedMeta(scope: Scope, n: nat)
    ensures var r := RejectedOrder(scope, n);
            r.meta.rejections == n && Live(r) && r.order.pay == if n == 0 then Payment.Unpaid else Rejected
  {
    if n > 0 {
      RejectedMeta(scope, n - 1);
    }
  }

  lemma {:induction false} OneEventMore(ts: seq<Table>, es: seq<Event>, e: Event, t: Table)
    requires ValidRun(ts, es) && Enabled(ts[|es|], e) && t == Next(ts[|es|], e)
    ensures ValidRun(ts + [t], es + [e])
  {
    var ts', es' := ts + [t], es + [e];
    forall k | 0 <= k < |es'| ensures Enabled(ts'[k], es'[k]) && ts'[k + 1] == Next(ts'[k], es'[k]) {
      if k < |es| {
        assert ts'[k + 1] == ts[k + 1];
      }
    }
  }

  // Five rejections block an order for the jobs; staff can reject it as often as they like.
  lemma {:induction false} StaffRejectWithoutEnd(scope: Scope, n: nat)
    ensures var ts, es := RejectTables(scope, n), RejectEvents(scope, n);
            ValidRun(ts, es) && ts[|es|] == [RejectedOrder(scope, n)] && ts[|es|][0].meta.rejections == n
  {
    RejectedMeta(scope, n);
    if n == 0 {
      assert Next([], Create(Unpaid(scope))) == [RejectedOrder(scope, 0)];
    } else {
      StaffRejectWithoutEnd(scope, n - 1);
      RejectedMeta(scope, n - 1);
      var before := [RejectedOrder(scope, n - 1)];
      assert before[0 := RejectedOrder(scope, n)] == [RejectedOrder(scope, n)];
      OneEventMore(RejectTables(scope, n - 1), RejectEvents(scope, n - 1), StaffReject(1), [RejectedOrder(scope, n)]);
    }
  }

  // ── two orders, one file ───────────────────────────────────────────────────

  // A job rejects the file of a verified order when it comes in for another one; staff can verify that one too.
  lemma {:induction false} StaffCanVerifyATwin(t: Table, job: Job, a: nat, b: nat)
    requires a < |t| && b < |t| && Live(t[a]) && Live(t[b]) && t[a].order.pay == Verified
    requires t[a].meta.hash == job.hash != "" && Rejects(t, RunJob(job), b)
    ensures var t' := Process(t, job);
            && t'[b].order.pay == Rejected && Enabled(t', StaffVerify(b + 1))
            && Twins(Next(t', StaffVerify(b + 1)), a, b)
  {
    TargetIsOpen(t, job);
  }
}

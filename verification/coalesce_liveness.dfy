/**
  What the coalescing protocol owes the buyer once it comes to rest: no message is left behind. And, for every
  run, the exact conditions under which a flush ends at the newest message and covers what lies before its end.
 */
module CoalesceLiveness {
  import opened BurstWindow
  import opened CoalesceProtocol
  import opened Text
  import Stitch

  // ── where a flush ends ─────────────────────────────────────────────────────

  // No other id of the list appears for the first time after the first appearance of x.
  ghost predicate NothingNewAfter(list: seq<Id>, x: Id)
    requires x in list
  {
    forall y :: y in list ==> IndexOf(list, y) <= IndexOf(list, x)
  }

  lemma {:induction false} FirstInAPrefix(list: seq<Id>, y: Id, z: Id)
    requires y in list
    ensures y in list + [z] && IndexOf(list + [z], y) == IndexOf(list, y)
  {
    if list[0] != y {
      FirstInAPrefix(list[1..], y, z);
      assert (list + [z])[1..] == list[1..] + [z];
    }
  }

  lemma {:induction false} FirstAtTheEnd(list: seq<Id>, z: Id)
    requires z !in list
    ensures IndexOf(list + [z], z) == |list|
  {
    if list != [] {
      FirstAtTheEnd(list[1..], z);
      assert (list + [z])[1..] == list[1..] + [z];
    }
  }

  lemma {:induction false} StaysTheNewest(front: seq<Id>, z: Id, x: Id)
    requires z in front && x in front && NothingNewAfter(front, x)
    ensures NothingNewAfter(front + [z], x)
  {
    FirstInAPrefix(front, x, z);
    forall y | y in front + [z] ensures IndexOf(front + [z], y) <= IndexOf(front + [z], x) {
      FirstInAPrefix(front, y, z);
    }
  }

  lemma {:induction false} BecomesTheNewest(front: seq<Id>, z: Id)
    requires z !in front
    ensures NothingNewAfter(front + [z], z)
  {
    FirstAtTheEnd(front, z);
  }

  // The de-duplicated list ends with the id that appears for the first time last.
  lemma {:induction false} DedupEndsAtTheNewest(list: seq<Id>)
    requires list != [] && NO_ID !in list
    ensures Dedup(list) != [] && LastOf(Dedup(list)) in list && NothingNewAfter(list, LastOf(Dedup(list)))
  {
    var front, z := list[..|list| - 1], list[|list| - 1];
    assert list == front + [z];
    DedupFacts(front);
    if z in front {
      DedupEndsAtTheNewest(front);
      StaysTheNewest(front, z, LastOf(Dedup(front)));
    } else {
      BecomesTheNewest(front, z);
    }
  }

  lemma {:induction false} EndsAtTheLastRecord(list: seq<Id>)
    requires list != [] && NO_ID !in list
    ensures Dedup(list) != [] && (LastOf(Dedup(list)) == LastOf(list) <==> NothingNewAfter(list, LastOf(list)))
  {
    DedupEndsAtTheNewest(list);
    var e, x := LastOf(Dedup(list)), LastOf(list);
    if NothingNewAfter(list, x) {
      assert IndexOf(list, e) == IndexOf(list, x);
    }
  }

  // The keys follow the records, in every run.
  ghost predicate KeysFollow(c: Chat, s: Sys) {
    && s.keys.list == ListAfter(s.records) && NO_ID !in s.records
    && (s.records == [] ==> s.keys.last == NO_ID)
    && (s.records != [] ==> s.keys.last == LastOf(s.records) && s.keys.lastAt == c.at(s.keys.last))
    && forall j :: 0 <= j < |s.jobs| ==> s.jobs[j].msg != NO_ID
  }

  lemma {:induction false} RecordKeepsFollowing(c: Chat, s: Sys, j: nat)
    requires KeysFollow(c, s) && Enabled(c, s, Record(j))
    ensures KeysFollow(c, Apply(c, s, Record(j)))
  {
    var id := s.jobs[j].msg;
    RecordGrows(c, s, id);
    assert RecordIn(c, s, id).keys.lastAt == c.at(id);
  }

  lemma {:induction false} JobAddedFollows(c: Chat, s: Sys, s': Sys, job: Job)
    requires KeysFollow(c, s) && s' == s.(jobs := s.jobs + [job]) && job.msg != NO_ID
    ensures KeysFollow(c, s')
  {
  }

  lemma {:induction false} JobMovedFollows(c: Chat, s: Sys, s': Sys, j: nat, p: Phase)
    requires KeysFollow(c, s) && j < |s.jobs| && s'.jobs == s.jobs[j := s.jobs[j].(phase := p)]
    requires s'.records == s.records && s'.keys == s.keys.(wm := s'.keys.wm)
    ensures KeysFollow(c, s')
  {
  }

  lemma {:induction false} RearmKeepsFollowing(c: Chat, s: Sys, j: nat)
    requires KeysFollow(c, s) && Enabled(c, s, Rearm(j))
    ensures KeysFollow(c, Apply(c, s, Rearm(j)))
  {
    var s0, s' := SetPhase(s, j, Done), Apply(c, s, Rearm(j));
    JobMovedFollows(c, s, s0, j, Done);
    if s' != s0 {
      JobAddedFollows(c, s0, s', Job(s.keys.last, s.jobs[j].rearms + 1, Queued));
    }
  }

  lemma {:induction false} StepKeepsFollowing(c: Chat, s: Sys, e: Event)
    requires KeysFollow(c, s) && Enabled(c, s, e)
    ensures KeysFollow(c, Apply(c, s, e))
  {
    match e
    case Record(j) => RecordKeepsFollowing(c, s, j);
    case Deliver(msg) => JobAddedFollows(c, s, Apply(c, s, e), Job(msg, 0, Queued));
    case Redeliver(j) => JobAddedFollows(c, s, Apply(c, s, e), s.jobs[j].(phase := Queued));
    case Rearm(j) => RearmKeepsFollowing(c, s, j);
    case _ => JobMovedFollows(c, s, Apply(c, s, e), e.j, Apply(c, s, e).jobs[e.j].phase);
  }

  lemma {:induction false} RunKeepsFollowing(c: Chat, s: Sys, run: seq<Event>)
    requires KeysFollow(c, s) && ValidRun(c, s, run)
    ensures KeysFollow(c, After(c, s, run))
    decreases |run|
  {
    if run != [] {
      StepKeepsFollowing(c, s, run[0]);
      RunKeepsFollowing(c, Apply(c, s, run[0]), run[1..]);
    }
  }

  lemma {:induction false} LoadedEnd(s: Sys, c: Chat)
    requires KeysFollow(c, s) && s.keys.list != []
    ensures s.keys.last in s.keys.list && LastOf(s.keys.list) == s.keys.last && NO_ID !in s.keys.list
    ensures Loaded(s.keys.list) == Dedup(s.keys.list)
  {
    ListIsTheLastTwenty(s.records);
    LoadedOfRecords(s.records);
    assert LastOf(s.keys.list) == LastOf(s.records);
  }

  lemma {:induction false} PendingEnd(s: Sys)
    requires Pending(s) != []
    ensures s.keys.list != [] && Loaded(s.keys.list) != [] && LastOf(Pending(s)) == LastOf(Loaded(s.keys.list))
  {
  }

  lemma {:induction false} FlushEnd(c: Chat, s: Sys)
    requires KeysFollow(c, s) && Pending(s) != []
    ensures s.keys.last in s.keys.list
    ensures LastOf(Pending(s)) == s.keys.last <==> NothingNewAfter(s.keys.list, s.keys.last)
  {
    PendingEnd(s);
    LoadedEnd(s, c);
    EndsAtTheLastRecord(s.keys.list);
  }

  // Over every run, with no condition on what is recorded: a flush ends at the message that is `last` at that
  // moment exactly when nothing in the list was recorded for the first time after the first record of it.
  lemma {:induction false} FlushEndsAtLastIff(c: Chat, run: seq<Event>, j: nat)
    requires ValidRun(c, Init, run) && Enabled(c, After(c, Init, run), Flush(j))
    requires FlushPhase(c, After(c, Init, run), After(c, Init, run).jobs[j].msg).Flushed?
    ensures var s := After(c, Init, run); var p := FlushPhase(c, s, s.jobs[j].msg).pending;
            && p != [] && s.keys.last in s.keys.list
            && (LastOf(p) == s.keys.last <==> NothingNewAfter(s.keys.list, s.keys.last))
  {
    RunKeepsFollowing(c, Init, run);
    FlushEnd(c, After(c, Init, run));
  }

  // ── what a flush covers ────────────────────────────────────────────────────

  // Every recorded message is in the list, answered or lost, in every run.
  ghost predicate Accounted(s: Sys) {
    forall x :: x in s.records ==> x in s.keys.list || x in Safe(s)
  }

  lemma {:induction false} RecordAccounts(c: Chat, s: Sys, id: Id)
    requires Accounted(s)
    ensures Accounted(RecordIn(c, s, id))
  {
    var s' := RecordIn(c, s, id);
    assert LastOf(s'.keys.list) == id;
    forall x | x in s'.records ensures x in s'.keys.list || x in Safe(s') {
      assert x == id || x in s.records;
    }
  }

  lemma {:induction false} SafeGrows(c: Chat, s: Sys, e: Event)
    requires Enabled(c, s, e) && !e.Record?
    ensures var s' := Apply(c, s, e);
            s'.records == s.records && s'.keys.list == s.keys.list && Safe(s) <= Safe(s')
  {
    if e.Reply? {
      AnswersSnoc(s.calls, LastCall(Apply(c, s, e)));
    }
  }

  lemma {:induction false} RunAccounts(c: Chat, s: Sys, run: seq<Event>)
    requires Accounted(s) && ValidRun(c, s, run)
    ensures Accounted(After(c, s, run))
    decreases |run|
  {
    if run != [] {
      var e := run[0];
      if e.Record? {
        RecordAccounts(c, s, s.jobs[e.j].msg);
      } else {
        SafeGrows(c, s, e);
      }
      assert Accounted(Apply(c, s, e));
      RunAccounts(c, Apply(c, s, e), run[1..]);
    }
  }

  // A message of the list that nobody has answered, that is not lost, and that the watermark cuts off.
  ghost predicate Passed(s: Sys, x: Id) {
    x in s.keys.list && x !in Safe(s) && x !in Pending(s)
  }

  lemma {:induction false} PendingIsRecorded(c: Chat, s: Sys)
    requires KeysFollow(c, s) && Pending(s) != []
    ensures LastOf(Pending(s)) in Log(s)
    ensures forall x :: x in s.keys.list ==> x in Log(s)
  {
    LoadedEnd(s, c);
    DedupFacts(s.keys.list);
    DedupFacts(s.records);
    ListIsTheLastTwenty(s.records);
    PendingEnd(s);
    assert LastOf(Pending(s)) in Dedup(s.keys.list);
  }

  lemma {:induction false} LogIsRecorded(s: Sys, k: nat)
    requires k < |Log(s)|
    ensures Log(s)[k] in s.records && IndexOf(Log(s), Log(s)[k]) == k
  {
    DedupFacts(s.records);
    IndexInDistinct(Log(s), k);
  }

  // Over every run, overflowing lists and late records included: what a flush takes covers every message up to
  // its end exactly when each message that the watermark cuts off unanswered stands behind that end, in
  // first-recorded order.
  lemma {:induction false} FlushCoversIff(c: Chat, run: seq<Event>)
    requires ValidRun(c, Init, run) && Pending(After(c, Init, run)) != []
    ensures var s := After(c, Init, run); var end := LastOf(Pending(s));
            && end in Log(s)
            && (CoveredUpTo(Log(s), end, Safe(s) + IdSet(Pending(s))) <==>
                forall x :: Passed(s, x) ==> x in Log(s) && IndexOf(Log(s), x) > IndexOf(Log(s), end))
  {
    RunKeepsFollowing(c, Init, run);
    RunAccounts(c, Init, run);
    CoversIff(c, After(c, Init, run));
  }

  lemma {:induction false} CoversIff(c: Chat, s: Sys)
    requires KeysFollow(c, s) && Accounted(s) && Pending(s) != []
    ensures var end := LastOf(Pending(s));
            && end in Log(s)
            && (CoveredUpTo(Log(s), end, Safe(s) + IdSet(Pending(s))) <==>
                forall x :: Passed(s, x) ==> x in Log(s) && IndexOf(Log(s), x) > IndexOf(Log(s), end))
  {
    var log, end, ids := Log(s), LastOf(Pending(s)), Safe(s) + IdSet(Pending(s));
    PendingIsRecorded(c, s);
    if CoveredUpTo(log, end, ids) {
      forall x | Passed(s, x) ensures IndexOf(log, x) > IndexOf(log, end) {
        assert log[IndexOf(log, x)] == x;
      }
    }
    if forall x :: Passed(s, x) ==> x in log && IndexOf(log, x) > IndexOf(log, end) {
      forall k | 0 <= k <= IndexOf(log, end) ensures log[k] in ids {
        LogIsRecorded(s, k);
        assert !Passed(s, log[k]);
      }
    }
  }

  // ── no message is left behind ──────────────────────────────────────────────

  // Every message that says something was in a call that returned without error, or was lost to the cap.
  ghost predicate AllServed(c: Chat, s: Sys) {
    forall x :: x in s.records && !Blank(c.body(x)) ==> x in Safe(s)
  }

  // The job is on its way to answer everything up to the newest message. A queued job first records its own,
  // which then is the newest.
  ghost predicate Carries(s: Sys, job: Job) {
    || job.phase == Queued
    || (job.msg == s.keys.last && (job.phase == Waiting || job.phase == Locked))
    || (InFlight(job.phase) && job.phase.pending != [] && LastOf(job.phase.pending) == s.keys.last)
  }

  ghost predicate CarriedBy(s: Sys, j: nat) {
    j < |s.jobs| && Carries(s, s.jobs[j])
  }

  ghost predicate NobodyWaits(c: Chat, s: Sys) {
    AllServed(c, s) || exists j: nat :: CarriedBy(s, j)
  }

  // No job runs for its own message alone.
  predicate ReadsRedis(e: Event) {
    !e.RecordFails? && !e.FlushFails?
  }

  // A job that fails is delivered again.
  ghost predicate FailsAreRedelivered(run: seq<Event>) {
    forall k :: 0 <= k < |run| ==> run[k].Fail? ==> Redelivered(run[k + 1..], run[k].j)
  }

  ghost predicate Redelivered(run: seq<Event>, j: nat) {
    exists m: nat :: m < |run| && run[m] == Redeliver(j)
  }

  lemma {:induction false} CoveredIsServed(c: Chat, s: Sys, safe: set<Id>)
    requires s.records != [] && Progress(s) && NewestOnly(s.records)
    requires CoveredUpTo(Log(s), s.keys.last, safe)
    ensures forall x :: x in s.records ==> x in safe
  {
    NewestIsLastOfLog(s);
    DedupFacts(s.records);
    forall x | x in s.records ensures x in safe {
      assert x in Log(s);
      assert Log(s)[IndexOf(Log(s), x)] in safe;
    }
  }

  lemma {:induction false} EmptyTextIsBlank(c: Chat, ids: seq<Id>, x: Id)
    requires TextOf(c, ids) == "" && x in ids
    ensures Blank(c.body(x))
  {
    if !Blank(c.body(x)) {
      var k :| 0 <= k < |ids| && ids[k] == x;
      BodiesOfFacts(c, ids);
      Stitch.StitchedTextHasEveryBody(BodiesOf(c, ids), k);
    }
  }

  // Nothing waits behind the watermark: it stands at the newest message.
  lemma {:induction false} NothingPending(c: Chat, s: Sys)
    requires KeysFollow(c, s) && s.records != [] && Progress(s) && NewestOnly(s.records) && Pending(s) == []
    ensures s.keys.wm == s.keys.last
  {
    LoadedEnd(s, c);
    LoadedIsATail(s.records);
    NewestIsLastOfLog(s);
    EndsAtTheLastRecord(s.keys.list);
    var tail := Loaded(s.keys.list);
    assert s.keys.wm in tail && IndexOf(tail, s.keys.wm) == |tail| - 1;
    assert LastOf(tail) == LastOf(Log(s));
  }

  // A flush by the carrier takes everything that still waits, or finds that nothing does.
  lemma {:induction false} FlushServes(c: Chat, s: Sys, j: nat)
    requires KeysFollow(c, s) && Inv(s) && Progress(s) && NewestOnly(s.records)
    requires Enabled(c, s, Flush(j)) && s.records != [] && s.jobs[j].msg == s.keys.last
    ensures AllServed(c, s) || (Pending(s) != [] && LastOf(Pending(s)) == s.keys.last
                                && FlushPhase(c, s, s.jobs[j].msg) == Flushed(Pending(s), |s.records|))
  {
    if Pending(s) == [] {
      NothingPending(c, s);
      CoveredIsServed(c, s, Safe(s));
    } else {
      FlushEndsAtTheNewest(s);
      if TextOf(c, Pending(s)) == "" {
        FlushKeeps(c, s);
        CoveredIsServed(c, s, Safe(s) + IdSet(Pending(s)));
        forall x | x in s.records && !Blank(c.body(x)) ensures x in Safe(s) {
          if x in Pending(s) {
            EmptyTextIsBlank(c, Pending(s), x);
          }
        }
      }
    }
  }

  lemma {:induction false} CoveredThenAnswered(c: Chat, s: Sys, s': Sys, pending: seq<Id>)
    requires Progress(s) && NewestOnly(s.records) && s.records != [] && s'.records == s.records
    requires CoveredUpTo(Log(s), s.keys.last, Safe(s) + IdSet(pending)) && Safe(s) + IdSet(pending) <= Safe(s')
    ensures AllServed(c, s')
  {
    CoveredIsServed(c, s, Safe(s) + IdSet(pending));
  }

  // The reply of the carrier serves everybody.
  lemma {:induction false} ReplyServes(c: Chat, s: Sys, j: nat)
    requires Inv(s) && Progress(s) && NewestOnly(s.records) && s.records != []
    requires Enabled(c, s, Reply(j)) && Carries(s, s.jobs[j])
    ensures AllServed(c, Apply(c, s, Reply(j)))
  {
    var s', job := Apply(c, s, Reply(j)), s.jobs[j];
    assert PhaseOk(Log(s), Safe(s), job.phase);
    AnswersSnoc(s.calls, LastCall(s'));
    CoveredThenAnswered(c, s, s', job.phase.pending);
  }

  ghost predicate Ready(c: Chat, s: Sys) {
    KeysFollow(c, s) && Inv(s) && Progress(s) && NewestOnly(s.records)
  }

  // The carrier's own step.
  lemma {:induction false} CarrierStep(c: Chat, s: Sys, e: Event)
    requires Ready(c, s) && Enabled(c, s, e) && ReadsRedis(e) && s.records != []
    requires !e.Deliver? && !e.Redeliver? && !e.Record? && !e.Fail? && CarriedBy(s, e.j)
    ensures NobodyWaits(c, Apply(c, s, e))
  {
    var s' := Apply(c, s, e);
    match e
    case Flush(j) =>
      FlushServes(c, s, j);
      if !AllServed(c, s) {
        assert CarriedBy(s', j);
      } else {
        ServedStays(c, s, s');
      }
    case Reply(j) => ReplyServes(c, s, j);
    case TakeLock(j) => assert CarriedBy(s', j);
    case Busy(j) => assert CarriedBy(s', j);
    case Clear(j) => assert CarriedBy(s', j);
    case _ => assert false;
  }

  lemma {:induction false} ServedStays(c: Chat, s: Sys, s': Sys)
    requires AllServed(c, s) && s'.records == s.records && Safe(s) <= Safe(s')
    ensures AllServed(c, s')
  {
  }

  // A step of any other job, and the arrival of a job.
  lemma {:induction false} OtherStep(c: Chat, s: Sys, e: Event, j: nat)
    requires Enabled(c, s, e) && CarriedBy(s, j) && !e.Record?
    requires e.Deliver? || e.Redeliver? || e.j != j
    ensures CarriedBy(Apply(c, s, e), j)
  {
  }

  lemma {:induction false} StepLeavesNobody(c: Chat, s: Sys, e: Event)
    requires Ready(c, s) && Enabled(c, s, e) && ReadsRedis(e) && !e.Fail? && NobodyWaits(c, s)
    ensures NobodyWaits(c, Apply(c, s, e))
  {
    var s' := Apply(c, s, e);
    if e.Record? {
      RecordGrows(c, s, s.jobs[e.j].msg);
      assert CarriedBy(s', e.j);
    } else if AllServed(c, s) {
      SafeGrows(c, s, e);
      ServedStays(c, s, s');
    } else {
      var j: nat :| CarriedBy(s, j);
      if e.Deliver? || e.Redeliver? || e.j != j {
        OtherStep(c, s, e, j);
      } else {
        CarrierStep(c, s, e);
      }
    }
  }

  // Nobody waits, or a job is going to be delivered again.
  ghost predicate WillBeServed(c: Chat, s: Sys, run: seq<Event>) {
    NobodyWaits(c, s) || exists j :: Redelivered(run, j)
  }

  lemma {:induction false} StepServes(c: Chat, s: Sys, run: seq<Event>)
    requires run != [] && Ready(c, s) && Enabled(c, s, run[0]) && ReadsRedis(run[0])
    requires FailsAreRedelivered(run) && WillBeServed(c, s, run)
    ensures WillBeServed(c, Apply(c, s, run[0]), run[1..])
  {
    var e, s' := run[0], Apply(c, s, run[0]);
    if e.Fail? {
      assert Redelivered(run[0 + 1..], e.j);
    } else if e.Redeliver? {
      assert CarriedBy(s', |s.jobs|);
    } else if NobodyWaits(c, s) {
      StepLeavesNobody(c, s, e);
    } else {
      var j :| Redelivered(run, j);
      var m: nat :| m < |run| && run[m] == Redeliver(j);
      assert run[1..][m - 1] == Redeliver(j);
      assert Redelivered(run[1..], j);
    }
  }

  lemma {:induction false} FailsInTheRest(run: seq<Event>)
    requires run != [] && FailsAreRedelivered(run)
    ensures FailsAreRedelivered(run[1..])
  {
    forall k | 0 <= k < |run| - 1 && run[1..][k].Fail? ensures Redelivered(run[1..][k + 1..], run[1..][k].j) {
      assert run[1..][k + 1..] == run[k + 1 + 1..];
    }
  }

  lemma {:induction false} RunServes(c: Chat, s: Sys, run: seq<Event>)
    requires KeysFollow(c, s) && Inv(s) && Progress(s) && WillBeServed(c, s, run)
    requires ValidRun(c, s, run) && NewestOnly(After(c, s, run).records)
    requires FailsAreRedelivered(run) && forall k :: 0 <= k < |run| ==> ReadsRedis(run[k])
    ensures NobodyWaits(c, After(c, s, run))
    decreases |run|
  {
    if run != [] {
      var s', later := Apply(c, s, run[0]), After(c, s, run).records;
      RecordsGrow(c, s, run);
      NewestOnlyPrefix(later, |s.records|);
      assert later[..|s.records|] == s.records;
      StepKeepsFollowing(c, s, run[0]);
      StepKeepsInv(c, s, run[0]);
      StepKeepsProgress(c, s, run[0]);
      StepServes(c, s, run);
      FailsInTheRest(run);
      RunServes(c, s', run[1..]);
    }
  }

  // The protocol is at rest: every job has come to its end, every drop has been re-armed, every watermark set.
  ghost predicate AtRest(s: Sys) {
    forall j :: 0 <= j < |s.jobs| ==> s.jobs[j].phase == Done
  }

  // No message is left behind. In every interleaving of any number of jobs in which each job that fails is
  // delivered again, no job runs alone and only the newest message is recorded again, once the protocol is at
  // rest every recorded message that says something was part of a call that returned without error, with its
  // text, or was pushed off the 20-entry list.
  lemma {:induction false} NoMessageIsStranded(c: Chat, run: seq<Event>, x: Id)
    requires ValidRun(c, Init, run) && NewestOnly(After(c, Init, run).records)
    requires FailsAreRedelivered(run) && forall k :: 0 <= k < |run| ==> ReadsRedis(run[k])
    requires AtRest(After(c, Init, run)) && x in After(c, Init, run).records && !Blank(c.body(x))
    ensures WasAnswered(c, After(c, Init, run).calls, x) || x in After(c, Init, run).lost
  {
    var s := After(c, Init, run);
    RunServes(c, Init, run);
    RunKeepsCallTexts(c, Init, run);
    if j: nat :| CarriedBy(s, j) {
      assert s.jobs[j].phase == Done;
    }
    if x !in s.lost {
      AnswersWereCalls(c, s.calls, x);
    }
  }
}

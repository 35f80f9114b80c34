/**
  What each job of the coalescing protocol can count on, over every run: one job at a time holds the flush
  lock and gives it back on every way out, the job of the newest message can always get through, a job that
  runs alone answers its own message, and an answered message does not come up again.
 */
module CoalesceJobs {
  import opened BurstWindow
  import opened CoalesceProtocol
  import opened CoalesceLiveness
  import opened Text
  import Stitch

  // ── the lock ───────────────────────────────────────────────────────────────

  predicate Holds(s: Sys, j: nat) {
    j < |s.jobs| && s.jobs[j].phase == Locked
  }

  // The lock is taken exactly while a job is between taking it and the end of its flush, and by that job alone.
  ghost predicate OneHolder(s: Sys) {
    && (s.locked <==> exists j: nat :: Holds(s, j))
    && forall i: nat, j: nat :: Holds(s, i) && Holds(s, j) ==> i == j
  }

  // A step in which no job takes the lock or leaves it.
  lemma {:induction false} SameHolder(s: Sys, s': Sys)
    requires OneHolder(s) && s'.locked == s.locked && forall j: nat :: Holds(s', j) <==> Holds(s, j)
    ensures OneHolder(s')
  {
  }

  lemma {:induction false} JobMoves(s: Sys, s': Sys, j: nat, p: Phase)
    requires OneHolder(s) && j < |s.jobs| && s.jobs[j].phase != Locked && p != Locked
    requires s'.locked == s.locked && |s.jobs| <= |s'.jobs|
    requires s'.jobs[..|s.jobs|] == s.jobs[j := s.jobs[j].(phase := p)]
    requires forall i :: |s.jobs| <= i < |s'.jobs| ==> s'.jobs[i].phase == Queued
    ensures OneHolder(s')
  {
    forall i: nat ensures Holds(s', i) <==> Holds(s, i) {
      if i < |s.jobs| {
        assert s'.jobs[i] == s'.jobs[..|s.jobs|][i];
      }
    }
    SameHolder(s, s');
  }

  lemma {:induction false} JobArrives(s: Sys, s': Sys, job: Job)
    requires OneHolder(s) && s' == s.(jobs := s.jobs + [job]) && job.phase == Queued
    ensures OneHolder(s')
  {
    forall i: nat ensures Holds(s', i) <==> Holds(s, i) {
    }
    SameHolder(s, s');
  }

  lemma {:induction false} LockTaken(s: Sys, j: nat)
    requires OneHolder(s) && !s.locked && j < |s.jobs|
    ensures OneHolder(SetPhase(s.(locked := true), j, Locked))
  {
    var s' := SetPhase(s.(locked := true), j, Locked);
    forall i: nat ensures Holds(s', i) <==> i == j {
      assert !Holds(s, i);
    }
    assert Holds(s', j);
  }

  lemma {:induction false} LockGivenBack(s: Sys, j: nat, p: Phase)
    requires OneHolder(s) && Holds(s, j) && p != Locked
    ensures OneHolder(SetPhase(s.(locked := false), j, p))
  {
    var s' := SetPhase(s.(locked := false), j, p);
    forall i: nat ensures !Holds(s', i) {
      assert i != j ==> !Holds(s, i);
    }
  }

  lemma {:induction false} OtherStepKeepsOneHolder(c: Chat, s: Sys, e: Event)
    requires OneHolder(s) && Enabled(c, s, e)
    requires !e.Deliver? && !e.Redeliver? && !e.TakeLock? && !e.Flush? && !e.FlushFails?
    ensures OneHolder(Apply(c, s, e))
  {
    var s' := Apply(c, s, e);
    JobMoves(s, s', e.j, s'.jobs[e.j].phase);
  }

  lemma {:induction false} StepKeepsOneHolder(c: Chat, s: Sys, e: Event)
    requires OneHolder(s) && Enabled(c, s, e)
    ensures OneHolder(Apply(c, s, e))
  {
    match e
    case Deliver(msg) => JobArrives(s, Apply(c, s, e), Job(msg, 0, Queued));
    case Redeliver(j) => JobArrives(s, Apply(c, s, e), s.jobs[j].(phase := Queued));
    case TakeLock(j) => LockTaken(s, j);
    case Flush(j) => LockGivenBack(s, j, FlushPhase(c, s, s.jobs[j].msg));
    case FlushFails(j) => LockGivenBack(s, j, Alone);
    case _ => OtherStepKeepsOneHolder(c, s, e);
  }

  lemma {:induction false} RunKeepsOneHolder(c: Chat, s: Sys, run: seq<Event>)
    requires OneHolder(s) && ValidRun(c, s, run)
    ensures OneHolder(After(c, s, run))
    decreases |run|
  {
    if run != [] {
      StepKeepsOneHolder(c, s, run[0]);
      RunKeepsOneHolder(c, Apply(c, s, run[0]), run[1..]);
    }
  }

  // Mutual exclusion and release, over every run: the lock is taken if and only if exactly one job is flushing.
  // A flush gives it back however it ends, also when it is superseded or finds nothing to answer.
  lemma {:induction false} LockIsHeldByOne(c: Chat, run: seq<Event>)
    requires ValidRun(c, Init, run)
    ensures OneHolder(After(c, Init, run))
  {
    RunKeepsOneHolder(c, Init, run);
  }

  // A message stored later than the job's own was the last one recorded.
  predicate Superseded(c: Chat, s: Sys, job: Job) {
    s.records != [] && c.at(LastOf(s.records)) > c.at(job.msg)
  }

  // What a waiting job can do next, over every run: it is superseded exactly when the last recorded message was
  // stored later than its own; otherwise it takes the lock, exactly when no other job is flushing, or is busy.
  lemma {:induction false} WaitingJobGoesOn(c: Chat, run: seq<Event>, j: nat)
    requires ValidRun(c, Init, run) && j < |After(c, Init, run).jobs| && After(c, Init, run).jobs[j].phase == Waiting
    ensures var s := After(c, Init, run);
            && (Enabled(c, s, Supersede(j)) <==> Superseded(c, s, s.jobs[j]))
            && (Enabled(c, s, TakeLock(j)) <==> !Superseded(c, s, s.jobs[j]) && forall h: nat :: !Holds(s, h))
            && (Enabled(c, s, Busy(j)) <==> !Superseded(c, s, s.jobs[j]) && exists h: nat :: Holds(s, h))
  {
    LockIsHeldByOne(c, run);
    RunKeepsFollowing(c, Init, run);
    NothingRecorded(c, Init, run);
  }

  lemma {:induction false} NothingRecorded(c: Chat, s: Sys, run: seq<Event>)
    requires ValidRun(c, s, run) && (s.records == [] ==> s.keys.lastAt == 0)
    ensures After(c, s, run).records == [] ==> After(c, s, run).keys.lastAt == 0
    decreases |run|
  {
    if run != [] {
      NothingRecorded(c, Apply(c, s, run[0]), run[1..]);
    }
  }

  // The flush of the job that holds the lock can always end, and frees it for every waiting job.
  lemma {:induction false} HolderGivesBack(c: Chat, s: Sys, h: nat)
    requires OneHolder(s) && Holds(s, h)
    ensures Enabled(c, s, Flush(h)) && Enabled(c, s, FlushFails(h))
    ensures !Apply(c, s, Flush(h)).locked && !Apply(c, s, FlushFails(h)).locked
  {
    LockGivenBack(s, h, FlushPhase(c, s, s.jobs[h].msg));
    LockGivenBack(s, h, Alone);
  }

  ghost predicate SaysNothing(c: Chat, ids: seq<Id>) {
    forall k :: 0 <= k < |ids| ==> Blank(c.body(ids[k]))
  }

  lemma {:induction false} EmptyTextIff(c: Chat, ids: seq<Id>)
    ensures TextOf(c, ids) == "" <==> SaysNothing(c, ids)
  {
    BodiesOfFacts(c, ids);
    Stitch.LinesFacts(BodiesOf(c, ids));
    if TextOf(c, ids) == "" {
      forall k | 0 <= k < |ids| ensures Blank(c.body(ids[k])) {
        EmptyTextIsBlank(c, ids, ids[k]);
      }
    } else {
      SomeLine(BodiesOf(c, ids));
    }
  }

  lemma {:induction false} SomeLine(bodies: seq<string>)
    ensures Stitch.StitchedText(bodies) != "" ==> exists k :: 0 <= k < |bodies| && !Blank(bodies[k])
  {
    if bodies != [] {
      var n := |bodies| - 1;
      SomeLine(bodies[..n]);
      if Stitch.StitchedText(bodies[..n]) != "" {
        var k :| 0 <= k < n && !Blank(bodies[..n][k]);
        assert !Blank(bodies[k]);
      }
    }
  }

  // What a flush comes to, over every run: its job is done when a message stored later has been recorded last, or
  // when nothing that says something is pending; otherwise it goes on with all that is pending.
  lemma {:induction false} FlushIff(c: Chat, run: seq<Event>, j: nat)
    requires ValidRun(c, Init, run) && Enabled(c, After(c, Init, run), Flush(j))
    ensures var s := After(c, Init, run); var p := Apply(c, s, Flush(j)).jobs[j].phase;
            if Superseded(c, s, s.jobs[j]) || SaysNothing(c, Pending(s)) then p == Done
            else p == Flushed(Pending(s), |s.records|)
  {
    var s := After(c, Init, run);
    RunKeepsFollowing(c, Init, run);
    NothingRecorded(c, Init, run);
    EmptyTextIff(c, Pending(s));
  }

  // ── the newest message can always be answered ──────────────────────────────

  // Nothing recorded in between: the keys but for the watermark, and the records.
  ghost predicate SameBurst(s: Sys, s': Sys) {
    s'.records == s.records && s'.keys == s.keys.(wm := s'.keys.wm)
  }

  lemma {:induction false} StepKeepsBurst(c: Chat, s: Sys, e: Event)
    requires Enabled(c, s, e) && !e.Record?
    ensures SameBurst(s, Apply(c, s, e))
  {
  }

  lemma {:induction false} StepStaysReady(c: Chat, s: Sys, e: Event)
    requires Ready(c, s) && OneHolder(s) && Enabled(c, s, e) && !e.Record?
    ensures Ready(c, Apply(c, s, e)) && OneHolder(Apply(c, s, e)) && SameBurst(s, Apply(c, s, e))
  {
    StepKeepsBurst(c, s, e);
    StepKeepsFollowing(c, s, e);
    StepKeepsInv(c, s, e);
    StepKeepsProgress(c, s, e);
    StepKeepsOneHolder(c, s, e);
  }

  lemma {:induction false} OneMoreStep(c: Chat, s: Sys, e: Event, run: seq<Event>)
    requires Enabled(c, s, e) && ValidRun(c, Apply(c, s, e), run)
    ensures ValidRun(c, s, [e] + run) && After(c, s, [e] + run) == After(c, Apply(c, s, e), run)
  {
    assert ([e] + run)[1..] == run;
  }

  // A run of steps that work, after which everybody is served.
  ghost predicate Serves(c: Chat, s: Sys, run: seq<Event>) {
    && ValidRun(c, s, run) && AllServed(c, After(c, s, run))
    && forall k :: 0 <= k < |run| ==> ReadsRedis(run[k]) && !run[k].Fail?
  }

  lemma {:induction false} ServesThen(c: Chat, s: Sys, e: Event, run: seq<Event>)
    requires Enabled(c, s, e) && ReadsRedis(e) && !e.Fail? && Serves(c, Apply(c, s, e), run)
    ensures Serves(c, s, [e] + run)
  {
    OneMoreStep(c, s, e, run);
  }

  lemma {:induction false} FlushedIsAnswered(c: Chat, s: Sys, j: nat) returns (run: seq<Event>)
    requires Ready(c, s) && s.records != [] && j < |s.jobs| && s.jobs[j].phase.Flushed?
    requires s.jobs[j].phase.pending != [] && LastOf(s.jobs[j].phase.pending) == s.keys.last
    ensures Serves(c, s, run)
  {
    ReplyServes(c, s, j);
    assert Serves(c, Apply(c, s, Reply(j)), []);
    run := [Reply(j)];
    ServesThen(c, s, Reply(j), []);
    assert [Reply(j)] + [] == run;
  }

  lemma {:induction false} LockedIsAnswered(c: Chat, s: Sys, j: nat) returns (run: seq<Event>)
    requires Ready(c, s) && OneHolder(s) && s.records != [] && Holds(s, j) && s.jobs[j].msg == s.keys.last
    ensures Serves(c, s, run)
  {
    var s' := Apply(c, s, Flush(j));
    StepStaysReady(c, s, Flush(j));
    FlushServes(c, s, j);
    if AllServed(c, s) {
      run := [];
    } else {
      var rest := FlushedIsAnswered(c, s', j);
      ServesThen(c, s, Flush(j), rest);
      run := [Flush(j)] + rest;
    }
  }

  lemma {:induction false} FreeIsAnswered(c: Chat, s: Sys, j: nat) returns (run: seq<Event>)
    requires Ready(c, s) && OneHolder(s) && !s.locked && s.records != []
    requires j < |s.jobs| && s.jobs[j].phase == Waiting && s.jobs[j].msg == s.keys.last
    ensures Serves(c, s, run)
  {
    var s' := Apply(c, s, TakeLock(j));
    StepStaysReady(c, s, TakeLock(j));
    assert Holds(s', j);
    var rest := LockedIsAnswered(c, s', j);
    ServesThen(c, s, TakeLock(j), rest);
    run := [TakeLock(j)] + rest;
  }

  lemma {:induction false} WaitingIsAnswered(c: Chat, s: Sys, j: nat) returns (run: seq<Event>)
    requires Ready(c, s) && OneHolder(s) && s.records != []
    requires j < |s.jobs| && s.jobs[j].phase == Waiting && s.jobs[j].msg == s.keys.last
    ensures Serves(c, s, run)
  {
    if s.locked {
      var h: nat :| Holds(s, h);
      HolderGivesBack(c, s, h);
      StepStaysReady(c, s, Flush(h));
      var rest := FreeIsAnswered(c, Apply(c, s, Flush(h)), j);
      ServesThen(c, s, Flush(h), rest);
      run := [Flush(h)] + rest;
    } else {
      run := FreeIsAnswered(c, s, j);
    }
  }

  // The protocol never gets stuck: from every state of every run in which only the newest message is recorded
  // again, a job that waits for the newest message can get through, whatever the other jobs are doing, and
  // then no message is left that nobody answered.
  lemma {:induction false} NewestCanBeAnswered(c: Chat, run: seq<Event>, j: nat)
    requires ValidRun(c, Init, run) && NewestOnly(After(c, Init, run).records)
    requires j < |After(c, Init, run).jobs| && After(c, Init, run).jobs[j].phase == Waiting
    requires After(c, Init, run).records != [] && After(c, Init, run).jobs[j].msg == LastOf(After(c, Init, run).records)
    ensures exists more :: Serves(c, After(c, Init, run), more)
  {
    RunKeepsFollowing(c, Init, run);
    RunKeepsInv(c, Init, run);
    RunKeepsProgress(c, Init, run);
    LockIsHeldByOne(c, run);
    var more := WaitingIsAnswered(c, After(c, Init, run), j);
  }

  // ── a job that runs alone ──────────────────────────────────────────────────

  // Job j processes its own message only, or has answered it.
  ghost predicate AnswersItsOwn(s: Sys, j: nat) {
    j < |s.jobs| && (s.jobs[j].phase == Alone || s.jobs[j].msg in Answers(s.calls))
  }

  lemma {:induction false} AloneStep(c: Chat, s: Sys, e: Event, j: nat)
    requires Enabled(c, s, e) && e != Fail(j) && AnswersItsOwn(s, j)
    ensures AnswersItsOwn(Apply(c, s, e), j) && Apply(c, s, e).jobs[j].msg == s.jobs[j].msg
  {
    if e.Reply? {
      AnswersSnoc(s.calls, LastCall(Apply(c, s, e)));
    }
  }

  lemma {:induction false} AloneRun(c: Chat, s: Sys, run: seq<Event>, j: nat)
    requires ValidRun(c, s, run) && Fail(j) !in run && AnswersItsOwn(s, j)
    ensures AnswersItsOwn(After(c, s, run), j) && After(c, s, run).jobs[j].msg == s.jobs[j].msg
    decreases |run|
  {
    if run != [] {
      AloneStep(c, s, run[0], j);
      AloneRun(c, Apply(c, s, run[0]), run[1..], j);
    }
  }

  // A message is not lost with Redis: when a job can not record it, or can not read the burst, the job goes on
  // with its own message, and is not done before a call with it has returned without error, unless it fails.
  lemma {:induction false} AloneIsAnswered(c: Chat, s: Sys, e: Event, run: seq<Event>)
    requires Enabled(c, s, e) && (e.RecordFails? || e.FlushFails?)
    requires ValidRun(c, Apply(c, s, e), run) && Fail(e.j) !in run
    ensures var last := After(c, Apply(c, s, e), run);
            e.j < |last.jobs| && (last.jobs[e.j].phase != Alone ==> s.jobs[e.j].msg in Answers(last.calls))
  {
    AloneRun(c, Apply(c, s, e), run, e.j);
  }

  // ── the drop check and the re-arm ──────────────────────────────────────────

  lemma {:induction false} NewSince(records: seq<Id>, since: nat)
    requires NewestOnly(records) && 0 < since <= |records|
    ensures LastOf(records) == records[since - 1] <==>
            forall k :: since <= k < |records| ==> records[k] in records[..since]
  {
    var n := |records| - 1;
    if LastOf(records) == records[since - 1] {
      RepeatsAreContiguous(records, since - 1, n);
      assert records[..since][since - 1] == records[since - 1];
    } else if LastOf(records) in records[..since] {
      var i :| 0 <= i < since && records[i] == LastOf(records);
      RepeatsAreContiguous(records, i, n);
    }
  }

  // A message has been recorded for the first time since the first `since` records.
  ghost predicate NewMessageSince(records: seq<Id>, since: nat) {
    since <= |records| && exists k :: since <= k < |records| && records[k] !in records[..since]
  }

  lemma {:induction false} FlushedDropIff(c: Chat, s: Sys, j: nat)
    requires Progress(s) && NewestOnly(s.records) && j < |s.jobs| && s.jobs[j].phase.Flushed?
    ensures Enabled(c, s, Drop(j)) <==> NewMessageSince(s.records, s.jobs[j].phase.since)
    ensures Enabled(c, s, Clear(j)) <==> !NewMessageSince(s.records, s.jobs[j].phase.since)
  {
    assert ProgressOk(s, s.jobs[j]);
    NewSince(s.records, s.jobs[j].phase.since);
  }

  lemma {:induction false} DroppedIsNotNewest(s: Sys, job: Job)
    requires Progress(s) && NewestOnly(s.records) && ProgressOk(s, job) && job.phase.Dropped?
    ensures s.records != [] && s.keys.last == LastOf(s.records)
    ensures s.keys.last != NO_ID && s.keys.last != job.phase.lastId
  {
    DedupFacts(s.records);
    NewestIsLastOfLog(s);
  }

  lemma {:induction false} RearmPublishes(c: Chat, s: Sys, j: nat)
    requires j < |s.jobs| && s.jobs[j].phase.Dropped?
    requires s.keys.last != NO_ID && s.keys.last != s.jobs[j].phase.lastId
    ensures Enabled(c, s, Rearm(j))
    ensures Apply(c, s, Rearm(j)).jobs == SetPhase(s, j, Done).jobs + [Job(s.keys.last, s.jobs[j].rearms + 1, Queued)]
  {
  }

  // While only the newest message is recorded again, the check before a send drops the reply exactly when a
  // message has been recorded for the first time since the flush, and lets it pass otherwise; and the re-arm
  // of a dropped reply always publishes a job for the newest message.
  lemma {:induction false} DropIff(c: Chat, run: seq<Event>, j: nat)
    requires ValidRun(c, Init, run) && NewestOnly(After(c, Init, run).records) && j < |After(c, Init, run).jobs|
    ensures var s := After(c, Init, run); var job := s.jobs[j];
            && (job.phase.Flushed? ==>
                  && (Enabled(c, s, Drop(j)) <==> NewMessageSince(s.records, job.phase.since))
                  && (Enabled(c, s, Clear(j)) <==> !NewMessageSince(s.records, job.phase.since)))
            && (job.phase.Dropped? ==>
                  && Enabled(c, s, Rearm(j)) && s.records != []
                  && Apply(c, s, Rearm(j)).jobs ==
                     SetPhase(s, j, Done).jobs + [Job(LastOf(s.records), job.rearms + 1, Queued)])
  {
    var s := After(c, Init, run);
    RunKeepsProgress(c, Init, run);
    if s.jobs[j].phase.Flushed? {
      FlushedDropIff(c, s, j);
    } else if s.jobs[j].phase.Dropped? {
      assert ProgressOk(s, s.jobs[j]);
      DroppedIsNotNewest(s, s.jobs[j]);
      RearmPublishes(c, s, j);
    }
  }

  // ── the watermark ──────────────────────────────────────────────────────────

  lemma {:induction false} PlaceInTheTail(log: seq<Id>, tail: seq<Id>, i: nat)
    requires Distinct(log) && IsSuffix(tail, log) && i < |tail|
    ensures tail[i] in log && IndexOf(log, tail[i]) == |log| - |tail| + i
  {
    var k := |log| - |tail| + i;
    assert log[k] == tail[i];
    IndexInDistinct(log, k);
  }

  lemma {:induction false} LateIsInTheTail(log: seq<Id>, tail: seq<Id>, x: Id)
    requires IsSuffix(tail, log) && x in log && IndexOf(log, x) >= |log| - |tail|
    ensures x in tail
  {
    assert tail[IndexOf(log, x) - (|log| - |tail|)] == x;
  }

  lemma {:induction false} RestIsAt(tail: seq<Id>, wm: Id, x: Id) returns (k: nat)
    requires wm != NO_ID && x in AfterWatermark(tail, wm)
    ensures k < |tail| && tail[k] == x && (wm in tail ==> k > IndexOf(tail, wm))
  {
    var start := if wm in tail then IndexOf(tail, wm) + 1 else 0;
    var rest := AfterWatermark(tail, wm);
    assert rest == tail[start..];
    var i :| 0 <= i < |rest| && rest[i] == x;
    k := start + i;
  }

  lemma {:induction false} BehindTheWatermark(log: seq<Id>, tail: seq<Id>, wm: Id, x: Id)
    requires Distinct(log) && IsSuffix(tail, log) && wm in log && wm != NO_ID && x in AfterWatermark(tail, wm)
    ensures x in log && IndexOf(log, x) > IndexOf(log, wm)
  {
    var k := RestIsAt(tail, wm, x);
    PlaceInTheTail(log, tail, k);
    if wm in tail {
      PlaceInTheTail(log, tail, IndexOf(tail, wm));
    } else if IndexOf(log, wm) >= |log| - |tail| {
      LateIsInTheTail(log, tail, wm);
    }
  }

  // The message is behind another one, in first-recorded order.
  ghost predicate Behind(log: seq<Id>, x: Id, y: Id) {
    y in log && x in log && IndexOf(log, x) > IndexOf(log, y)
  }

  lemma {:induction false} PendingAfter(c: Chat, s: Sys, lastId: Id, x: Id)
    requires KeysOk(s) && Calm(s.records) && lastId in Log(s) && x in AfterWatermark(Loaded(s.keys.list), lastId)
    ensures Behind(Log(s), x, lastId)
  {
    DedupFacts(s.records);
    LoadedIsATail(s.records);
    BehindTheWatermark(Log(s), Loaded(s.keys.list), lastId, x);
  }

  // An answered burst does not come up again: once a job has set the watermark, what is still pending stands
  // behind the last message it answered, in first-recorded order.
  lemma {:induction false} AnsweredIsNotPending(c: Chat, run: seq<Event>, j: nat, x: Id)
    requires ValidRun(c, Init, run) && Calm(After(c, Init, run).records) && Enabled(c, After(c, Init, run), Mark(j))
    requires x in Pending(Apply(c, After(c, Init, run), Mark(j)))
    ensures var s := After(c, Init, run); Behind(Log(s), x, s.jobs[j].phase.lastId)
  {
    RunKeepsInv(c, Init, run);
    MarkedIsNotPending(c, After(c, Init, run), j, x);
  }

  lemma {:induction false} MarkedIsNotPending(c: Chat, s: Sys, j: nat, x: Id)
    requires Inv(s) && Calm(s.records) && Enabled(c, s, Mark(j)) && x in Pending(Apply(c, s, Mark(j)))
    ensures Behind(Log(s), x, s.jobs[j].phase.lastId)
  {
    assert PhaseOk(Log(s), Safe(s), s.jobs[j].phase);
    PendingAfter(c, s, s.jobs[j].phase.lastId, x);
  }
}

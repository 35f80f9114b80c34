/**
  The burst coalescing protocol of one conversation (ai/inbound_coalesce.go, ai/inbound_jobs.go) as
  a transition system. Any number of jobs run at once and interleave at every step; jobs can fail,
  stall, be redelivered and be re-armed at any time.
 */
module CoalesceProtocol {
  import opened BurstWindow
  import opened CoalesceKeys
  import opened Text
  import Stitch

  // What the database knows about a message: when it was stored and what it says.
  datatype Chat = Chat(at: Id -> Instant, body: Id -> string)

  datatype Phase =
    | Queued                                   // published, not started
    | Waiting                                  // recorded, in the quiet window
    | Locked                                   // holds the flush lock
    | Flushed(pending: seq<Id>, since: nat)    // processing `pending`; flushed after `since` records
    | Cleared(pending: seq<Id>, since: nat)    // the drop check before the send has passed
    | Alone                                    // Redis or the database failed: only the job's own message
    | Answered(lastId: Id)                     // processing returned without error, watermark not yet set
    | Dropped(lastId: Id)                      // the send was dropped, not yet re-armed
    | Done

  // `rearms` counts the drop and re-arm rounds that led to this job.
  datatype Job = Job(msg: Id, rearms: nat, phase: Phase)

  // One ProcessAutoReply call that returned without error.
  datatype Call = Call(ids: seq<Id>, text: string, sent: bool)

  // `records` (every record so far), `calls` and `lost` are history; the code never reads them.
  datatype Sys = Sys(keys: Keys, locked: bool, jobs: seq<Job>, records: seq<Id>, calls: seq<Call>, lost: set<Id>)

  const Init := Sys(EmptyKeys, false, [], [], [], {})

  datatype Event =
    | Deliver(msg: Id)     // a job for this message is published
    | Redeliver(j: nat)    // at-least-once delivery hands out a job again
    | Record(j: nat)
    | RecordFails(j: nat)
    | Supersede(j: nat)
    | TakeLock(j: nat)
    | Busy(j: nat)         // the lock is taken: the job errors and is delivered again
    | Flush(j: nat)
    | FlushFails(j: nat)
    | Clear(j: nat)        // the drop check passes
    | Drop(j: nat)         // the drop check fails
    | Reply(j: nat)        // processing returns without error
    | Fail(j: nat)         // processing fails, or the chat is paused for staff
    | Rearm(j: nat)
    | Mark(j: nat)

  function Pending(s: Sys): seq<Id> {
    AfterWatermark(Loaded(s.keys.list), s.keys.wm)
  }

  function BodiesOf(c: Chat, ids: seq<Id>): seq<string> {
    if ids == [] then [] else BodiesOf(c, ids[..|ids| - 1]) + [c.body(ids[|ids| - 1])]
  }

  function TextOf(c: Chat, ids: seq<Id>): string {
    Stitch.StitchedText(BodiesOf(c, ids))
  }

  function LastOf(ids: seq<Id>): Id
    requires ids != []
  {
    ids[|ids| - 1]
  }

  predicate InFlight(p: Phase) {
    p.Flushed? || p.Cleared?
  }

  predicate WellFormedFlush(p: Phase) {
    InFlight(p) ==> p.pending != []
  }

  // When the job of an event may take that step.
  predicate JobEnabled(c: Chat, s: Sys, e: Event, job: Job) {
    match e
    case Deliver(_) | Redeliver(_) => true
    case Record(_) | RecordFails(_) => job.phase == Queued
    case Supersede(_) => job.phase == Waiting && s.keys.lastAt > c.at(job.msg)
    case TakeLock(_) => job.phase == Waiting && s.keys.lastAt <= c.at(job.msg) && !s.locked
    case Busy(_) => job.phase == Waiting && s.keys.lastAt <= c.at(job.msg) && s.locked
    case Flush(_) | FlushFails(_) => job.phase == Locked
    case Clear(_) =>
      job.phase.Flushed? && WellFormedFlush(job.phase)
      && (s.keys.last == NO_ID || s.keys.last == LastOf(job.phase.pending))
    case Drop(_) =>
      job.phase.Flushed? && WellFormedFlush(job.phase)
      && s.keys.last != NO_ID && s.keys.last != LastOf(job.phase.pending)
    case Reply(_) => (InFlight(job.phase) && WellFormedFlush(job.phase)) || job.phase == Alone
    case Fail(_) => InFlight(job.phase) || job.phase == Alone
    case Rearm(_) => job.phase.Dropped?
    case Mark(_) => job.phase.Answered?
  }

  predicate Enabled(c: Chat, s: Sys, e: Event) {
    if e.Deliver? then e.msg != NO_ID
    else e.j < |s.jobs| && JobEnabled(c, s, e, s.jobs[e.j])
  }

  function SetPhase(s: Sys, j: nat, p: Phase): Sys
    requires j < |s.jobs|
  {
    s.(jobs := s.jobs[j := s.jobs[j].(phase := p)])
  }

  // Recording pushes the id onto the capped list. A message that leaves the list before any
  // successful call had it is lost to the burst.
  function RecordIn(c: Chat, s: Sys, id: Id): Sys {
    var keys := Recorded(s.keys, id, c.at(id));
    s.(keys := keys, records := s.records + [id],
       lost := s.lost + (set x | x in s.keys.list && x !in keys.list && x !in Answers(s.calls)))
  }

  function FlushPhase(c: Chat, s: Sys, msg: Id): Phase {
    if s.keys.lastAt > c.at(msg) || Pending(s) == [] || TextOf(c, Pending(s)) == "" then Done
    else Flushed(Pending(s), |s.records|)
  }

  function Apply(c: Chat, s: Sys, e: Event): Sys
    requires Enabled(c, s, e)
  {
    match e
    case Deliver(msg) => s.(jobs := s.jobs + [Job(msg, 0, Queued)])
    case Redeliver(j) => s.(jobs := s.jobs + [s.jobs[j].(phase := Queued)])
    case Record(j) => SetPhase(RecordIn(c, s, s.jobs[j].msg), j, Waiting)
    case RecordFails(j) => SetPhase(s, j, Alone)
    case Supersede(j) => SetPhase(s, j, Done)
    case TakeLock(j) => SetPhase(s.(locked := true), j, Locked)
    case Busy(j) => SetPhase(s, j, Queued)
    case Flush(j) => SetPhase(s.(locked := false), j, FlushPhase(c, s, s.jobs[j].msg))
    case FlushFails(j) => SetPhase(s.(locked := false), j, Alone)
    case Clear(j) => SetPhase(s, j, Cleared(s.jobs[j].phase.pending, s.jobs[j].phase.since))
    case Drop(j) => SetPhase(s, j, Dropped(LastOf(s.jobs[j].phase.pending)))
    case Reply(j) =>
      var job := s.jobs[j];
      if job.phase == Alone then
        SetPhase(s.(calls := s.calls + [Call([job.msg], c.body(job.msg), true)]), j, Done)
      else
        var p := job.phase.pending;
        SetPhase(s.(calls := s.calls + [Call(p, TextOf(c, p), job.phase.Cleared?)]), j, Answered(LastOf(p)))
    case Fail(j) => SetPhase(s, j, Done)
    case Rearm(j) =>
      var job := s.jobs[j];
      var s' := SetPhase(s, j, Done);
      if s.keys.last == NO_ID || s.keys.last == job.phase.lastId then s'
      else s'.(jobs := s'.jobs + [Job(s.keys.last, job.rearms + 1, Queued)])
    case Mark(j) => SetPhase(s.(keys := s.keys.(wm := s.jobs[j].phase.lastId)), j, Done)
  }

  // A run: every event is enabled when it happens.
  predicate ValidRun(c: Chat, s: Sys, run: seq<Event>)
    decreases |run|
  {
    run == [] || (Enabled(c, s, run[0]) && ValidRun(c, Apply(c, s, run[0]), run[1..]))
  }

  function After(c: Chat, s: Sys, run: seq<Event>): Sys
    requires ValidRun(c, s, run)
    decreases |run|
  {
    if run == [] then s else After(c, Apply(c, s, run[0]), run[1..])
  }

  // All messages of the successful calls.
  function Answers(calls: seq<Call>): set<Id> {
    if calls == [] then {} else Answers(calls[..|calls| - 1]) + IdSet(calls[|calls| - 1].ids)
  }

  function IdSet(ids: seq<Id>): set<Id> {
    set x | x in ids
  }

  // The buyer's messages in first-recorded order.
  function Log(s: Sys): seq<Id> {
    Dedup(s.records)
  }

  // Every message up to and including x, in first-recorded order, is in `ids`.
  ghost predicate CoveredUpTo(log: seq<Id>, x: Id, ids: set<Id>) {
    x in log && forall k :: 0 <= k <= IndexOf(log, x) ==> log[k] in ids
  }

  // The two situations the code is written for: the list has not overflowed, or a message is only
  // ever recorded again while it is still the newest one.
  ghost predicate Calm(records: seq<Id>) {
    |records| <= MAX_BURST || NewestOnly(records)
  }

  // ── what every step keeps ──────────────────────────────────────────────────

  function Safe(s: Sys): set<Id> {
    Answers(s.calls) + s.lost
  }

  ghost predicate PhaseOk(log: seq<Id>, safe: set<Id>, p: Phase) {
    match p
    case Flushed(pending, _) => pending != [] && CoveredUpTo(log, LastOf(pending), safe + IdSet(pending))
    case Cleared(pending, _) => pending != [] && CoveredUpTo(log, LastOf(pending), safe + IdSet(pending))
    case Answered(lastId) => CoveredUpTo(log, lastId, safe)
    case _ => true
  }

  ghost predicate JobsOk(s: Sys) {
    forall j :: 0 <= j < |s.jobs| ==> s.jobs[j].msg != NO_ID && PhaseOk(Log(s), Safe(s), s.jobs[j].phase)
  }

  ghost predicate KeysOk(s: Sys) {
    && s.keys.list == ListAfter(s.records)
    && NO_ID !in s.records
    && (s.keys.wm != NO_ID ==> CoveredUpTo(Log(s), s.keys.wm, Safe(s)))
    && (forall x :: x in s.records ==> x in s.keys.list || x in Safe(s))
    && (|s.records| <= MAX_BURST ==> s.lost == {})
  }

  ghost predicate Inv(s: Sys) {
    KeysOk(s) && JobsOk(s)
  }

  lemma {:induction false} CoverageGrows(log: seq<Id>, log': seq<Id>, x: Id, ids: set<Id>, ids': set<Id>)
    requires CoveredUpTo(log, x, ids) && log <= log' && ids <= ids'
    ensures CoveredUpTo(log', x, ids')
  {
    IndexInLongerLog(log, log', x);
    forall k | 0 <= k <= IndexOf(log', x) ensures log'[k] in ids' {
      assert log[k] in ids;
    }
  }

  lemma {:induction false} IndexInLongerLog(s: seq<Id>, s': seq<Id>, x: Id)
    requires x in s && s <= s'
    ensures x in s' && IndexOf(s', x) == IndexOf(s, x)
  {
    if s[0] != x {
      IndexInLongerLog(s[1..], s'[1..], x);
    }
  }

  lemma {:induction false} PhaseOkGrows(log: seq<Id>, log': seq<Id>, safe: set<Id>, safe': set<Id>, p: Phase)
    requires PhaseOk(log, safe, p) && log <= log' && safe <= safe'
    ensures PhaseOk(log', safe', p)
  {
    match p
    case Flushed(pending, _) =>
      CoverageGrows(log, log', LastOf(pending), safe + IdSet(pending), safe' + IdSet(pending));
    case Cleared(pending, _) =>
      CoverageGrows(log, log', LastOf(pending), safe + IdSet(pending), safe' + IdSet(pending));
    case Answered(lastId) =>
      CoverageGrows(log, log', lastId, safe, safe');
    case _ =>
  }

  // A flush takes everything that is neither answered nor lost.
  lemma {:induction false} FlushCoversTheLog(log: seq<Id>, tail: seq<Id>, wm: Id, safe: set<Id>)
    requires Distinct(log) && IsSuffix(tail, log)
    requires forall k :: 0 <= k < |log| - |tail| ==> log[k] in safe
    requires wm != NO_ID ==> CoveredUpTo(log, wm, safe)
    requires AfterWatermark(tail, wm) != []
    ensures CoveredUpTo(log, LastOf(AfterWatermark(tail, wm)), safe + IdSet(AfterWatermark(tail, wm)))
  {
    var pending, cut := AfterWatermark(tail, wm), |log| - |tail|;
    assert LastOf(pending) == log[|log| - 1];
    forall k | 0 <= k < |log| ensures log[k] in safe + IdSet(pending) {
      if k >= cut {
        var i := k - cut;
        assert tail[i] == log[k];
        if wm != NO_ID && wm in tail {
          var w := IndexOf(tail, wm);
          if i <= w {
            assert log[cut + w] == wm;
            IndexInDistinct(log, cut + w);
          } else {
            assert pending[i - w - 1] == log[k];
          }
        }
      }
    }
  }

  ghost predicate Grows(s: Sys, s': Sys) {
    Log(s) <= Log(s') && Safe(s) <= Safe(s')
  }

  lemma {:induction false} JobStepOk(s: Sys, s': Sys, j: nat, p: Phase)
    requires JobsOk(s) && Grows(s, s') && j < |s.jobs|
    requires s'.jobs == s.jobs[j := s.jobs[j].(phase := p)]
    requires PhaseOk(Log(s'), Safe(s'), p)
    ensures JobsOk(s')
  {
    forall i | 0 <= i < |s'.jobs|
      ensures s'.jobs[i].msg != NO_ID && PhaseOk(Log(s'), Safe(s'), s'.jobs[i].phase)
    {
      if i != j {
        PhaseOkGrows(Log(s), Log(s'), Safe(s), Safe(s'), s.jobs[i].phase);
      }
    }
  }

  lemma {:induction false} AnswersSnoc(calls: seq<Call>, call: Call)
    ensures Answers(calls + [call]) == Answers(calls) + IdSet(call.ids)
  {
    assert (calls + [call])[..|calls|] == calls;
  }

  // Recording keeps what the keys promise, and grows the log.
  lemma {:induction false} RecordKeeps(c: Chat, s: Sys, id: Id)
    requires KeysOk(s) && id != NO_ID
    ensures KeysOk(RecordIn(c, s, id)) && Grows(s, RecordIn(c, s, id))
  {
    var s' := RecordIn(c, s, id);
    assert s'.records[..|s.records|] == s.records;
    DedupSnoc(s.records, id);
    ListIsTheLastTwenty(s.records);
    RecordKeepsRecent(c, s, id);
    if s.keys.wm != NO_ID {
      CoverageGrows(Log(s), Log(s'), s.keys.wm, Safe(s), Safe(s'));
    }
  }

  lemma {:induction false} RecordKeepsRecent(c: Chat, s: Sys, id: Id)
    requires KeysOk(s)
    ensures var s' := RecordIn(c, s, id);
            && (forall x :: x in s'.records ==> x in s'.keys.list || x in Safe(s'))
            && (|s'.records| <= MAX_BURST ==> s'.lost == {})
  {
    var s' := RecordIn(c, s, id);
    ListIsTheLastTwenty(s.records);
    assert s'.keys.list == LastN(s.keys.list + [id], MAX_BURST);
    assert s'.keys.list != [] && s'.keys.list[|s'.keys.list| - 1] == id;
    if |s'.records| <= MAX_BURST {
      assert s'.keys.list == s.keys.list + [id];
    }
  }

  // The loaded list is a tail of the log, and what comes before it is safe.
  lemma {:induction false} FlushKeeps(c: Chat, s: Sys)
    requires KeysOk(s) && Calm(s.records) && Pending(s) != []
    ensures CoveredUpTo(Log(s), LastOf(Pending(s)), Safe(s) + IdSet(Pending(s)))
  {
    var tail := Loaded(s.keys.list);
    LoadedIsATail(s.records);
    DedupFacts(s.records);
    forall k | 0 <= k < |Log(s)| - |tail| ensures Log(s)[k] in Safe(s) {
      BeforeTheTail(s, k);
    }
    FlushCoversTheLog(Log(s), tail, s.keys.wm, Safe(s));
  }

  lemma {:induction false} BeforeTheTail(s: Sys, k: nat)
    requires KeysOk(s)
    requires IsSuffix(Loaded(s.keys.list), Log(s)) && k < |Log(s)| - |Loaded(s.keys.list)|
    ensures Log(s)[k] in Safe(s)
  {
    var x, tail := Log(s)[k], Loaded(s.keys.list);
    DedupFacts(s.records);
    assert x in s.records && x != NO_ID;
    forall i | 0 <= i < |tail| ensures tail[i] != x {
      assert tail[i] == Log(s)[|Log(s)| - |tail| + i];
    }
    LoadedOfRecords(s.records);
    ListIsTheLastTwenty(s.records);
    DedupFacts(s.keys.list);
  }

  lemma {:induction false} RecordStep(c: Chat, s: Sys, j: nat)
    requires Inv(s) && Enabled(c, s, Record(j))
    ensures Inv(Apply(c, s, Record(j)))
  {
    var r, s' := RecordIn(c, s, s.jobs[j].msg), Apply(c, s, Record(j));
    RecordKeeps(c, s, s.jobs[j].msg);
    assert KeysOk(s') && Grows(s, s');
    JobStepOk(s, s', j, Waiting);
  }

  lemma {:induction false} FlushStep(c: Chat, s: Sys, j: nat)
    requires Inv(s) && Enabled(c, s, Flush(j)) && Calm(s.records)
    ensures Inv(Apply(c, s, Flush(j)))
  {
    var s' := Apply(c, s, Flush(j));
    if FlushPhase(c, s, s.jobs[j].msg).Flushed? {
      FlushKeeps(c, s);
    }
    assert KeysOk(s') && Grows(s, s');
    JobStepOk(s, s', j, s'.jobs[j].phase);
  }

  lemma {:induction false} ReplyStep(c: Chat, s: Sys, j: nat)
    requires Inv(s) && Enabled(c, s, Reply(j))
    ensures Inv(Apply(c, s, Reply(j)))
  {
    var s' := Apply(c, s, Reply(j));
    AnswersSnoc(s.calls, LastCall(s'));
    assert Safe(s') == Safe(s) + IdSet(LastCall(s').ids);
    if s.keys.wm != NO_ID {
      CoverageGrows(Log(s), Log(s'), s.keys.wm, Safe(s), Safe(s'));
    }
    assert KeysOk(s');
    JobStepOk(s, s', j, s'.jobs[j].phase);
  }

  function LastCall(s: Sys): Call
    requires s.calls != []
  {
    s.calls[|s.calls| - 1]
  }

  lemma {:induction false} MarkStep(c: Chat, s: Sys, j: nat)
    requires Inv(s) && Enabled(c, s, Mark(j))
    ensures Inv(Apply(c, s, Mark(j)))
  {
    var s' := Apply(c, s, Mark(j));
    assert PhaseOk(Log(s), Safe(s), s.jobs[j].phase);
    assert KeysOk(s');
    JobStepOk(s, s', j, Done);
  }

  // Events that touch neither the records, the calls nor the watermark.
  lemma {:induction false} QuietStep(c: Chat, s: Sys, e: Event)
    requires Inv(s) && Enabled(c, s, e)
    requires !(e.Record? || e.Flush? || e.Reply? || e.Mark? || e.Rearm? || e.Deliver? || e.Redeliver?)
    ensures Inv(Apply(c, s, e))
  {
    var s' := Apply(c, s, e);
    assert PhaseOk(Log(s), Safe(s), s.jobs[e.j].phase);
    assert KeysOk(s') && Grows(s, s');
    JobStepOk(s, s', e.j, s'.jobs[e.j].phase);
  }

  lemma {:induction false} NewJobStep(c: Chat, s: Sys, e: Event)
    requires Inv(s) && Enabled(c, s, e)
    requires e.Rearm? || e.Deliver? || e.Redeliver?
    ensures Inv(Apply(c, s, e))
  {
    var s' := Apply(c, s, e);
    assert KeysOk(s');
  }

  lemma {:induction false} StepKeepsInv(c: Chat, s: Sys, e: Event)
    requires Inv(s) && Enabled(c, s, e) && Calm(s.records)
    ensures Inv(Apply(c, s, e))
  {
    match e
    case Record(j) => RecordStep(c, s, j);
    case Flush(j) => FlushStep(c, s, j);
    case Reply(j) => ReplyStep(c, s, j);
    case Mark(j) => MarkStep(c, s, j);
    case Rearm(_) => NewJobStep(c, s, e);
    case Deliver(_) => NewJobStep(c, s, e);
    case Redeliver(_) => NewJobStep(c, s, e);
    case _ => QuietStep(c, s, e);
  }

  lemma {:induction false} RecordsGrow(c: Chat, s: Sys, run: seq<Event>)
    requires ValidRun(c, s, run)
    ensures s.records <= After(c, s, run).records
    decreases |run|
  {
    if run != [] {
      RecordsGrow(c, Apply(c, s, run[0]), run[1..]);
    }
  }

  lemma {:induction false} CalmBefore(records: seq<Id>, later: seq<Id>)
    requires records <= later && Calm(later)
    ensures Calm(records)
  {
    if |later| > MAX_BURST {
      NewestOnlyPrefix(later, |records|);
      assert later[..|records|] == records;
    }
  }

  lemma {:induction false} RunKeepsInv(c: Chat, s: Sys, run: seq<Event>)
    requires Inv(s) && ValidRun(c, s, run) && Calm(After(c, s, run).records)
    ensures Inv(After(c, s, run))
    decreases |run|
  {
    if run != [] {
      RecordsGrow(c, s, run);
      CalmBefore(s.records, After(c, s, run).records);
      StepKeepsInv(c, s, run[0]);
      RunKeepsInv(c, Apply(c, s, run[0]), run[1..]);
    }
  }

  // ── coverage ───────────────────────────────────────────────────────────────

  // Message x was part of a call that returned without error, and its text reached that call.
  ghost predicate Reached(c: Chat, call: Call, x: Id) {
    && x in call.ids
    && (!Blank(c.body(x)) ==> Contains(call.text, Trim(c.body(x))))
  }

  ghost predicate WasAnswered(c: Chat, calls: seq<Call>, x: Id) {
    exists n :: 0 <= n < |calls| && Reached(c, calls[n], x)
  }

  ghost predicate CallTextOk(c: Chat, call: Call) {
    call.text == TextOf(c, call.ids) || (|call.ids| == 1 && call.text == c.body(call.ids[0]))
  }

  ghost predicate CallsOk(c: Chat, calls: seq<Call>) {
    forall n :: 0 <= n < |calls| ==> CallTextOk(c, calls[n])
  }

  lemma {:induction false} RunKeepsCallTexts(c: Chat, s: Sys, run: seq<Event>)
    requires ValidRun(c, s, run) && CallsOk(c, s.calls)
    ensures CallsOk(c, After(c, s, run).calls)
    decreases |run|
  {
    if run != [] {
      RunKeepsCallTexts(c, Apply(c, s, run[0]), run[1..]);
    }
  }

  lemma {:induction false} BodiesOfFacts(c: Chat, ids: seq<Id>)
    ensures |BodiesOf(c, ids)| == |ids|
    ensures forall k :: 0 <= k < |ids| ==> BodiesOf(c, ids)[k] == c.body(ids[k])
  {
    if ids != [] {
      BodiesOfFacts(c, ids[..|ids| - 1]);
    }
  }

  lemma {:induction false} CallReachesItsMessages(c: Chat, call: Call, x: Id)
    requires CallTextOk(c, call) && x in call.ids
    ensures Reached(c, call, x)
  {
    if !Blank(c.body(x)) {
      if call.text == TextOf(c, call.ids) {
        var k :| 0 <= k < |call.ids| && call.ids[k] == x;
        BodiesOfFacts(c, call.ids);
        Stitch.StitchedTextHasEveryBody(BodiesOf(c, call.ids), k);
      } else {
        TrimIsContained(c.body(x));
      }
    }
  }

  lemma {:induction false} AnswersWereCalls(c: Chat, calls: seq<Call>, x: Id)
    requires CallsOk(c, calls) && x in Answers(calls)
    ensures WasAnswered(c, calls, x)
  {
    var n := |calls| - 1;
    if x in calls[n].ids {
      CallReachesItsMessages(c, calls[n], x);
    } else {
      AnswersWereCalls(c, calls[..n], x);
      var m :| 0 <= m < n && Reached(c, calls[..n][m], x);
      assert Reached(c, calls[m], x);
    }
  }

  // Coverage. In every interleaving, every message at or before the watermark reached a call that
  // returned without error, or had been pushed off the 20-entry list before any call had it; below
  // the cap nothing is pushed off. A slow job that moves the watermark back changes nothing.
  lemma {:induction false} Coverage(c: Chat, run: seq<Event>)
    requires ValidRun(c, Init, run) && Calm(After(c, Init, run).records)
    ensures var s := After(c, Init, run);
            s.keys.wm != NO_ID ==>
              && s.keys.wm in Log(s)
              && forall k :: 0 <= k <= IndexOf(Log(s), s.keys.wm) ==>
                   WasAnswered(c, s.calls, Log(s)[k]) || Log(s)[k] in s.lost
    ensures |After(c, Init, run).records| <= MAX_BURST ==> After(c, Init, run).lost == {}
  {
    var s := After(c, Init, run);
    RunKeepsInv(c, Init, run);
    RunKeepsCallTexts(c, Init, run);
    if s.keys.wm != NO_ID {
      forall k | 0 <= k <= IndexOf(Log(s), s.keys.wm)
        ensures WasAnswered(c, s.calls, Log(s)[k]) || Log(s)[k] in s.lost
      {
        if Log(s)[k] !in s.lost {
          AnswersWereCalls(c, s.calls, Log(s)[k]);
        }
      }
    }
  }

  // ── progress ───────────────────────────────────────────────────────────────

  // Where a message stands in first-recorded order.
  function Position(s: Sys, x: Id): nat
    requires x in Log(s)
  {
    IndexOf(Log(s), x)
  }

  ghost predicate KnownAt(s: Sys, x: Id, n: nat) {
    x in Log(s) && Position(s, x) >= n
  }

  ghost predicate ProgressOk(s: Sys, job: Job) {
    && (job.rearms > 0 ==> KnownAt(s, job.msg, job.rearms))
    && (InFlight(job.phase) ==>
          && job.phase.pending != []
          && 0 < job.phase.since <= |s.records|
          && LastOf(job.phase.pending) == s.records[job.phase.since - 1]
          && KnownAt(s, LastOf(job.phase.pending), job.rearms))
    && (job.phase.Dropped? ==>
          KnownAt(s, job.phase.lastId, job.rearms) && Position(s, job.phase.lastId) < |Log(s)| - 1)
    && ((job.phase == Waiting || job.phase == Locked) ==> job.msg in Log(s))
  }

  ghost predicate Progress(s: Sys) {
    && s.keys.list == ListAfter(s.records) && NO_ID !in s.records
    && s.keys.last == (if s.records == [] then NO_ID else LastOf(s.records))
    && forall j :: 0 <= j < |s.jobs| ==> s.jobs[j].msg != NO_ID && ProgressOk(s, s.jobs[j])
  }

  lemma {:induction false} KnownAtGrows(s: Sys, s': Sys, x: Id, n: nat)
    requires KnownAt(s, x, n) && Log(s) <= Log(s')
    ensures KnownAt(s', x, n) && Position(s', x) == Position(s, x)
  {
    IndexInLongerLog(Log(s), Log(s'), x);
  }

  lemma {:induction false} ProgressOkGrows(s: Sys, s': Sys, job: Job)
    requires ProgressOk(s, job) && Log(s) <= Log(s') && s.records <= s'.records
    ensures ProgressOk(s', job)
  {
    if job.rearms > 0 {
      KnownAtGrows(s, s', job.msg, job.rearms);
    }
    if InFlight(job.phase) {
      KnownAtGrows(s, s', LastOf(job.phase.pending), job.rearms);
    }
    if job.phase.Dropped? {
      KnownAtGrows(s, s', job.phase.lastId, job.rearms);
    }
  }

  // What a flush takes ends with the newest message, which is then also the `last` key.
  lemma {:induction false} FlushEndsAtTheNewest(s: Sys)
    requires Progress(s) && NewestOnly(s.records) && Pending(s) != []
    ensures s.records != [] && LastOf(Pending(s)) == LastOf(s.records) == LastOf(Log(s)) == s.keys.last
  {
    LoadedIsATail(s.records);
    NewestIsLastOfLog(s);
  }

  lemma {:induction false} NewestIsLastOfLog(s: Sys)
    requires Progress(s) && NewestOnly(s.records)
    ensures s.records != [] ==> Log(s) != [] && LastOf(Log(s)) == LastOf(s.records) == s.keys.last
    ensures s.records != [] ==> s.keys.last in Log(s) && Position(s, s.keys.last) == |Log(s)| - 1
    ensures s.records == [] ==> Loaded(s.keys.list) == []
  {
    if s.records != [] {
      NewestIsLast(s.records);
      DedupFacts(s.records);
      IndexInDistinct(Log(s), |Log(s)| - 1);
    }
  }

  lemma {:induction false} JobProgress(s: Sys, s': Sys, j: nat, p: Phase)
    requires Progress(s) && j < |s.jobs| && Log(s) <= Log(s') && s.records <= s'.records
    requires s'.jobs == s.jobs[j := s.jobs[j].(phase := p)]
    requires s'.keys.list == ListAfter(s'.records) && NO_ID !in s'.records
    requires s'.keys.last == (if s'.records == [] then NO_ID else LastOf(s'.records))
    requires ProgressOk(s', s'.jobs[j])
    ensures Progress(s')
  {
    forall i | 0 <= i < |s'.jobs| ensures s'.jobs[i].msg != NO_ID && ProgressOk(s', s'.jobs[i]) {
      if i != j {
        ProgressOkGrows(s, s', s.jobs[i]);
      }
    }
  }

  lemma {:induction false} RecordGrows(c: Chat, s: Sys, id: Id)
    ensures var s' := RecordIn(c, s, id);
            && s.records <= s'.records && Log(s) <= Log(s') && s'.records[|s.records|] == id
            && s'.keys.list == Push(s.keys.list, id) && s'.keys.last == id && (id != NO_ID ==> id in Log(s'))
            && ListAfter(s'.records) == Push(ListAfter(s.records), id)
  {
    var s' := RecordIn(c, s, id);
    assert s'.records[..|s.records|] == s.records;
    DedupSnoc(s.records, id);
    DedupFacts(s'.records);
  }

  lemma {:induction false} RecordProgress(c: Chat, s: Sys, j: nat)
    requires Progress(s) && Enabled(c, s, Record(j))
    ensures Progress(Apply(c, s, Record(j)))
  {
    var s', id := Apply(c, s, Record(j)), s.jobs[j].msg;
    RecordGrows(c, s, id);
    ProgressOkGrows(s, s', s.jobs[j]);
    JobProgress(s, s', j, Waiting);
  }

  lemma {:induction false} FlushedIsKnown(s: Sys, job: Job)
    requires Progress(s) && NewestOnly(s.records) && Pending(s) != [] && ProgressOk(s, job) && job.phase == Locked
    ensures ProgressOk(s, job.(phase := Flushed(Pending(s), |s.records|)))
  {
    FlushEndsAtTheNewest(s);
    NewestIsLastOfLog(s);
  }

  lemma {:induction false} FlushProgress(c: Chat, s: Sys, j: nat)
    requires Progress(s) && Enabled(c, s, Flush(j)) && NewestOnly(s.records)
    ensures Progress(Apply(c, s, Flush(j)))
  {
    var s', job := Apply(c, s, Flush(j)), s.jobs[j];
    assert ProgressOk(s, job);
    if FlushPhase(c, s, job.msg).Flushed? {
      FlushedIsKnown(s, job);
      ProgressOkGrows(s, s', s'.jobs[j]);
      JobProgress(s, s', j, s'.jobs[j].phase);
    } else {
      SettledProgress(s, s', j, Done);
    }
  }

  lemma {:induction false} DroppedIsKnown(s: Sys, job: Job)
    requires Progress(s) && NewestOnly(s.records) && ProgressOk(s, job) && job.phase.Flushed?
    requires s.keys.last != NO_ID && s.keys.last != LastOf(job.phase.pending)
    ensures ProgressOk(s, job.(phase := Dropped(LastOf(job.phase.pending))))
  {
    var x := LastOf(job.phase.pending);
    NewestIsLastOfLog(s);
    assert Log(s)[Position(s, x)] == x;
  }

  lemma {:induction false} DropProgress(c: Chat, s: Sys, j: nat)
    requires Progress(s) && Enabled(c, s, Drop(j)) && NewestOnly(s.records)
    ensures Progress(Apply(c, s, Drop(j)))
  {
    var s', job := Apply(c, s, Drop(j)), s.jobs[j];
    DroppedIsKnown(s, job);
    ProgressOkGrows(s, s', s'.jobs[j]);
    JobProgress(s, s', j, s'.jobs[j].phase);
  }

  lemma {:induction false} JobAdded(s: Sys, s': Sys, job: Job)
    requires Progress(s) && s' == s.(jobs := s.jobs + [job])
    requires job.msg != NO_ID && ProgressOk(s', job)
    ensures Progress(s')
  {
    forall i | 0 <= i < |s'.jobs| ensures s'.jobs[i].msg != NO_ID && ProgressOk(s', s'.jobs[i]) {
      if i < |s.jobs| {
        ProgressOkGrows(s, s', s.jobs[i]);
      }
    }
  }

  lemma {:induction false} RearmProgress(c: Chat, s: Sys, j: nat)
    requires Progress(s) && Enabled(c, s, Rearm(j)) && NewestOnly(s.records)
    ensures Progress(Apply(c, s, Rearm(j)))
  {
    var s0, s', job := SetPhase(s, j, Done), Apply(c, s, Rearm(j)), s.jobs[j];
    assert ProgressOk(s, job);
    JobProgress(s, s0, j, Done);
    if s' != s0 {
      NewestIsLastOfLog(s);
      JobAdded(s0, s', Job(s.keys.last, job.rearms + 1, Queued));
    }
  }

  lemma {:induction false} QuietProgress(c: Chat, s: Sys, e: Event)
    requires Progress(s) && Enabled(c, s, e)
    requires e.RecordFails? || e.Supersede? || e.TakeLock? || e.Busy? || e.FlushFails? || e.Fail?
    ensures Progress(Apply(c, s, e))
  {
    var s' := Apply(c, s, e);
    assert ProgressOk(s, s.jobs[e.j]);
    JobProgress(s, s', e.j, s'.jobs[e.j].phase);
  }

  lemma {:induction false} ClearProgress(c: Chat, s: Sys, j: nat)
    requires Progress(s) && Enabled(c, s, Clear(j))
    ensures Progress(Apply(c, s, Clear(j)))
  {
    assert ProgressOk(s, s.jobs[j]);
    JobProgress(s, Apply(c, s, Clear(j)), j, Cleared(s.jobs[j].phase.pending, s.jobs[j].phase.since));
  }

  // A job that has left the processing phases promises nothing but its re-arm count.
  lemma {:induction false} SettledProgress(s: Sys, s': Sys, j: nat, p: Phase)
    requires Progress(s) && j < |s.jobs| && s'.records == s.records
    requires s'.keys.list == s.keys.list && s'.keys.last == s.keys.last
    requires s'.jobs == s.jobs[j := s.jobs[j].(phase := p)] && (p.Done? || p.Answered?)
    ensures Progress(s')
  {
    assert ProgressOk(s, s.jobs[j]);
    JobProgress(s, s', j, p);
  }

  lemma {:induction false} EndProgress(c: Chat, s: Sys, e: Event)
    requires Progress(s) && Enabled(c, s, e) && (e.Reply? || e.Mark?)
    ensures Progress(Apply(c, s, e))
  {
    SettledProgress(s, Apply(c, s, e), e.j, Apply(c, s, e).jobs[e.j].phase);
  }

  lemma {:induction false} NewJobProgress(c: Chat, s: Sys, e: Event)
    requires Progress(s) && Enabled(c, s, e) && (e.Deliver? || e.Redeliver?)
    ensures Progress(Apply(c, s, e))
  {
    var s' := Apply(c, s, e);
    if e.Redeliver? {
      ProgressOkGrows(s, s', s.jobs[e.j]);
    }
    JobAdded(s, s', s'.jobs[|s.jobs|]);
  }

  lemma {:induction false} StepKeepsProgress(c: Chat, s: Sys, e: Event)
    requires Progress(s) && Enabled(c, s, e) && NewestOnly(s.records)
    ensures Progress(Apply(c, s, e))
  {
    match e
    case Record(j) => RecordProgress(c, s, j);
    case Flush(j) => FlushProgress(c, s, j);
    case Drop(j) => DropProgress(c, s, j);
    case Rearm(j) => RearmProgress(c, s, j);
    case Deliver(_) => NewJobProgress(c, s, e);
    case Redeliver(_) => NewJobProgress(c, s, e);
    case Clear(j) => ClearProgress(c, s, j);
    case Reply(_) => EndProgress(c, s, e);
    case Mark(_) => EndProgress(c, s, e);
    case _ => QuietProgress(c, s, e);
  }

  lemma {:induction false} RunKeepsProgress(c: Chat, s: Sys, run: seq<Event>)
    requires Progress(s) && ValidRun(c, s, run) && NewestOnly(After(c, s, run).records)
    ensures Progress(After(c, s, run))
    decreases |run|
  {
    if run != [] {
      RecordsGrow(c, s, run);
      var later := After(c, s, run).records;
      NewestOnlyPrefix(later, |s.records|);
      assert later[..|s.records|] == s.records;
      StepKeepsProgress(c, s, run[0]);
      RunKeepsProgress(c, Apply(c, s, run[0]), run[1..]);
    }
  }

  // Equal records of a newest-only sequence have nothing else between them.
  lemma {:induction false} RepeatsAreContiguous(records: seq<Id>, i: nat, k: nat)
    requires NewestOnly(records) && i <= k < |records| && records[i] == records[k]
    ensures forall m :: i <= m <= k ==> records[m] == records[k]
  {
    if i < k {
      assert records[..k][i] == records[k];
      RepeatsAreContiguous(records, i, k - 1);
    }
  }

  lemma {:induction false} DropIsJustified(c: Chat, s: Sys, j: nat)
    requires Progress(s) && NewestOnly(s.records) && Enabled(c, s, Drop(j))
    ensures var since := s.jobs[j].phase.since;
            since <= |s.records| && s.keys.last in s.records[since..] && s.keys.last !in s.records[..since]
  {
    assert ProgressOk(s, s.jobs[j]);
    var since, n := s.jobs[j].phase.since, |s.records| - 1;
    forall i | 0 <= i < since ensures s.records[i] != s.keys.last {
      if s.records[i] == s.keys.last {
        RepeatsAreContiguous(s.records, i, n);
      }
    }
    assert s.records[since..][n - since] == s.keys.last;
  }

  // While messages are only recorded again as the newest one: a flush ends at the message that is
  // `last` at that moment; a send is dropped only because a message was recorded for the first
  // time since the flush; and a chain of drop and re-arm rounds is shorter than the number of the
  // buyer's messages.
  lemma {:induction false} DropAndRearmProgress(c: Chat, run: seq<Event>, j: nat)
    requires ValidRun(c, Init, run) && NewestOnly(After(c, Init, run).records)
    requires j < |After(c, Init, run).jobs|
    ensures var s := After(c, Init, run); var job := s.jobs[j];
            && (Enabled(c, s, Flush(j)) && FlushPhase(c, s, job.msg).Flushed? ==>
                  LastOf(FlushPhase(c, s, job.msg).pending) == s.keys.last)
            && (Enabled(c, s, Drop(j)) ==>
                  && job.phase.since <= |s.records|
                  && s.keys.last in s.records[job.phase.since..]
                  && s.keys.last !in s.records[..job.phase.since])
            && (job.rearms > 0 ==> job.rearms < |Log(s)|)
  {
    var s := After(c, Init, run);
    RunKeepsProgress(c, Init, run);
    assert ProgressOk(s, s.jobs[j]);
    if Enabled(c, s, Flush(j)) && FlushPhase(c, s, s.jobs[j].msg).Flushed? {
      FlushEndsAtTheNewest(s);
    }
    if Enabled(c, s, Drop(j)) {
      DropIsJustified(c, s, j);
    }
  }
}

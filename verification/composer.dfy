/**
  The Composer job of one incident (admin/ai_triage_behavior_job.go, the dispatch part of
  admin/ai_triage_incident.go, and the callbacks of admin/ai_triage_behavior_internal.go and
  admin/ai_triage_behavior_verify.go): its status, its attempts, and how often it is dispatched.
 */
module Composer {
  import opened Writes

  const MAX_ATTEMPTS: nat := 2
  const STALE_WITHOUT_URL: int := 3 * 60
  const STALE_WITH_URL: int := 50 * 60

  datatype Status = Planning | TestReady | FixRunning | PRReady | AlreadyFixed | VerifyPending | Verified | Failed
                  | NeedsHuman | NeedsCustomer

  // `updated` is in seconds. `dispatches` and `reclaims` count what has happened to the job.
  datatype Job = Job(status: Status, hasUrl: bool, attempts: nat, updated: int, dispatches: nat, reclaims: nat)

  datatype State = NoJob | TheJob(job: Job)

  // The answers of one dispatch: setting the status, GitHub, and recording a failure.
  datatype Answers = Answers(status: Sql, github: bool, failure: bool)

  // Requests read the clock twice at most; `first` and `second` are the readings.
  datatype Request =
    | Confirm(now: int, created: bool, answers: Answers)
    | View(now: int, reclaim: bool)
    | Retry(first: int, second: int, reclaim: bool, mark: bool, answers: Answers)
    | Callback(status: Status, url: bool, now: int)
    | Verify(passed: bool, now: int)

  predicate InFlight(s: Status) {
    s == FixRunning || s == TestReady || s == Planning
  }

  // canRetryBehaviorJob
  predicate CanRetry(j: Job) {
    j.attempts < MAX_ATTEMPTS && (j.status == Failed || j.status == PRReady)
  }

  function Limit(j: Job): int {
    if j.hasUrl then STALE_WITH_URL else STALE_WITHOUT_URL
  }

  // behaviorJobStuck: the limit itself counts
  predicate Stuck(j: Job, now: int) {
    InFlight(j.status) && now - j.updated >= Limit(j)
  }

  // behaviorJobRetryBlockedMessage is empty
  predicate RetryAllowed(j: Job, now: int) {
    j.attempts < MAX_ATTEMPTS && (Stuck(j, now) || CanRetry(j))
  }

  function GivenUp(j: Job, now: int): Job {
    j.(status := Failed, updated := now, reclaims := j.reclaims + 1)
  }

  // reclaimStaleBehaviorJobs: the limit itself does not count
  function Reclaimed(j: Job, now: int, works: bool): Job {
    if works && InFlight(j.status) && now - j.updated > Limit(j) then GivenUp(j, now) else j
  }

  // dispatchBehaviorFixWorkflow
  function Dispatched(j: Job, now: int, a: Answers): Job {
    var running := j.(status := FixRunning, updated := now);
    if a.status == Refused then j
    else if a.status == Lost then running
    else
      var sent := running.(dispatches := j.dispatches + 1);
      if a.github || !a.failure then sent else sent.(status := Failed, attempts := j.attempts + 1)
  }

  // completeBehaviorJob
  function Completed(j: Job, status: Status, url: bool, now: int): Job {
    if || InFlight(j.status) || j.status == PRReady || j.status == AlreadyFixed
       || j.status == VerifyPending || j.status == Failed
    then j.(status := status, hasUrl := j.hasUrl || url, attempts := j.attempts + 1, updated := now)
    else j
  }

  // RetryAITriageBehaviorJob
  function Retried(j: Job, first: int, second: int, reclaim: bool, mark: bool, a: Answers): Job {
    var j1 := Reclaimed(j, first, reclaim);
    if Stuck(j1, first) && !mark then j1
    else
      var j2 := if Stuck(j1, first) then GivenUp(j1, first) else j1;
      if RetryAllowed(j2, second) then Dispatched(j2, second, a) else j2
  }

  // The callback accepts four statuses only.
  predicate Accepted(s: Status) {
    s == PRReady || s == AlreadyFixed || s == Failed || s == NeedsHuman
  }

  function Next(s: State, r: Request): State {
    match s
    case NoJob =>
      if r.Confirm? && r.created then TheJob(Dispatched(Job(TestReady, false, 0, r.now, 0, 0), r.now, r.answers)) else s
    case TheJob(j) =>
      match r
      case Confirm(now, _, a) => TheJob(if CanRetry(j) then Dispatched(j, now, a) else j)
      case View(now, reclaim) => TheJob(Reclaimed(j, now, reclaim))
      case Retry(first, second, reclaim, mark, a) => TheJob(Retried(j, first, second, reclaim, mark, a))
      case Callback(status, url, now) => TheJob(if Accepted(status) then Completed(j, status, url, now) else j)
      case Verify(passed, now) => TheJob(if passed then Completed(j, Verified, false, now) else j)
  }

  ghost predicate ValidRun(ss: seq<State>, rs: seq<Request>) {
    && |ss| == |rs| + 1 && ss[0] == NoJob
    && forall k :: 0 <= k < |rs| ==> ss[k + 1] == Next(ss[k], rs[k])
  }

  // The request reads the clock once.
  predicate OneReading(r: Request) {
    r.Retry? ==> r.first == r.second
  }

  // ── the bound ──────────────────────────────────────────────────────────────

  // Every dispatch so far has ended in an attempt or a reclaim, but for one still in flight.
  predicate JobOk(j: Job) {
    && j.dispatches <= j.attempts + j.reclaims + (if InFlight(j.status) then 1 else 0)
    && j.dispatches <= MAX_ATTEMPTS + j.reclaims
  }

  predicate Inv(s: State) {
    s.TheJob? ==> JobOk(s.job)
  }

  lemma {:induction false} DispatchKeepsOk(j: Job, now: int, a: Answers)
    requires JobOk(j) && j.attempts < MAX_ATTEMPTS && !InFlight(j.status)
    ensures JobOk(Dispatched(j, now, a))
  {
  }

  // With one reading, a retry that dispatches has first given up on a job that was in flight.
  lemma {:induction false} RetryKeepsOk(j: Job, now: int, reclaim: bool, mark: bool, a: Answers)
    requires JobOk(j)
    ensures JobOk(Retried(j, now, now, reclaim, mark, a))
  {
    var j1 := Reclaimed(j, now, reclaim);
    var j2 := if Stuck(j1, now) then GivenUp(j1, now) else j1;
    if RetryAllowed(j2, now) {
      DispatchKeepsOk(j2, now, a);
    }
  }

  lemma {:induction false} NextKeepsInv(s: State, r: Request)
    requires Inv(s) && OneReading(r)
    ensures Inv(Next(s, r))
  {
    if s.TheJob? && r.Retry? {
      RetryKeepsOk(s.job, r.first, r.reclaim, r.mark, r.answers);
    } else if s.TheJob? && r.Confirm? && CanRetry(s.job) {
      DispatchKeepsOk(s.job, r.now, r.answers);
    }
  }

  // Over every sequential run whose requests read the clock once, a job is dispatched at most twice,
  // plus once for every time it was given up as stale.
  lemma {:induction false} DispatchBound(ss: seq<State>, rs: seq<Request>, i: nat)
    requires ValidRun(ss, rs) && i < |ss| && forall k :: 0 <= k < |rs| ==> OneReading(rs[k])
    ensures Inv(ss[i])
    ensures ss[i].TheJob? ==> ss[i].job.dispatches <= MAX_ATTEMPTS + ss[i].job.reclaims
  {
    if i > 0 {
      DispatchBound(ss, rs, i - 1);
      NextKeepsInv(ss[i - 1], rs[i - 1]);
    }
  }

  // Verified is never left, whatever the clock says.
  lemma {:induction false} VerifiedIsFinal(s: State, r: Request)
    requires s.TheJob? && s.job.status == Verified
    ensures Next(s, r) == s
  {
  }

  lemma {:induction false} VerifiedForGood(ss: seq<State>, rs: seq<Request>, i: nat, j: nat)
    requires ValidRun(ss, rs) && i <= j < |ss| && ss[i].TheJob? && ss[i].job.status == Verified
    ensures ss[j] == ss[i]
  {
    if i < j {
      VerifiedForGood(ss, rs, i, j - 1);
      VerifiedIsFinal(ss[j - 1], rs[j - 1]);
    }
  }

  // ── outcomes ───────────────────────────────────────────────────────────────

  // The job still takes an outcome: it has none yet, or one that a later run may replace.
  predicate TakesOutcome(s: Status) {
    s != NeedsHuman && s != NeedsCustomer && s != Verified
  }

  // The outcome a request reports: the status of an accepted callback, or that the fix was verified.
  function Outcome(r: Request): (s: Status)
    requires (r.Callback? && r.status in {PRReady, AlreadyFixed, Failed, NeedsHuman}) || (r.Verify? && r.passed)
  {
    if r.Callback? then r.status else Verified
  }

  predicate Reports(r: Request) {
    (r.Callback? && r.status in {PRReady, AlreadyFixed, Failed, NeedsHuman}) || (r.Verify? && r.passed)
  }

  // A reported outcome becomes the job's status, is counted as an attempt, and keeps or adds the link of its run,
  // unless the job has one that stays; any other report changes nothing.
  lemma {:induction false} OutcomeIsTaken(j: Job, r: Request)
    requires r.Callback? || r.Verify?
    ensures Next(TheJob(j), r) ==
            TheJob(if Reports(r) && TakesOutcome(j.status) then
                     j.(status := Outcome(r), attempts := j.attempts + 1, updated := r.now,
                        hasUrl := j.hasUrl || (r.Callback? && r.url))
                   else j)
  {
  }

  // Status s of the job came with this request: an outcome it reported, a dispatch that is running, a dispatch
  // GitHub refused, or a job given up.
  predicate Brings(before: State, r: Request, j: Job) {
    || (Reports(r) && before.TheJob? && TakesOutcome(before.job.status) && j.status == Outcome(r))
    || ((r.Confirm? || r.Retry?) && j.status == FixRunning && r.answers.status != Refused)
    || ((r.Confirm? || r.Retry?) && j.status == Failed && r.answers.status == Ok && !r.answers.github)
    || ((r.View? || r.Retry?) && j.status == Failed && before.TheJob? && InFlight(before.job.status)
        && j.reclaims == before.job.reclaims + 1)
    || (r.Confirm? && before.NoJob? && j.status == TestReady)
  }

  lemma {:induction false} StatusIsBrought(s: State, r: Request)
    requires Next(s, r).TheJob?
    ensures Brings(s, r, Next(s, r).job) || (s.TheJob? && Next(s, r).job.status == s.job.status)
  {
  }

  // The job has this status since request k.
  ghost predicate BroughtAt(ss: seq<State>, rs: seq<Request>, k: nat, i: nat)
    requires k < i < |ss| == |rs| + 1
  {
    && ss[k + 1].TheJob? && ss[i].TheJob? && ss[k + 1].job.status == ss[i].job.status
    && Brings(ss[k], rs[k], ss[k + 1].job)
  }

  // No status without a cause: over every run, the status a job has was brought by one of its requests.
  lemma {:induction false} StatusHasItsCause(ss: seq<State>, rs: seq<Request>, i: nat)
    requires ValidRun(ss, rs) && i < |ss| && ss[i].TheJob?
    ensures exists k: nat :: k < i && BroughtAt(ss, rs, k, i)
  {
    var n := i - 1;
    StatusIsBrought(ss[n], rs[n]);
    if Brings(ss[n], rs[n], ss[i].job) {
      assert BroughtAt(ss, rs, n, i);
    } else {
      StatusHasItsCause(ss, rs, n);
      var k: nat :| k < n && BroughtAt(ss, rs, k, n);
      assert BroughtAt(ss, rs, k, i);
    }
  }

  // ── when a job is dispatched ───────────────────────────────────────────────

  // The job waits for another try: its last one failed or ended in a pull request, or it is given up in this
  // request, as past its limit.
  predicate WaitsForARetry(j: Job, now: int, reclaim: bool, mark: bool) {
    var limit := if j.hasUrl then 50 * 60 else 3 * 60;
    || j.status == Failed || j.status == PRReady
    || (InFlight(j.status) && ((reclaim && now - j.updated > limit) || (mark && now - j.updated >= limit)))
  }

  predicate WaitsFor(j: Job, r: Request) {
    match r
    case Retry(now, _, reclaim, mark, _) => WaitsForARetry(j, now, reclaim, mark)
    case Confirm(_, _, _) => j.status == Failed || j.status == PRReady
    case _ => false
  }

  // A request that reads the clock once dispatches exactly a job with attempts left that waits for it, and only
  // if its status could be set; nothing else dispatches.
  lemma {:induction false} DispatchesIff(j: Job, r: Request)
    requires OneReading(r)
    ensures var j' := Next(TheJob(j), r).job;
            && (j'.dispatches == j.dispatches || j'.dispatches == j.dispatches + 1)
            && (j'.dispatches == j.dispatches + 1 <==> j.attempts < 2 && WaitsFor(j, r) && r.answers.status == Ok)
  {
  }

  // ── the bound is met, and where it ends ────────────────────────────────────

  const Works := Answers(Ok, true, true)

  function Running(n: nat): State {
    TheJob(Job(FixRunning, false, 0, n * (STALE_WITHOUT_URL + 1), n + 1, n))
  }

  // A job that never calls back is dispatched again after every reclaim, without end: a reclaim is
  // not an attempt.
  lemma {:induction false} ReclaimsAreNotAttempts(n: nat)
    ensures Running(0) == Next(NoJob, Confirm(0, true, Works))
    ensures var t := (n + 1) * (STALE_WITHOUT_URL + 1);
            Next(Running(n), Retry(t, t, true, true, Works)) == Running(n + 1)
  {
  }

  // Two readings in one request break the bound: a job that is not stuck at the first and stuck at the
  // second is dispatched while it is in flight, with no attempt and no reclaim. Three dispatches and
  // no end.
  lemma {:induction false} TwoReadingsBreakTheBound()
    ensures var s0 := Next(NoJob, Confirm(0, true, Works));
            var s1 := Next(s0, Retry(179, 180, true, true, Works));
            var s2 := Next(s1, Retry(359, 360, true, true, Works));
            s2.TheJob? && s2.job.dispatches == 3 && s2.job.attempts == 0 && s2.job.reclaims == 0
  {
  }

  // A second reading does harm only when the job becomes stuck between the two, and the dispatch gets as
  // far as GitHub.
  lemma {:induction false} RetryDispatchesInFlightIff(j: Job, first: int, second: int, reclaim: bool, mark: bool,
                                                      a: Answers)
    requires first <= second
    ensures var r := Retried(j, first, second, reclaim, mark, a);
            (r.dispatches > j.dispatches && r.reclaims == j.reclaims && InFlight(j.status))
            <==> (j.attempts < MAX_ATTEMPTS && !Stuck(j, first) && Stuck(j, second) && a.status == Ok)
  {
  }

  // ── the requests, step by step ─────────────────────────────────────────────

  class BehaviorJob {
    var status: Status
    var hasUrl: bool
    var attempts: nat
    var updated: int
    var dispatches: nat
    var reclaims: nat

    // createBehaviorJobFromIncident
    constructor (now: int)
      ensures Now() == Job(TestReady, false, 0, now, 0, 0)
    {
      status, hasUrl, attempts, updated, dispatches, reclaims := TestReady, false, 0, now, 0, 0;
    }

    function Now(): Job
      reads this
    {
      Job(status, hasUrl, attempts, updated, dispatches, reclaims)
    }

    method Reclaim(now: int, works: bool)
      modifies this
      ensures Now() == Reclaimed(old(Now()), now, works)
    {
      if works && InFlight(status) {
        var limit := if hasUrl then STALE_WITH_URL else STALE_WITHOUT_URL;
        if updated < now - limit {
          status, updated, reclaims := Failed, now, reclaims + 1;
        }
      }
    }

    method Dispatch(now: int, a: Answers) returns (ok: bool)
      modifies this
      ensures Now() == Dispatched(old(Now()), now, a)
      ensures ok == (a.status == Ok && a.github)
    {
      if a.status != Refused {
        status, updated := FixRunning, now;
      }
      if a.status != Ok {
        return false;
      }
      dispatches := dispatches + 1;
      if !a.github {
        if a.failure {
          status, attempts := Failed, attempts + 1;
        }
        return false;
      }
      return true;
    }

    method Complete(result: Status, url: bool, now: int)
      modifies this
      ensures Now() == Completed(old(Now()), result, url, now)
    {
      if || InFlight(status) || status == PRReady || status == AlreadyFixed
         || status == VerifyPending || status == Failed
      {
        status, hasUrl, attempts, updated := result, hasUrl || url, attempts + 1, now;
      }
    }

    method RetryJob(first: int, second: int, reclaim: bool, mark: bool, a: Answers) returns (ok: bool)
      modifies this
      ensures Now() == Retried(old(Now()), first, second, reclaim, mark, a)
    {
      Reclaim(first, reclaim);
      if Stuck(Now(), first) {
        if !mark {
          return false;
        }
        status, updated, reclaims := Failed, first, reclaims + 1;
      }
      if !RetryAllowed(Now(), second) {
        return false;
      }
      ok := Dispatch(second, a);
    }

    // The part of ConfirmAITriageIncident that finds a job already there.
    method ConfirmAgain(now: int, a: Answers) returns (ok: bool)
      modifies this
      ensures TheJob(Now()) == Next(TheJob(old(Now())), Confirm(now, true, a))
    {
      if !CanRetry(Now()) {
        return true;
      }
      ok := Dispatch(now, a);
    }
  }
}

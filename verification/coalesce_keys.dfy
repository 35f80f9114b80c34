/**
  The Redis keys of one conversation's burst (ai/inbound_coalesce.go): what recording a message does
  to them, when a burst starts, and how long a job waits for the buyer to go quiet.
  Times and durations are nanoseconds; 0 stands for an absent key (the zero time).
 */
module CoalesceKeys {
  import opened BurstWindow

  const SECOND: int := 1_000_000_000
  const MILLISECOND: int := 1_000_000
  const QUIET: int := 3 * SECOND
  const MAX_WAIT: int := 8 * SECOND
  const DEADLINE_MARGIN: int := 8 * SECOND

  // A point in time after 1970: positive as UnixNano.
  type Instant = t: int | t > 0 witness 1

  datatype Keys = Keys(list: seq<Id>, last: Id, lastAt: int, burstAt: int, gapMs: int, wm: Id)

  const EmptyKeys := Keys([], NO_ID, 0, 0, 0, NO_ID)

  predicate StartsBurst(prev: int, at: Instant) {
    prev <= 0 || at - prev > QUIET
  }

  // recordCoalesceInbound
  function Recorded(k: Keys, id: Id, at: Instant): Keys {
    Keys(Push(k.list, id), id, at,
         if StartsBurst(k.lastAt, at) || k.burstAt == 0 then at else k.burstAt,
         if k.lastAt > 0 && at > k.lastAt then (at - k.lastAt) / MILLISECOND else 0,
         k.wm)
  }

  // The keys themselves, changed in place, one pipeline command after the other.
  class ConversationKeys {
    var list: seq<Id>
    var last: Id
    var lastAt: int
    var burstAt: int
    var gapMs: int
    var wm: Id

    ghost function Value(): Keys
      reads this
    {
      Keys(list, last, lastAt, burstAt, gapMs, wm)
    }

    constructor ()
      ensures Value() == EmptyKeys
    {
      list, last, lastAt, burstAt, gapMs, wm := [], NO_ID, 0, 0, 0, NO_ID;
    }

    method Record(id: Id, at: Instant)
      modifies this
      ensures Value() == Recorded(old(Value()), id, at)
    {
      var prev := lastAt;
      var newBurst := prev <= 0 || at - prev > QUIET;
      var gap := 0;
      if prev > 0 && at > prev {
        gap := at - prev;
      }
      gapMs := gap / MILLISECOND;
      if newBurst {
        burstAt := 0;
      }
      list := list + [id];
      if |list| > MAX_BURST {
        list := list[|list| - MAX_BURST..];
      }
      last := id;
      lastAt := at;
      if burstAt == 0 {
        burstAt := at;
      }
    }

    // markCoalesceWatermark: an empty id is ignored.
    method MarkWatermark(lastId: Id)
      modifies this
      ensures Value() == old(Value()).(wm := if lastId == NO_ID then old(wm) else lastId)
    {
      if lastId != NO_ID {
        wm := lastId;
      }
    }

    // The part of loadCoalesceState a flush works from: the ids still to be answered.
    method PendingIds() returns (pending: seq<Id>)
      ensures pending == AfterWatermark(Loaded(list), wm)
    {
      var ids := LoadIDs(list);
      pending := IdsAfterWatermark(ids, wm);
    }
  }

  datatype Entry = Entry(id: Id, at: Instant)

  function KeysAfter(log: seq<Entry>): Keys {
    if log == [] then EmptyKeys
    else Recorded(KeysAfter(log[..|log| - 1]), log[|log| - 1].id, log[|log| - 1].at)
  }

  // From entry j on, each entry follows the one before it by at most the long quiet window, and
  // entry j itself does not.
  ghost predicate IsBurstStart(log: seq<Entry>, j: nat) {
    && j < |log|
    && (forall k :: j < k < |log| ==> log[k].at - log[k - 1].at <= QUIET)
    && (j > 0 ==> log[j].at - log[j - 1].at > QUIET)
  }

  // The burst key is kept incrementally; it is the first entry of the newest burst.
  lemma {:induction false} BurstKeyIsBurstStart(log: seq<Entry>, j: nat)
    requires IsBurstStart(log, j)
    ensures KeysAfter(log).burstAt == log[j].at
    ensures KeysAfter(log).lastAt == log[|log| - 1].at
  {
    var n := |log| - 1;
    var front := log[..n];
    if j < n {
      assert IsBurstStart(front, j);
      BurstKeyIsBurstStart(front, j);
      assert log[n].at - log[n - 1].at <= QUIET;
    } else if n > 0 {
      var i := BurstStart(front);
      BurstKeyIsBurstStart(front, i);
    }
  }

  lemma {:induction false} BurstStart(log: seq<Entry>) returns (j: nat)
    requires log != []
    ensures IsBurstStart(log, j)
  {
    var n := |log| - 1;
    if n > 0 && log[n].at - log[n - 1].at <= QUIET {
      j := BurstStart(log[..n]);
      assert log[j] == log[..n][j];
      forall k | j < k < |log| ensures log[k].at - log[k - 1].at <= QUIET {
        if k < n {
          assert log[..n][k] == log[k] && log[..n][k - 1] == log[k - 1];
        }
      }
    } else {
      j := n;
    }
  }

  // The gap key is the time between the last two records, in milliseconds; none when they came out of order.
  lemma {:induction false} GapIsOfTheLastTwo(log: seq<Entry>)
    requires |log| >= 2
    ensures var before, last := log[|log| - 2].at, log[|log| - 1].at;
            KeysAfter(log).gapMs == if last > before then (last - before) / MILLISECOND else 0
  {
    assert log[..|log| - 1][|log| - 2] == log[|log| - 2];
  }

  function Min(a: int, b: int): int {
    if a < b then a else b
  }

  // flushAt
  function FlushAt(burstStart: int, lastInbound: int, quiet: int, maxWait: int): int {
    var trailing := lastInbound + quiet;
    var capAt := (if burstStart == 0 then lastInbound else burstStart) + maxWait;
    if capAt < trailing then capAt else trailing
  }

  // remainingWait
  function RemainingWait(now: int, burstStart: int, lastInbound: int, quiet: int, maxWait: int): int {
    if lastInbound == 0 then 0
    else
      var d := FlushAt(burstStart, lastInbound, quiet, maxWait) - now;
      if d < 0 then 0 else d
  }

  // What one round of the wait loop meets: whether the keys could be loaded, the clock, the loaded times,
  // the chosen quiet window, and whether the job is cancelled while it sleeps.
  datatype Glance = Glance(loaded: bool, now: Instant, lastAt: Instant, burstAt: Instant, quiet: int, cancelled: bool)

  datatype Deadline = NoDeadline | By(t: int)

  // Only a cancelled sleep is an error; the other reasons let the job go on to its flush.
  datatype Outcome = Unreadable | Superseded | QuietLongEnough | OutOfBudget | CancelledAsleep | StillWaiting

  // The latest moment a round may sleep to.
  function Limit(g: Glance, deadline: Deadline): int {
    var quietEnds := Min(g.lastAt + g.quiet, g.burstAt + MAX_WAIT);
    match deadline
    case NoDeadline => quietEnds
    case By(t) => Min(quietEnds, t - DEADLINE_MARGIN)
  }

  // waitCoalesceQuiet: `glances` is what the rounds meet, in order. Every sleep is set to end at the
  // limit of its round, and the loop ends for the reason it reports.
  method WaitCoalesceQuiet(jobAt: Instant, deadline: Deadline, glances: seq<Glance>)
    returns (outcome: Outcome, wakes: seq<int>)
    ensures |wakes| <= |glances|
    ensures forall k :: 0 <= k < |wakes| ==> glances[k].now < wakes[k] == Limit(glances[k], deadline)
    ensures forall k :: 0 <= k < |wakes| ==> glances[k].loaded && glances[k].lastAt <= jobAt
    ensures forall k :: 0 <= k < |wakes| ==> glances[k].cancelled ==> outcome == CancelledAsleep && k == |wakes| - 1
    ensures outcome == CancelledAsleep ==> wakes != [] && glances[|wakes| - 1].cancelled
    ensures outcome == StillWaiting ==> |wakes| == |glances|
    ensures outcome != StillWaiting && outcome != CancelledAsleep ==> |wakes| < |glances|
    ensures outcome == Unreadable ==> !glances[|wakes|].loaded
    ensures outcome == Superseded ==> glances[|wakes|].loaded && glances[|wakes|].lastAt > jobAt
    ensures outcome == QuietLongEnough ==>
              var g := glances[|wakes|];
              g.loaded && g.lastAt <= jobAt && (g.now >= g.lastAt + g.quiet || g.now >= g.burstAt + MAX_WAIT)
    ensures outcome == OutOfBudget ==>
              var g := glances[|wakes|];
              g.loaded && g.lastAt <= jobAt && deadline.By? && g.now >= deadline.t - DEADLINE_MARGIN
  {
    wakes := [];
    for i := 0 to |glances|
      invariant |wakes| == i
      invariant forall k :: 0 <= k < i ==> glances[k].now < wakes[k] == Limit(glances[k], deadline)
      invariant forall k :: 0 <= k < i ==> glances[k].loaded && glances[k].lastAt <= jobAt && !glances[k].cancelled
    {
      var g := glances[i];
      if !g.loaded {
        return Unreadable, wakes;
      }
      if g.lastAt > jobAt {
        return Superseded, wakes;
      }
      var wait := RemainingWait(g.now, g.burstAt, g.lastAt, g.quiet, MAX_WAIT);
      if wait <= 0 {
        return QuietLongEnough, wakes;
      }
      if deadline.By? {
        var budget := deadline.t - g.now - DEADLINE_MARGIN;
        if budget <= 0 {
          return OutOfBudget, wakes;
        }
        if wait > budget {
          wait := budget;
        }
      }
      wakes := wakes + [g.now + wait];
      if g.cancelled {
        return CancelledAsleep, wakes;
      }
    }
    outcome := StillWaiting;
  }

  // However often new messages push the quiet window on, a burst is never held longer than 8
  // seconds: while the burst key stays the same, no sleep ends later than its start plus 8s.
  lemma {:induction false} BurstIsNeverHeldLonger(log: seq<Entry>, j: nat, more: seq<Entry>, g: Glance,
                                                  deadline: Deadline)
    requires IsBurstStart(log, j)
    requires forall k :: 0 <= k < |more| ==> more[k].at - (log + more)[|log| + k - 1].at <= QUIET
    requires g.lastAt == KeysAfter(log + more).lastAt && g.burstAt == KeysAfter(log + more).burstAt
    ensures Limit(g, deadline) <= log[j].at + MAX_WAIT
    ensures Limit(g, deadline) <= (log + more)[|log + more| - 1].at + g.quiet
  {
    var all := log + more;
    forall k | j < k < |all| ensures all[k].at - all[k - 1].at <= QUIET {
      if k >= |log| {
        assert all[k] == more[k - |log|];
      }
    }
    assert IsBurstStart(all, j);
    BurstKeyIsBurstStart(all, j);
  }
}

/**
  Where the coalescing protocol stops being safe: concrete families of runs in which an older
  message is recorded again after a newer one.
 */
module CoalesceLimits {
  import opened BurstWindow
  import opened CoalesceKeys
  import opened CoalesceProtocol
  import opened Text
  import Stitch

  // ── runs ───────────────────────────────────────────────────────────────────

  function CountDrops(run: seq<Event>): nat {
    if run == [] then 0
    else CountDrops(run[..|run| - 1]) + if run[|run| - 1].Drop? then 1 else 0
  }

  // The run is possible from s, ends in s', and drops n replies.
  ghost predicate Leads(c: Chat, s: Sys, run: seq<Event>, s': Sys, n: nat) {
    ValidRun(c, s, run) && After(c, s, run) == s' && CountDrops(run) == n
  }

  lemma {:induction false} CountDropsConcat(first: seq<Event>, second: seq<Event>)
    ensures CountDrops(first + second) == CountDrops(first) + CountDrops(second)
  {
    if second == [] {
      assert first + second == first;
    } else {
      var front := second[..|second| - 1];
      CountDropsConcat(first, front);
      assert (first + second)[..|first + second| - 1] == first + front;
    }
  }

  lemma {:induction false} RunThen(c: Chat, s: Sys, first: seq<Event>, second: seq<Event>)
    requires ValidRun(c, s, first) && ValidRun(c, After(c, s, first), second)
    ensures ValidRun(c, s, first + second)
    ensures After(c, s, first + second) == After(c, After(c, s, first), second)
    decreases |first|
  {
    if first == [] {
      assert first + second == second;
    } else {
      RunThen(c, Apply(c, s, first[0]), first[1..], second);
      assert (first + second)[1..] == first[1..] + second;
    }
  }

  lemma {:induction false} LeadsThen(c: Chat, s: Sys, first: seq<Event>, mid: Sys, second: seq<Event>, s': Sys, m: nat,
                                     n: nat)
    requires Leads(c, s, first, mid, m) && Leads(c, mid, second, s', n)
    ensures Leads(c, s, first + second, s', m + n)
  {
    RunThen(c, s, first, second);
    CountDropsConcat(first, second);
  }

  lemma {:induction false} OneStep(c: Chat, s: Sys, e: Event)
    requires Enabled(c, s, e)
    ensures Leads(c, s, [e], Apply(c, s, e), if e.Drop? then 1 else 0)
  {
    assert [e][1..] == [] && [e][..0] == [];
    assert CountDrops([]) == 0;
  }

  // One more event at the end of a run.
  lemma {:induction false} ThenStep(c: Chat, s: Sys, run: seq<Event>, mid: Sys, n: nat, e: Event)
    requires Leads(c, s, run, mid, n) && Enabled(c, mid, e)
    ensures Leads(c, s, run + [e], Apply(c, mid, e), n + if e.Drop? then 1 else 0)
  {
    OneStep(c, mid, e);
    LeadsThen(c, s, run, mid, [e], Apply(c, mid, e), n, if e.Drop? then 1 else 0);
  }

  // ── the list a^i b a^k ─────────────────────────────────────────────────────

  function Repeat(x: Id, n: nat): seq<Id> {
    if n == 0 then [] else Repeat(x, n - 1) + [x]
  }

  function Block(a: Id, b: Id, i: nat, k: nat): seq<Id> {
    if k == 0 then Repeat(a, i) + [b] else Block(a, b, i, k - 1) + [a]
  }

  lemma {:induction false} RepeatFacts(x: Id, n: nat)
    ensures |Repeat(x, n)| == n
    ensures forall k :: 0 <= k < n ==> Repeat(x, n)[k] == x
  {
    if n > 0 {
      RepeatFacts(x, n - 1);
    }
  }

  lemma {:induction false} BlockFacts(a: Id, b: Id, i: nat, k: nat)
    ensures |Block(a, b, i, k)| == i + 1 + k
    ensures forall n :: 0 <= n < i + 1 + k ==> Block(a, b, i, k)[n] == if n == i then b else a
  {
    if k == 0 {
      RepeatFacts(a, i);
    } else {
      BlockFacts(a, b, i, k - 1);
    }
  }

  lemma {:induction false} DedupOfRepeat(a: Id, i: nat)
    requires a != NO_ID && i > 0
    ensures Dedup(Repeat(a, i)) == [a]
  {
    DedupSnoc(Repeat(a, i - 1), a);
    if i > 1 {
      DedupOfRepeat(a, i - 1);
    } else {
      assert Repeat(a, 0) == [] && Dedup([]) == [];
    }
  }

  lemma {:induction false} DedupOfBlock(a: Id, b: Id, i: nat, k: nat)
    requires a != b && a != NO_ID && b != NO_ID && i > 0
    ensures Dedup(Block(a, b, i, k)) == [a, b]
  {
    if k == 0 {
      DedupOfRepeat(a, i);
      DedupSnoc(Repeat(a, i), b);
    } else {
      DedupOfBlock(a, b, i, k - 1);
      DedupSnoc(Block(a, b, i, k - 1), a);
    }
  }

  // The shapes the list goes through: it grows to twenty entries, then b wanders to its head.
  ghost predicate BlockShape(i: nat, k: nat) {
    i > 0 && ((i == 1 && k <= 18) || i + k == 19)
  }

  lemma {:induction false} PushOnBlock(a: Id, b: Id, i: nat, k: nat)
    requires BlockShape(i, k) && !(i == 1 && k == 18)
    ensures Push(Block(a, b, i, k), a) == Block(a, b, if i == 1 then 1 else i - 1, k + 1)
  {
    BlockFacts(a, b, i, k);
    BlockFacts(a, b, if i == 1 then 1 else i - 1, k + 1);
  }

  lemma {:induction false} PushBothOnBlock(a: Id, b: Id)
    ensures Push(Push(Block(a, b, 1, 18), b), a) == Block(a, b, 18, 1)
    ensures forall z :: z in Block(a, b, 1, 18) ==> z in Push(Block(a, b, 1, 18), b)
  {
    BlockFacts(a, b, 1, 18);
    BlockFacts(a, b, 18, 1);
    var list := Push(Block(a, b, 1, 18), b);
    assert list == Block(a, b, 1, 18)[1..] + [b];
    assert list[0] == b && list[1] == a;
  }

  // ── two messages, no reply ─────────────────────────────────────────────────

  ghost predicate TwoMessages(c: Chat, a: Id, b: Id) {
    a != b && a != NO_ID && b != NO_ID && !Blank(c.body(a))
  }

  // Two messages only, nothing answered, and nobody holds the lock.
  ghost predicate Unanswered(s: Sys, a: Id, b: Id) {
    s.keys.wm == NO_ID && !s.locked && s.calls == [] && Dedup(s.records) == [a, b]
  }

  // A job for the older message is about to start.
  ghost predicate Stuck(s: Sys, a: Id, b: Id, i: nat, k: nat, rounds: nat) {
    && BlockShape(i, k) && s.keys.list == Block(a, b, i, k) && Unanswered(s, a, b)
    && s.jobs != [] && s.jobs[|s.jobs| - 1] == Job(a, rounds, Queued)
  }

  lemma {:induction false} TextIsNotEmpty(c: Chat, a: Id, b: Id)
    requires !Blank(c.body(a))
    ensures TextOf(c, [a, b]) != ""
  {
    BodiesOfFacts(c, [a, b]);
    Stitch.StitchedTextHasEveryBody(BodiesOf(c, [a, b]), 0);
  }

  // The job that recorded the older message last: it flushes both, finds its flush superseded,
  // drops the reply and re-arms itself.
  lemma {:induction false} DropRound(c: Chat, s: Sys, q: nat, a: Id, b: Id, rounds: nat)
    returns (run: seq<Event>, s': Sys)
    requires TwoMessages(c, a, b) && q < |s.jobs| && s.jobs[q] == Job(a, rounds, Waiting)
    requires s.keys.last == a && s.keys.lastAt == c.at(a) && !s.locked && Pending(s) == [a, b]
    ensures Leads(c, s, run, s', 1)
    ensures s' == s.(jobs := s.jobs[q := Job(a, rounds, Done)] + [Job(a, rounds + 1, Queued)])
  {
    var s2;
    run, s2 := FlushTwo(c, s, q, a, b, rounds);
    var s3 := SetPhase(s, q, Dropped(b));
    assert s3 == Apply(c, s2, Drop(q));
    ThenStep(c, s, run, s2, 0, Drop(q));
    s' := Apply(c, s3, Rearm(q));
    ThenStep(c, s, run + [Drop(q)], s3, 1, Rearm(q));
    run := run + [Drop(q)] + [Rearm(q)];
    assert s'.jobs == s.jobs[q := Job(a, rounds, Done)] + [Job(a, rounds + 1, Queued)];
  }

  lemma {:induction false} FlushTwo(c: Chat, s: Sys, q: nat, a: Id, b: Id, rounds: nat)
    returns (run: seq<Event>, s': Sys)
    requires TwoMessages(c, a, b) && q < |s.jobs| && s.jobs[q] == Job(a, rounds, Waiting)
    requires s.keys.lastAt == c.at(a) && !s.locked && Pending(s) == [a, b]
    ensures Leads(c, s, run, s', 0) && s' == SetPhase(s, q, Flushed([a, b], |s.records|))
  {
    TextIsNotEmpty(c, a, b);
    var s1 := Apply(c, s, TakeLock(q));
    OneStep(c, s, TakeLock(q));
    s' := Apply(c, s1, Flush(q));
    ThenStep(c, s, [TakeLock(q)], s1, 0, Flush(q));
    run := [TakeLock(q)] + [Flush(q)];
    assert s'.jobs == s.jobs[q := Job(a, rounds, Flushed([a, b], |s.records|))];
  }

  // A job for message x is delivered and records it; nothing leaves the list unanswered.
  lemma {:induction false} RecordOne(c: Chat, s: Sys, x: Id) returns (run: seq<Event>, s': Sys)
    requires x != NO_ID
    ensures Leads(c, s, run, s', 0)
    ensures s'.keys == Recorded(s.keys, x, c.at(x)) && s'.locked == s.locked && s'.calls == s.calls
    ensures s'.jobs == s.jobs + [Job(x, 0, Waiting)]
    ensures Dedup(s'.records) == (if x in Dedup(s.records) then Dedup(s.records) else Dedup(s.records) + [x])
    ensures (forall z :: z in s.keys.list ==> z in Push(s.keys.list, x)) ==> s'.lost == s.lost
  {
    var s1 := Apply(c, s, Deliver(x));
    s' := Apply(c, s1, Record(|s.jobs|));
    OneStep(c, s, Deliver(x));
    ThenStep(c, s, [Deliver(x)], s1, 0, Record(|s.jobs|));
    run := [Deliver(x)] + [Record(|s.jobs|)];
    assert s'.jobs == s.jobs + [Job(x, 0, Waiting)];
    assert (forall z :: z in s.keys.list ==> z in Push(s.keys.list, x)) ==> s'.lost == s.lost;
    DedupSnoc(s.records, x);
  }

  // The older message's job records it once more and goes through a drop round.
  lemma {:induction false} OneMoreRound(c: Chat, s: Sys, q: nat, a: Id, b: Id, i: nat, k: nat, rounds: nat)
    returns (run: seq<Event>, s': Sys)
    requires TwoMessages(c, a, b) && q < |s.jobs| && s.jobs[q] == Job(a, rounds, Queued) && Unanswered(s, a, b)
    requires BlockShape(i, k) && Push(s.keys.list, a) == Block(a, b, i, k)
    ensures Leads(c, s, run, s', 1) && Stuck(s', a, b, i, k, rounds + 1)
  {
    var s1 := Apply(c, s, Record(q));
    OneStep(c, s, Record(q));
    DedupSnoc(s.records, a);
    DedupOfBlock(a, b, i, k);
    var rest;
    rest, s' := DropRound(c, s1, q, a, b, rounds);
    LeadsThen(c, s, [Record(q)], s1, rest, s', 0, 1);
    run := [Record(q)] + rest;
  }

  lemma {:induction false} NextRound(c: Chat, s: Sys, a: Id, b: Id, i: nat, k: nat, rounds: nat)
    returns (run: seq<Event>, s': Sys, i': nat, k': nat)
    requires TwoMessages(c, a, b) && Stuck(s, a, b, i, k, rounds)
    ensures Leads(c, s, run, s', 1) && Stuck(s', a, b, i', k', rounds + 1)
  {
    var q := |s.jobs| - 1;
    if i == 1 && k == 18 {
      // the newer message's job is delivered once more, so that its id stays in the list
      PushBothOnBlock(a, b);
      var again, s1 := RecordOne(c, s, b);
      i', k' := 18, 1;
      run, s' := OneMoreRound(c, s1, q, a, b, i', k', rounds);
      LeadsThen(c, s, again, s1, run, s', 0, 1);
      run := again + run;
    } else {
      PushOnBlock(a, b, i, k);
      i', k' := if i == 1 then 1 else i - 1, k + 1;
      run, s' := OneMoreRound(c, s, q, a, b, i', k', rounds);
    }
  }

  lemma {:induction false} StuckStart(c: Chat, a: Id, b: Id) returns (run: seq<Event>, s: Sys)
    requires TwoMessages(c, a, b)
    ensures Leads(c, Init, run, s, 0) && Stuck(s, a, b, 1, 0, 0)
  {
    var run1, s1 := RecordOne(c, Init, a);
    var run2, s2 := RecordOne(c, s1, b);
    LeadsThen(c, Init, run1, s1, run2, s2, 0, 0);
    ThenStep(c, Init, run1 + run2, s2, 0, Redeliver(0));
    run, s := run1 + run2 + [Redeliver(0)], Apply(c, s2, Redeliver(0));
    StartShape(a, b);
  }

  lemma {:induction false} StartShape(a: Id, b: Id)
    ensures Dedup([]) == [] && Push(Push([], a), b) == [a, b] == Block(a, b, 1, 0)
  {
    assert Repeat(a, 0) == [] && Repeat(a, 1) == [a];
  }

  lemma {:induction false} StuckRounds(c: Chat, a: Id, b: Id, n: nat) returns (run: seq<Event>, s: Sys, i: nat, k: nat)
    requires TwoMessages(c, a, b)
    ensures Leads(c, Init, run, s, n) && Stuck(s, a, b, i, k, n)
  {
    if n == 0 {
      i, k := 1, 0;
      run, s := StuckStart(c, a, b);
    } else {
      var before, s1, i1, k1 := StuckRounds(c, a, b, n - 1);
      var more;
      more, s, i, k := NextRound(c, s1, a, b, i1, k1, n - 1);
      LeadsThen(c, Init, before, s1, more, s, n - 1, 1);
      run := before + more;
    }
  }

  // Without the newest-only condition there is no bound: two buyer messages are enough for any
  // number of drop and re-arm rounds in which no reply is ever sent.
  lemma {:induction false} DropsWithoutEnd(c: Chat, a: Id, b: Id, n: nat) returns (run: seq<Event>)
    requires TwoMessages(c, a, b)
    ensures ValidRun(c, Init, run) && CountDrops(run) == n
    ensures After(c, Init, run).calls == [] && Log(After(c, Init, run)) == [a, b]
  {
    var s, i, k;
    run, s, i, k := StuckRounds(c, a, b, n);
  }

  // ── an overflowing list ────────────────────────────────────────────────────

  ghost predicate ThreeMessages(c: Chat, w: Id, x: Id, y: Id) {
    && w != x && w != y && x != y && w != NO_ID && x != NO_ID && y != NO_ID
    && !Blank(c.body(w)) && !Blank(c.body(y))
  }

  // The list w, x, w, …, w with m copies at its end.
  function Padding(w: Id, x: Id, m: nat): seq<Id> {
    if m == 0 then [w, x] else Padding(w, x, m - 1) + [w]
  }

  lemma {:induction false} PaddingFacts(w: Id, x: Id, m: nat)
    ensures |Padding(w, x, m)| == m + 2
    ensures forall n :: 0 <= n < m + 2 ==> Padding(w, x, m)[n] == if n == 1 then x else w
  {
    if m > 0 {
      PaddingFacts(w, x, m - 1);
    }
  }

  // w is answered and the watermark, and nothing has been lost.
  ghost predicate OnlyAnswered(s: Sys, w: Id) {
    s.keys.wm == w && !s.locked && Answers(s.calls) == {w} && s.lost == {}
  }

  // x has been recorded by a job that stalls, and w's job has been delivered m more times.
  ghost predicate Padded(s: Sys, w: Id, x: Id, m: nat) {
    OnlyAnswered(s, w) && s.keys.list == Padding(w, x, m) && Dedup(s.records) == [w, x]
  }

  lemma {:induction false} TextOfOne(c: Chat, x: Id)
    requires !Blank(c.body(x))
    ensures TextOf(c, [x]) != ""
  {
    BodiesOfFacts(c, [x]);
    Stitch.StitchedTextHasEveryBody(BodiesOf(c, [x]), 0);
  }

  lemma {:induction false} FlushOne(c: Chat, s: Sys, q: nat, x: Id) returns (run: seq<Event>, s': Sys)
    requires x != NO_ID && !Blank(c.body(x)) && q < |s.jobs| && s.jobs[q] == Job(x, 0, Waiting)
    requires s.keys.lastAt == c.at(x) && !s.locked && Pending(s) == [x]
    ensures Leads(c, s, run, s', 0) && s' == SetPhase(s, q, Flushed([x], |s.records|))
  {
    TextOfOne(c, x);
    var s1 := Apply(c, s, TakeLock(q));
    OneStep(c, s, TakeLock(q));
    s' := Apply(c, s1, Flush(q));
    ThenStep(c, s, [TakeLock(q)], s1, 0, Flush(q));
    run := [TakeLock(q)] + [Flush(q)];
    assert s'.jobs == s.jobs[q := Job(x, 0, Flushed([x], |s.records|))];
  }

  // s' is s with x answered and the watermark moved to it.
  ghost predicate AnsweredIn(s: Sys, x: Id, s': Sys) {
    && s'.keys == s.keys.(wm := x) && s'.locked == s.locked && s'.records == s.records && s'.lost == s.lost
    && Answers(s'.calls) == Answers(s.calls) + {x}
  }

  lemma {:induction false} ReplyOne(c: Chat, s: Sys, q: nat, x: Id) returns (run: seq<Event>, s': Sys)
    requires q < |s.jobs| && s.jobs[q].phase.Flushed? && s.jobs[q].phase.pending == [x]
    ensures Leads(c, s, run, s', 0) && AnsweredIn(s, x, s')
  {
    var s1 := Apply(c, s, Reply(q));
    OneStep(c, s, Reply(q));
    assert s1.jobs[q].phase == Answered(x);
    s' := Apply(c, s1, Mark(q));
    ThenStep(c, s, [Reply(q)], s1, 0, Mark(q));
    run := [Reply(q)] + [Mark(q)];
    AnswersSnoc(s.calls, Call([x], TextOf(c, [x]), false));
  }

  // A lone job for x, already recorded: it flushes [x], is processed and marks the watermark.
  lemma {:induction false} AnswerOne(c: Chat, s: Sys, q: nat, x: Id) returns (run: seq<Event>, s': Sys)
    requires x != NO_ID && !Blank(c.body(x)) && q < |s.jobs| && s.jobs[q] == Job(x, 0, Waiting)
    requires s.keys.lastAt == c.at(x) && !s.locked && Pending(s) == [x]
    ensures Leads(c, s, run, s', 0) && AnsweredIn(s, x, s')
  {
    var flush, s1 := FlushOne(c, s, q, x);
    var reply;
    reply, s' := ReplyOne(c, s1, q, x);
    LeadsThen(c, s, flush, s1, reply, s', 0, 0);
    run := flush + reply;
  }

  lemma {:induction false} FirstRecord(c: Chat, w: Id) returns (run: seq<Event>, s: Sys)
    requires w != NO_ID
    ensures Leads(c, Init, run, s, 0) && s.jobs == [Job(w, 0, Waiting)] && s.calls == [] && s.lost == {} && !s.locked
    ensures s.keys.list == [w] && s.keys.lastAt == c.at(w) && Pending(s) == [w] && Dedup(s.records) == [w]
  {
    assert Dedup([]) == [];
    run, s := RecordOne(c, Init, w);
    DedupOfDistinct([w]);
  }

  lemma {:induction false} FirstAnswer(c: Chat, w: Id) returns (run: seq<Event>, s: Sys)
    requires w != NO_ID && !Blank(c.body(w))
    ensures Leads(c, Init, run, s, 0) && OnlyAnswered(s, w) && s.keys.list == [w] && Dedup(s.records) == [w]
  {
    var record, s1 := FirstRecord(c, w);
    var answer;
    answer, s := AnswerOne(c, s1, 0, w);
    LeadsThen(c, Init, record, s1, answer, s, 0, 0);
    run := record + answer;
  }

  lemma {:induction false} PadStart(c: Chat, w: Id, x: Id) returns (run: seq<Event>, s: Sys)
    requires w != x && w != NO_ID && x != NO_ID && !Blank(c.body(w))
    ensures Leads(c, Init, run, s, 0) && Padded(s, w, x, 0)
  {
    var answer, s1 := FirstAnswer(c, w);
    var record;
    record, s := RecordOne(c, s1, x);
    LeadsThen(c, Init, answer, s1, record, s, 0, 0);
    run := answer + record;
  }

  lemma {:induction false} PadStep(c: Chat, s: Sys, w: Id, x: Id, m: nat) returns (run: seq<Event>, s': Sys)
    requires w != NO_ID && m < 18 && Padded(s, w, x, m)
    ensures Leads(c, s, run, s', 0) && Padded(s', w, x, m + 1)
  {
    PaddingFacts(w, x, m);
    assert Push(s.keys.list, w) == Padding(w, x, m + 1);
    run, s' := RecordOne(c, s, w);
  }

  lemma {:induction false} PadMore(c: Chat, w: Id, x: Id, m: nat) returns (run: seq<Event>, s: Sys)
    requires w != x && w != NO_ID && x != NO_ID && !Blank(c.body(w)) && m <= 18
    ensures Leads(c, Init, run, s, 0) && Padded(s, w, x, m)
  {
    if m == 0 {
      run, s := PadStart(c, w, x);
    } else {
      var before, s1 := PadMore(c, w, x, m - 1);
      var more;
      more, s := PadStep(c, s1, w, x, m - 1);
      LeadsThen(c, Init, before, s1, more, s, 0, 0);
      run := before + more;
    }
  }

  // The padded list without its head: x and the copies of w.
  lemma {:induction false} DedupOfTail(w: Id, x: Id, m: nat)
    requires w != x && w != NO_ID && x != NO_ID && m > 0
    ensures Dedup(Padding(w, x, m)[1..]) == [x, w]
  {
    PaddingFacts(w, x, m);
    PaddingFacts(w, x, m - 1);
    var front := Padding(w, x, m - 1)[1..];
    assert Padding(w, x, m)[1..] == front + [w];
    DedupSnoc(front, w);
    if m > 1 {
      DedupOfTail(w, x, m - 1);
    } else {
      assert front == [x];
      DedupOfDistinct([x]);
    }
  }

  lemma {:induction false} OverflowWindow(w: Id, x: Id, y: Id)
    requires w != x && w != y && x != y && w != NO_ID && x != NO_ID && y != NO_ID
    ensures var list := Push(Padding(w, x, 18), y);
            && (forall z :: z in Padding(w, x, 18) ==> z in list)
            && x in list
            && AfterWatermark(Loaded(list), w) == [y]
  {
    PaddingFacts(w, x, 18);
    var tail := Padding(w, x, 18)[1..];
    var list := Push(Padding(w, x, 18), y);
    assert list == tail + [y];
    assert list[0] == x && list[1] == w;
    DedupOfTail(w, x, 18);
    DedupSnoc(tail, y);
    assert [x, w, y][2..] == [y];
  }

  // From the padded list y is recorded: only y is pending, and x stays in the list.
  ghost predicate PastTheWindow(c: Chat, s: Sys, w: Id, x: Id, y: Id, q: nat) {
    && OnlyAnswered(s, w) && Dedup(s.records) == [w, x, y] && x in s.keys.list && Pending(s) == [y]
    && q < |s.jobs| && s.jobs[q] == Job(y, 0, Waiting) && s.keys.lastAt == c.at(y)
  }

  lemma {:induction false} RecordPastTheWindow(c: Chat, s: Sys, w: Id, x: Id, y: Id) returns (run: seq<Event>, s': Sys)
    requires ThreeMessages(c, w, x, y) && Padded(s, w, x, 18)
    ensures Leads(c, s, run, s', 0) && PastTheWindow(c, s', w, x, y, |s.jobs|)
  {
    OverflowWindow(w, x, y);
    run, s' := RecordOne(c, s, y);
  }

  // The watermark stands at y, after x in the log; x is in the list, and no call had it.
  ghost predicate Passed(s: Sys, w: Id, x: Id, y: Id) {
    && Log(s) == [w, x, y] && s.keys.wm == y
    && x in s.keys.list && x !in Answers(s.calls) && x !in s.lost
  }

  lemma {:induction false} AnswerPastTheWindow(c: Chat, s: Sys, w: Id, x: Id, y: Id, q: nat)
    returns (run: seq<Event>, s': Sys)
    requires ThreeMessages(c, w, x, y) && PastTheWindow(c, s, w, x, y, q)
    ensures Leads(c, s, run, s', 0) && Passed(s', w, x, y)
  {
    run, s' := AnswerOne(c, s, q, y);
  }

  // When the list overflows and an older message is recorded after a newer one, the watermark can
  // pass a message that is still in the list and that no call ever had.
  lemma {:induction false} WatermarkCanPassAMessage(c: Chat, w: Id, x: Id, y: Id) returns (run: seq<Event>)
    requires ThreeMessages(c, w, x, y)
    ensures ValidRun(c, Init, run) && Passed(After(c, Init, run), w, x, y)
  {
    var padding, s1 := PadMore(c, w, x, 18);
    var record, s2 := RecordPastTheWindow(c, s1, w, x, y);
    var answer, s3 := AnswerPastTheWindow(c, s2, w, x, y, |s1.jobs|);
    LeadsThen(c, Init, padding, s1, record, s2, 0, 0);
    LeadsThen(c, Init, padding + record, s2, answer, s3, 0, 0);
    run := padding + record + answer;
  }
}

/**
  The rolling conversation summary (ai/memory.go): each run reads the summary row, loads the newest
  messages since it, and writes the row back with a new count and time, while messages arrive and other
  runs go on.
 */
module Summary {

  const LOAD_LIMIT: nat := 100

  // Time 0 is no time at all.
  datatype Message = Message(at: nat, body: string)

  datatype Row = Row(count: nat, at: nat)

  // A run of SummarizeConversation: not started, with the row it read, with the messages it loaded
  // (their number, the time of the newest, and how many messages there were), or done.
  datatype Run = Start | HasRow(row: Row) | HasMessages(row: Row, loaded: nat, newest: nat, seen: nat) | Done

  datatype State = State(log: seq<Message>, row: Row, runs: seq<Run>)

  // `fails` is a run that ends in an error or has nothing to summarize.
  datatype Event = Arrive(m: Message) | Begin | ReadRow(run: nat) | LoadMessages(run: nat) | Store(run: nat)
                 | Fail(run: nat)

  function Last(log: seq<Message>): nat {
    if log == [] then 0 else log[|log| - 1].at
  }

  function UpTo(log: seq<Message>, at: nat): nat {
    if log == [] then 0
    else UpTo(log[..|log| - 1], at) + if log[|log| - 1].at <= at then 1 else 0
  }

  function Since(log: seq<Message>, at: nat): seq<Message> {
    if log == [] then []
    else
      var rest := Since(log[..|log| - 1], at);
      if log[|log| - 1].at > at then rest + [log[|log| - 1]] else rest
  }

  // What a run loads: the newest messages since a time, oldest first.
  function Loaded(log: seq<Message>, at: nat): seq<Message> {
    var since := Since(log, at);
    if |since| > LOAD_LIMIT then since[|since| - LOAD_LIMIT..] else since
  }

  predicate Enabled(s: State, e: Event) {
    match e
    case Arrive(m) => m.at > Last(s.log)
    case Begin => true
    case ReadRow(r) => r < |s.runs| && s.runs[r].Start?
    case LoadMessages(r) => r < |s.runs| && s.runs[r].HasRow?
    case Store(r) => r < |s.runs| && s.runs[r].HasMessages?
    case Fail(r) => r < |s.runs|
  }

  function Apply(s: State, e: Event): State
    requires Enabled(s, e)
  {
    match e
    case Arrive(m) => s.(log := s.log + [m])
    case Begin => s.(runs := s.runs + [Start])
    case ReadRow(r) => s.(runs := s.runs[r := HasRow(s.row)])
    case LoadMessages(r) =>
      var loaded := Loaded(s.log, s.runs[r].row.at);
      s.(runs := s.runs[r := if loaded == [] then Done
                             else HasMessages(s.runs[r].row, |loaded|, Last(loaded), |s.log|)])
    case Store(r) =>
      var run := s.runs[r];
      s.(row := Row(run.row.count + run.loaded, run.newest), runs := s.runs[r := Done])
    case Fail(r) => s.(runs := s.runs[r := Done])
  }

  ghost predicate ValidRun(ss: seq<State>, es: seq<Event>) {
    && |ss| == |es| + 1 && ss[0] == State([], Row(0, 0), [])
    && forall k :: 0 <= k < |es| ==> Enabled(ss[k], es[k]) && ss[k + 1] == Apply(ss[k], es[k])
  }

  // At most a hundred messages wait whenever a run loads them.
  ghost predicate WithinLimit(s: State, e: Event) {
    e.LoadMessages? && Enabled(s, e) ==> |Since(s.log, s.runs[e.run].row.at)| <= LOAD_LIMIT
  }

  // ── counting ───────────────────────────────────────────────────────────────

  predicate Increasing(log: seq<Message>) {
    forall i, j :: 0 <= i < j < |log| ==> log[i].at < log[j].at
  }

  predicate Positive(log: seq<Message>) {
    forall i :: 0 <= i < |log| ==> log[i].at > 0
  }

  lemma {:induction false} AllUpToLast(log: seq<Message>, at: nat)
    requires forall i :: 0 <= i < |log| ==> log[i].at <= at
    ensures UpTo(log, at) == |log| && Since(log, at) == []
  {
    if log != [] {
      AllUpToLast(log[..|log| - 1], at);
    }
  }

  lemma {:induction false} UpToAndSince(log: seq<Message>, at: nat)
    ensures UpTo(log, at) + |Since(log, at)| == |log|
  {
    if log != [] {
      UpToAndSince(log[..|log| - 1], at);
    }
  }

  lemma {:induction false} LastOfSince(log: seq<Message>, at: nat)
    requires Since(log, at) != [] && Increasing(log)
    ensures Last(Since(log, at)) == Last(log) && Last(Loaded(log, at)) == Last(log)
  {
    if log[|log| - 1].at <= at {
      AllUpToLast(log, at);
    }
  }

  lemma {:induction false} LoadedCount(log: seq<Message>, at: nat)
    requires Increasing(log) && Since(log, at) != []
    ensures UpTo(log, Last(log)) == |log|
    ensures UpTo(log, at) + |Loaded(log, at)| <= |log|
    ensures UpTo(log, at) + |Loaded(log, at)| == |log| <==> |Since(log, at)| <= LOAD_LIMIT
  {
    AllUpToLast(log, Last(log));
    UpToAndSince(log, at);
  }

  lemma {:induction false} UpToOfOlder(log: seq<Message>, m: Message, at: nat)
    requires at < m.at
    ensures UpTo(log + [m], at) == UpTo(log, at)
  {
    assert (log + [m])[..|log|] == log;
  }

  // ── the invariant ──────────────────────────────────────────────────────────

  // The row counts no more messages than there are up to its time, and exactly those when `exact`.
  ghost predicate RowOk(log: seq<Message>, row: Row, exact: bool) {
    && row.at <= Last(log) && row.count <= UpTo(log, row.at) && (exact ==> row.count == UpTo(log, row.at))
  }

  ghost predicate RunOk(log: seq<Message>, run: Run, exact: bool) {
    match run
    case Start => true
    case Done => true
    case HasRow(row) => RowOk(log, row, exact)
    case HasMessages(row, loaded, newest, seen) =>
      && RowOk(log, Row(row.count + loaded, newest), exact)
      && seen <= |log| && forall k :: seen <= k < |log| ==> log[k].at > newest
  }

  ghost predicate Inv(s: State, exact: bool) {
    && Increasing(s.log) && Positive(s.log)
    && RowOk(s.log, s.row, exact)
    && forall r :: 0 <= r < |s.runs| ==> RunOk(s.log, s.runs[r], exact)
  }

  lemma {:induction false} RunAfterArrival(log: seq<Message>, m: Message, run: Run, exact: bool)
    requires m.at > Last(log) && RunOk(log, run, exact)
    ensures RunOk(log + [m], run, exact)
  {
    match run
    case HasRow(row) => UpToOfOlder(log, m, row.at);
    case HasMessages(row, loaded, newest, seen) => UpToOfOlder(log, m, newest);
    case _ =>
  }

  lemma {:induction false} ArrivalKeepsInv(s: State, m: Message, exact: bool)
    requires Inv(s, exact) && m.at > Last(s.log)
    ensures Inv(s.(log := s.log + [m]), exact)
  {
    UpToOfOlder(s.log, m, s.row.at);
    forall r | 0 <= r < |s.runs| ensures RunOk(s.log + [m], s.runs[r], exact) {
      RunAfterArrival(s.log, m, s.runs[r], exact);
    }
  }

  lemma {:induction false} LoadKeepsInv(s: State, r: nat, exact: bool)
    requires Inv(s, exact) && Enabled(s, LoadMessages(r)) && (exact ==> WithinLimit(s, LoadMessages(r)))
    ensures Inv(Apply(s, LoadMessages(r)), exact)
  {
    var row := s.runs[r].row;
    if Since(s.log, row.at) != [] {
      assert RunOk(s.log, s.runs[r], exact);
      LastOfSince(s.log, row.at);
      LoadedCount(s.log, row.at);
    }
  }

  lemma {:induction false} StepKeepsInv(s: State, e: Event, exact: bool)
    requires Inv(s, exact) && Enabled(s, e) && (exact ==> WithinLimit(s, e))
    ensures Inv(Apply(s, e), exact)
  {
    match e
    case Arrive(m) => ArrivalKeepsInv(s, m, exact);
    case LoadMessages(r) => LoadKeepsInv(s, r, exact);
    case Store(r) => assert RunOk(s.log, s.runs[r], exact);
    case _ =>
  }

  lemma {:induction false} RunKeepsInv(ss: seq<State>, es: seq<Event>, exact: bool, i: nat)
    requires ValidRun(ss, es) && i < |ss|
    requires exact ==> forall k :: 0 <= k < |es| ==> WithinLimit(ss[k], es[k])
    ensures Inv(ss[i], exact)
  {
    if i > 0 {
      RunKeepsInv(ss, es, exact, i - 1);
      StepKeepsInv(ss[i - 1], es[i - 1], exact);
    }
  }

  // In every interleaving of arrivals and overlapping runs that never leaves more than a hundred
  // messages to one load, the stored count is the number of messages up to the stored time.
  lemma {:induction false} CountIsExact(ss: seq<State>, es: seq<Event>, i: nat)
    requires ValidRun(ss, es) && i < |ss| && forall k :: 0 <= k < |es| ==> WithinLimit(ss[k], es[k])
    ensures ss[i].row.count == UpTo(ss[i].log, ss[i].row.at)
  {
    RunKeepsInv(ss, es, true, i);
  }

  // Without that limit the count can only be too low.
  lemma {:induction false} CountIsNeverTooHigh(ss: seq<State>, es: seq<Event>, i: nat)
    requires ValidRun(ss, es) && i < |ss|
    ensures ss[i].row.count <= UpTo(ss[i].log, ss[i].row.at)
  {
    RunKeepsInv(ss, es, false, i);
  }

  // From an exact row a load keeps the count exact if and only if at most a hundred messages waited.
  lemma {:induction false} LoadIsExactIff(s: State, r: nat)
    requires Inv(s, true) && Enabled(s, LoadMessages(r)) && Apply(s, LoadMessages(r)).runs[r].HasMessages?
    ensures var run := Apply(s, LoadMessages(r)).runs[r];
            run.row.count + run.loaded == UpTo(s.log, run.newest) <==> |Since(s.log, s.runs[r].row.at)| <= LOAD_LIMIT
  {
    assert RunOk(s.log, s.runs[r], true);
    LastOfSince(s.log, s.runs[r].row.at);
    LoadedCount(s.log, s.runs[r].row.at);
  }

  // ── more than a hundred ────────────────────────────────────────────────────

  function Chat(n: nat): seq<Message> {
    if n == 0 then [] else Chat(n - 1) + [Message(n, "")]
  }

  function ChatEvents(n: nat): seq<Event> {
    if n == 0 then [] else ChatEvents(n - 1) + [Arrive(Message(n, ""))]
  }

  function ChatStates(n: nat): seq<State> {
    if n == 0 then [State([], Row(0, 0), [])] else ChatStates(n - 1) + [State(Chat(n), Row(0, 0), [])]
  }

  lemma {:induction false} ChatTimes(n: nat)
    ensures |Chat(n)| == n && forall k :: 0 <= k < n ==> Chat(n)[k].at == k + 1
  {
    if n > 0 {
      ChatTimes(n - 1);
    }
  }

  lemma {:induction false} AllSince(log: seq<Message>, at: nat)
    requires forall k :: 0 <= k < |log| ==> log[k].at > at
    ensures Since(log, at) == log
  {
    if log != [] {
      AllSince(log[..|log| - 1], at);
    }
  }

  lemma {:induction false} ChatFacts(n: nat)
    ensures |Chat(n)| == n && Last(Chat(n)) == n && UpTo(Chat(n), n) == n && Since(Chat(n), 0) == Chat(n)
  {
    ChatTimes(n);
    AllUpToLast(Chat(n), n);
    AllSince(Chat(n), 0);
  }

  lemma {:induction false} OneEventMore(ss: seq<State>, es: seq<Event>, e: Event, s: State)
    requires ValidRun(ss, es) && Enabled(ss[|es|], e) && s == Apply(ss[|es|], e)
    ensures ValidRun(ss + [s], es + [e])
  {
    var ss', es' := ss + [s], es + [e];
    forall k | 0 <= k < |es'| ensures Enabled(ss'[k], es'[k]) && ss'[k + 1] == Apply(ss'[k], es'[k]) {
      if k < |es| {
        assert ss'[k + 1] == ss[k + 1];
      }
    }
  }

  lemma {:induction false} ChatIsARun(n: nat)
    ensures ValidRun(ChatStates(n), ChatEvents(n)) && |ChatEvents(n)| == n
    ensures ChatStates(n)[n] == State(Chat(n), Row(0, 0), [])
  {
    if n > 0 {
      ChatIsARun(n - 1);
      ChatFacts(n - 1);
      var before, m := ChatStates(n - 1)[n - 1], Message(n, "");
      assert Enabled(before, Arrive(m)) && Apply(before, Arrive(m)) == State(Chat(n), Row(0, 0), []);
      OneEventMore(ChatStates(n - 1), ChatEvents(n - 1), Arrive(Message(n, "")), State(Chat(n), Row(0, 0), []));
    }
  }

  // A first summary of n messages, n above a hundred, counts a hundred of them: the stored time is that of the
  // newest, so the others are never counted.
  lemma {:induction false} FirstSummaryMiscounts(n: nat)
    requires n > LOAD_LIMIT
    ensures exists ss: seq<State>, es: seq<Event> ::
              && ValidRun(ss, es) && |ss| == n + 5
              && ss[n + 4].log == Chat(n) && ss[n + 4].row == Row(LOAD_LIMIT, n) && UpTo(Chat(n), n) == n
  {
    ChatIsARun(n);
    ChatFacts(n);
    var log := Chat(n);
    var s1, s2 := State(log, Row(0, 0), [Start]), State(log, Row(0, 0), [HasRow(Row(0, 0))]);
    var s3 := State(log, Row(0, 0), [HasMessages(Row(0, 0), LOAD_LIMIT, n, n)]);
    var s4 := State(log, Row(LOAD_LIMIT, n), [Done]);
    assert Last(Loaded(log, 0)) == n;
    OneEventMore(ChatStates(n), ChatEvents(n), Begin, s1);
    OneEventMore(ChatStates(n) + [s1], ChatEvents(n) + [Begin], ReadRow(0), s2);
    OneEventMore(ChatStates(n) + [s1] + [s2], ChatEvents(n) + [Begin] + [ReadRow(0)], LoadMessages(0), s3);
    var ss, es := ChatStates(n) + [s1] + [s2] + [s3], ChatEvents(n) + [Begin] + [ReadRow(0)] + [LoadMessages(0)];
    OneEventMore(ss, es, Store(0), s4);
    assert ValidRun(ss + [s4], es + [Store(0)]);
  }

  lemma {:induction false} LaterIsSince(log: seq<Message>, at: nat, k: nat)
    requires k < |log| && log[k].at > at
    ensures log[k] in Since(log, at)
  {
    if k < |log| - 1 {
      LaterIsSince(log[..|log| - 1], at, k);
    }
  }

  // Every message that arrived after a run loaded its messages is still waiting once the run has
  // stored its summary.
  lemma {:induction false} ArrivalsDuringARunWait(ss: seq<State>, es: seq<Event>, i: nat, k: nat)
    requires ValidRun(ss, es) && i < |es| && es[i].Store? && ss[i].runs[es[i].run].seen <= k < |ss[i].log|
    ensures ss[i].log[k] in Since(ss[i + 1].log, ss[i + 1].row.at)
  {
    RunKeepsInv(ss, es, false, i);
    assert RunOk(ss[i].log, ss[i].runs[es[i].run], false);
    LaterIsSince(ss[i].log, ss[i + 1].row.at, k);
  }

  // ── the loops ──────────────────────────────────────────────────────────────

  function Reversed(s: seq<Message>): seq<Message> {
    if s == [] then [] else [s[|s| - 1]] + Reversed(s[..|s| - 1])
  }

  // orderSummaryMessages
  method OrderSummaryMessages(newestFirst: seq<Message>) returns (msgs: seq<Message>, newest: nat)
    ensures msgs == Reversed(newestFirst)
    ensures newest == if newestFirst == [] then 0 else newestFirst[0].at
  {
    msgs, newest := [], 0;
    var i := |newestFirst|;
    assert newestFirst[..i] == newestFirst;
    while i > 0
      invariant 0 <= i <= |newestFirst|
      invariant msgs + Reversed(newestFirst[..i]) == Reversed(newestFirst)
    {
      assert newestFirst[..i][..i - 1] == newestFirst[..i - 1];
      msgs := msgs + [newestFirst[i - 1]];
      i := i - 1;
    }
    if newestFirst != [] {
      newest := newestFirst[0].at;
    }
  }

  lemma {:induction false} SinceIsASuffix(log: seq<Message>, at: nat, n: nat)
    requires Increasing(log) && n <= |log|
    requires forall k :: 0 <= k < n ==> log[k].at <= at
    requires forall k :: n <= k < |log| ==> log[k].at > at
    ensures Since(log, at) == log[n..]
  {
    if n < |log| {
      SinceIsASuffix(log[..|log| - 1], at, n);
      assert log[..|log| - 1][n..] + [log[|log| - 1]] == log[n..];
    } else {
      AllUpToLast(log, at);
    }
  }

  lemma {:induction false} ReversedFront(m: Message, s: seq<Message>)
    ensures Reversed(s + [m]) == [m] + Reversed(s)
  {
    assert (s + [m])[..|s|] == s;
  }

  lemma {:induction false} OneMoreBack(log: seq<Message>, i: nat, newestFirst: seq<Message>)
    requires i < |log| && Reversed(newestFirst) == log[i + 1..]
    ensures Reversed(newestFirst + [log[i]]) == log[i..]
  {
    ReversedFront(log[i], newestFirst);
  }

  // loadMessagesSince: rows newest first, at most a hundred, then put in order.
  method LoadMessagesSince(log: seq<Message>, since: nat) returns (msgs: seq<Message>, newest: nat)
    requires Increasing(log)
    ensures msgs == Loaded(log, since)
    ensures newest == Last(Loaded(log, since))
  {
    var newestFirst: seq<Message> := [];
    var i := |log|;
    while i > 0 && log[i - 1].at > since && |newestFirst| < LOAD_LIMIT
      invariant 0 <= i <= |log|
      invariant |newestFirst| == |log| - i <= LOAD_LIMIT
      invariant Reversed(newestFirst) == log[i..]
      invariant newestFirst != [] ==> newestFirst[0] == log[|log| - 1]
      invariant forall k :: i <= k < |log| ==> log[k].at > since
    {
      i := i - 1;
      OneMoreBack(log, i, newestFirst);
      newestFirst := newestFirst + [log[i]];
    }
    LoadedIsTheSuffix(log, since, i);
    msgs, newest := OrderSummaryMessages(newestFirst);
  }

  lemma {:induction false} LoadedIsTheSuffix(log: seq<Message>, since: nat, i: nat)
    requires Increasing(log) && i <= |log| && |log| - i <= LOAD_LIMIT
    requires forall k :: i <= k < |log| ==> log[k].at > since
    requires i == 0 || log[i - 1].at <= since || |log| - i == LOAD_LIMIT
    ensures Loaded(log, since) == log[i..]
  {
    var n := i;
    while n > 0 && log[n - 1].at > since
      invariant 0 <= n <= i && forall k :: n <= k < |log| ==> log[k].at > since
    {
      n := n - 1;
    }
    SinceIsASuffix(log, since, n);
    assert log[n..][|log| - n - (|log| - i)..] == log[i..];
  }
}

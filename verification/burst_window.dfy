/**
  The list of message ids one conversation keeps in Redis while a burst is collected
  (ai/inbound_coalesce.go): RPUSH, LTRIM to the newest 20, and on reading a de-duplication that
  keeps the first occurrence of each id.
 */
module BurstWindow {

  const MAX_BURST: nat := 20

  // A message id; NO_ID stands for the empty string.
  type Id = nat

  const NO_ID: Id := 0

  ghost predicate Distinct<T>(s: seq<T>) {
    forall i, j :: 0 <= i < j < |s| ==> s[i] != s[j]
  }

  // First occurrences, in order; empty ids are ignored.
  function Dedup(ids: seq<Id>): seq<Id> {
    if ids == [] then []
    else
      var d := Dedup(ids[..|ids| - 1]);
      var x := ids[|ids| - 1];
      if x == NO_ID || x in d then d else d + [x]
  }

  // Dedup keeps the same ids, each once.
  lemma {:induction false} DedupFacts(ids: seq<Id>)
    ensures Distinct(Dedup(ids))
    ensures forall x :: x in Dedup(ids) <==> x in ids && x != NO_ID
    ensures |Dedup(ids)| <= |ids|
  {
    if ids != [] {
      DedupFacts(ids[..|ids| - 1]);
      assert ids == ids[..|ids| - 1] + [ids[|ids| - 1]];
    }
  }

  lemma {:induction false} DedupSnoc(ids: seq<Id>, x: Id)
    ensures Dedup(ids + [x]) == if x == NO_ID || x in Dedup(ids) then Dedup(ids) else Dedup(ids) + [x]
  {
    assert (ids + [x])[..|ids|] == ids;
  }

  lemma {:induction false} DedupOfDistinct(ids: seq<Id>)
    requires Distinct(ids) && NO_ID !in ids
    ensures Dedup(ids) == ids
  {
    if ids != [] {
      DedupOfDistinct(ids[..|ids| - 1]);
      assert ids == ids[..|ids| - 1] + [ids[|ids| - 1]];
    }
  }

  lemma {:induction false} DedupPrefix(ids: seq<Id>, k: nat)
    requires k <= |ids|
    ensures Dedup(ids[..k]) <= Dedup(ids)
  {
    if k < |ids| {
      DedupPrefix(ids[..|ids| - 1], k);
      assert ids[..|ids| - 1][..k] == ids[..k];
    } else {
      assert ids[..k] == ids;
    }
  }

  function AppendBurst(ids: seq<Id>, id: Id, max: int): seq<Id> {
    var cap := if max <= 0 then MAX_BURST else max;
    var d := Dedup(ids);
    if |d| >= cap then d[..cap]
    else if id == NO_ID || id in d then d
    else d + [id]
  }

  method AppendBurstIDs(ids: seq<Id>, id: Id, max: int) returns (out: seq<Id>)
    ensures out == AppendBurst(ids, id, max)
  {
    var cap := if max <= 0 then MAX_BURST else max;
    var seen: set<Id> := {};
    out := [];
    for i := 0 to |ids|
      invariant out == Dedup(ids[..i]) && |out| < cap
      invariant forall x :: x in seen <==> x in out
    {
      assert ids[..i + 1] == ids[..i] + [ids[i]];
      DedupSnoc(ids[..i], ids[i]);
      var x := ids[i];
      if x == NO_ID || x in seen {
        continue;
      }
      seen := seen + {x};
      out := out + [x];
      if |out| >= cap {
        DedupPrefix(ids, i + 1);
        return;
      }
    }
    assert ids[..|ids|] == ids;
    if id != NO_ID && id !in seen && |out| < cap {
      out := out + [id];
    }
  }

  // What loadCoalesceState makes of the raw list.
  function Loaded(raw: seq<Id>): seq<Id> {
    var d := Dedup(raw);
    if |d| > MAX_BURST then d[..MAX_BURST] else d
  }

  lemma {:induction false} LoadedDistinct(raw: seq<Id>)
    ensures Distinct(Loaded(raw)) && NO_ID !in Loaded(raw) && |Loaded(raw)| <= MAX_BURST
  {
    DedupFacts(raw);
    assert NO_ID !in Dedup(raw);
  }

  method LoadIDs(raw: seq<Id>) returns (ids: seq<Id>)
    ensures ids == Loaded(raw)
  {
    ids := AppendBurstIDs([], NO_ID, MAX_BURST);
    for i := 0 to |raw|
      invariant ids == Loaded(raw[..i])
    {
      assert raw[..i + 1] == raw[..i] + [raw[i]];
      DedupSnoc(raw[..i], raw[i]);
      LoadedDistinct(raw[..i]);
      DedupOfDistinct(ids);
      ids := AppendBurstIDs(ids, raw[i], MAX_BURST);
    }
    assert raw[..|raw|] == raw;
  }

  function LastN<T>(s: seq<T>, n: nat): seq<T> {
    if |s| <= n then s else s[|s| - n..]
  }

  // RPUSH then LTRIM -20 -1.
  function Push(list: seq<Id>, id: Id): seq<Id> {
    LastN(list + [id], MAX_BURST)
  }

  // The list after recording every entry of `records` in order.
  function ListAfter(records: seq<Id>): seq<Id> {
    if records == [] then [] else Push(ListAfter(records[..|records| - 1]), records[|records| - 1])
  }

  lemma {:induction false} ListIsTheLastTwenty(records: seq<Id>)
    ensures ListAfter(records) == LastN(records, MAX_BURST)
  {
    if records != [] {
      ListIsTheLastTwenty(records[..|records| - 1]);
      assert records == records[..|records| - 1] + [records[|records| - 1]];
    }
  }

  function IndexOf(s: seq<Id>, x: Id): (i: nat)
    requires x in s
    ensures i < |s| && s[i] == x && x !in s[..i]
  {
    if s[0] == x then 0 else 1 + IndexOf(s[1..], x)
  }

  // idsAfterWatermark: everything when the watermark is empty or not in the list.
  function AfterWatermark(ids: seq<Id>, wm: Id): seq<Id> {
    if wm == NO_ID || wm !in ids then ids else ids[IndexOf(ids, wm) + 1..]
  }

  method IdsAfterWatermark(ids: seq<Id>, wm: Id) returns (pending: seq<Id>)
    ensures pending == AfterWatermark(ids, wm)
  {
    if wm == NO_ID {
      return ids;
    }
    for i := 0 to |ids|
      invariant wm !in ids[..i]
    {
      if ids[i] == wm {
        return ids[i + 1..];
      }
    }
    pending := ids;
  }

  lemma {:induction false} IndexInDistinct(s: seq<Id>, i: nat)
    requires Distinct(s) && i < |s|
    ensures IndexOf(s, s[i]) == i
  {
  }

  lemma {:induction false} LoadedOfDistinct(log: seq<Id>)
    requires Distinct(log) && NO_ID !in log
    ensures Loaded(ListAfter(log)) == LastN(log, MAX_BURST)
  {
    ListIsTheLastTwenty(log);
    DedupOfDistinct(LastN(log, MAX_BURST));
  }

  lemma {:induction false} AfterTheWatermark(log: seq<Id>, wm: Id, i: nat)
    requires Distinct(log) && wm != NO_ID && i < |log| && log[i] == wm
    ensures AfterWatermark(log, wm) == log[i + 1..]
  {
    IndexInDistinct(log, i);
  }

  lemma {:induction false} RestOfATail(log: seq<Id>, cut: nat, k: nat)
    requires cut <= k <= |log|
    ensures log[cut..][k - cut..] == log[k..] && LastN(log[k..], |log| - cut) == log[k..]
  {
  }

  lemma {:induction false} DistinctTail(log: seq<Id>, cut: nat)
    requires Distinct(log) && cut <= |log|
    ensures Distinct(log[cut..])
  {
  }

  lemma {:induction false} WatermarkInside(log: seq<Id>, wm: Id, cut: nat)
    requires Distinct(log) && wm in log && wm != NO_ID && cut <= IndexOf(log, wm)
    ensures AfterWatermark(log[cut..], wm) == LastN(AfterWatermark(log, wm), |log| - cut)
  {
    var i := IndexOf(log, wm);
    DistinctTail(log, cut);
    AfterTheWatermark(log[cut..], wm, i - cut);
    AfterTheWatermark(log, wm, i);
    RestOfATail(log, cut, i + 1);
  }

  lemma {:induction false} NotInTheTail(log: seq<Id>, i: nat, cut: nat)
    requires Distinct(log) && i < cut <= |log|
    ensures log[i] !in log[cut..]
  {
    forall k | 0 <= k < |log[cut..]| ensures log[cut..][k] != log[i] {
      assert log[cut..][k] == log[cut + k];
    }
  }

  lemma {:induction false} NewestOfTheRest(log: seq<Id>, k: nat, cut: nat)
    requires k <= cut <= |log|
    ensures LastN(log[k..], |log| - cut) == log[cut..]
  {
    RestOfATail(log, k, cut);
    assert |log[k..]| - (|log| - cut) == cut - k;
  }

  lemma {:induction false} WatermarkCutOut(log: seq<Id>, wm: Id, cut: nat)
    requires Distinct(log) && wm in log && wm != NO_ID && IndexOf(log, wm) < cut <= |log|
    ensures AfterWatermark(log[cut..], wm) == LastN(AfterWatermark(log, wm), |log| - cut)
  {
    var i := IndexOf(log, wm);
    NotInTheTail(log, i, cut);
    AfterTheWatermark(log, wm, i);
    NewestOfTheRest(log, i + 1, cut);
  }

  // Cutting the front off a log commutes with the watermark: it only shortens what follows it.
  lemma {:induction false} CutThenWatermark(log: seq<Id>, wm: Id, cut: nat)
    requires Distinct(log) && (wm == NO_ID || wm in log) && cut <= |log|
    ensures AfterWatermark(log[cut..], wm) == LastN(AfterWatermark(log, wm), |log| - cut)
  {
    if wm == NO_ID {
      assert AfterWatermark(log[cut..], wm) == log[cut..];
    } else if cut <= IndexOf(log, wm) {
      WatermarkInside(log, wm, cut);
    } else {
      WatermarkCutOut(log, wm, cut);
    }
  }

  lemma {:induction false} ShortAfterWatermark(log: seq<Id>, wm: Id)
    ensures |AfterWatermark(log, wm)| <= |log|
  {
  }

  lemma {:induction false} NewestOfShort(log: seq<Id>, rest: seq<Id>, n: nat)
    requires |rest| <= |log| <= n
    ensures LastN(log, n) == log && LastN(rest, n) == rest
  {
  }

  // So does taking the newest n entries.
  lemma {:induction false} WatermarkOfNewest(log: seq<Id>, wm: Id, n: nat)
    requires Distinct(log) && (wm == NO_ID || wm in log)
    ensures AfterWatermark(LastN(log, n), wm) == LastN(AfterWatermark(log, wm), n)
  {
    if |log| > n {
      var cut := |log| - n;
      assert |log| - cut == n;
      assert LastN(log, n) == log[cut..];
      CutThenWatermark(log, wm, cut);
    } else {
      ShortAfterWatermark(log, wm);
      NewestOfShort(log, AfterWatermark(log, wm), n);
    }
  }

  // The capped list answers like the unbounded log: what follows the watermark is the last twenty
  // entries of the log after it, also once the watermark itself has been trimmed out of the list.
  lemma {:induction false} WindowRefinement(log: seq<Id>, wm: Id)
    requires Distinct(log) && NO_ID !in log
    requires wm == NO_ID || wm in log
    ensures AfterWatermark(Loaded(ListAfter(log)), wm) == LastN(AfterWatermark(log, wm), MAX_BURST)
  {
    LoadedOfDistinct(log);
    WatermarkOfNewest(log, wm, MAX_BURST);
  }

  // Each record is new or repeats the newest message.
  ghost predicate NewestOnly(records: seq<Id>) {
    forall k :: 0 < k < |records| ==> records[k] in records[..k] ==> records[k] == records[k - 1]
  }

  lemma {:induction false} NewestOnlyPrefix(records: seq<Id>, k: nat)
    requires NewestOnly(records) && k <= |records|
    ensures NewestOnly(records[..k])
  {
    forall j | 0 < j < k && records[..k][j] in records[..k][..j] ensures records[..k][j] == records[..k][j - 1] {
      assert records[..k][..j] == records[..j];
    }
  }

  // Recording never reorders: the newest distinct id is the id recorded last.
  lemma {:induction false} NewestIsLast(records: seq<Id>)
    requires records != [] && NewestOnly(records) && NO_ID !in records
    ensures Dedup(records) != []
    ensures Dedup(records)[|Dedup(records)| - 1] == records[|records| - 1]
  {
    var n := |records| - 1;
    DedupFacts(records[..n]);
    if n > 0 && records[n] in records[..n] {
      NewestOnlyPrefix(records, n);
      NewestIsLast(records[..n]);
    }
  }

  ghost predicate IsSuffix<T>(s: seq<T>, whole: seq<T>) {
    |s| <= |whole| && s == whole[|whole| - |s|..]
  }

  // A record that repeats an earlier one is also in every tail that holds the record just before it.
  lemma {:induction false} RepeatIsInTheTail(front: seq<Id>, x: Id, k: nat)
    requires k < |front| && NewestOnly(front + [x]) && x in front
    ensures x in front[k..]
  {
    var n := |front|;
    assert (front + [x])[..n] == front;
    assert (front + [x])[n] in (front + [x])[..n];
    assert front[k..][n - 1 - k] == x;
  }

  lemma {:induction false} SuffixGrows(s: seq<Id>, whole: seq<Id>, x: Id)
    requires IsSuffix(s, whole)
    ensures IsSuffix(s + [x], whole + [x])
  {
  }

  lemma {:induction false} EmptyTailStep(front: seq<Id>, x: Id)
    requires NewestOnly(front + [x]) && NO_ID !in front + [x]
    ensures IsSuffix(Dedup([x]), Dedup(front + [x]))
  {
    NewestIsLast(front + [x]);
    assert [x][..0] == [];
    assert Dedup([]) == [];
    assert Dedup([x]) == [x];
  }

  lemma {:induction false} TailStep(front: seq<Id>, x: Id, k: nat)
    requires k <= |front| && NewestOnly(front + [x]) && NO_ID !in front + [x]
    requires IsSuffix(Dedup(front[k..]), Dedup(front))
    ensures IsSuffix(Dedup(front[k..] + [x]), Dedup(front + [x]))
  {
    if k == |front| {
      assert front[k..] + [x] == [x];
      EmptyTailStep(front, x);
    } else {
      DedupSnoc(front, x);
      DedupSnoc(front[k..], x);
      DedupFacts(front);
      DedupFacts(front[k..]);
      if x in front {
        RepeatIsInTheTail(front, x, k);
      } else {
        SuffixGrows(Dedup(front[k..]), Dedup(front), x);
      }
    }
  }

  // With repeats of the newest message only, a tail of the record sequence de-duplicates to a
  // tail of the de-duplicated log.
  lemma {:induction false} TailOfRecords(records: seq<Id>, k: nat)
    requires NewestOnly(records) && NO_ID !in records && k <= |records|
    ensures IsSuffix(Dedup(records[k..]), Dedup(records))
  {
    if k < |records| {
      var front, x := records[..|records| - 1], records[|records| - 1];
      NewestOnlyPrefix(records, |front|);
      TailOfRecords(front, k);
      assert records == front + [x] && records[k..] == front[k..] + [x];
      TailStep(front, x, k);
    }
  }

  lemma {:induction false} DedupIsNoLonger(ids: seq<Id>)
    ensures |Dedup(ids)| <= |ids|
  {
    if ids != [] {
      DedupIsNoLonger(ids[..|ids| - 1]);
    }
  }

  lemma {:induction false} LoadedOfRecords(records: seq<Id>)
    ensures Loaded(ListAfter(records)) == Dedup(LastN(records, MAX_BURST))
  {
    ListIsTheLastTwenty(records);
    DedupIsNoLonger(LastN(records, MAX_BURST));
  }

  lemma {:induction false} WindowIsATail(records: seq<Id>)
    requires NO_ID !in records
    requires |records| <= MAX_BURST || NewestOnly(records)
    ensures IsSuffix(Dedup(LastN(records, MAX_BURST)), Dedup(records))
  {
    if |records| > MAX_BURST {
      TailOfRecords(records, |records| - MAX_BURST);
    }
  }

  // Below the cap, or with repeats of the newest message only, the loaded ids are a tail of the
  // first-recorded order.
  lemma {:induction false} LoadedIsATail(records: seq<Id>)
    requires NO_ID !in records
    requires |records| <= MAX_BURST || NewestOnly(records)
    ensures IsSuffix(Loaded(ListAfter(records)), Dedup(records))
  {
    LoadedOfRecords(records);
    WindowIsATail(records);
  }
}

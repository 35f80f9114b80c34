/**
  Sending one reply under retries (sendAiMessage in ai/autoreply.go, ai/send_delivery.go): the pending
  row, the external id and the Redis done key of one inbound message, with a possible failure at each
  call.
 */
module Delivery {
  import opened Writes

  // What the channel answers: the send was refused, accepted with an id, or accepted although the
  // caller got an error.
  datatype Meta = Rejected | Accepted(id: string) | AcceptedUnheard

  datatype Status = Pending | Sent | Failed

  // An outbound row that carries the inbound id in its metadata.
  datatype Row = Row(externalId: string, status: Status)

  // The rows in creation order, the done key, whether the conversation row shows the reply, and
  // counts of the sends accepted, of those whose answer was lost, and of failed external-id updates.
  datatype State = State(rows: seq<Row>, done: bool, shown: bool, accepted: nat, unheard: nat, failedUpdates: nat)

  const Nothing := State([], false, false, 0, 0, 0)

  // The answers one attempt gets. `ready` is false when the checks before any call stop it: an empty
  // text, a newer message in the burst, a channel that can not send.
  datatype Answers = Answers(ready: bool, doneRead: bool, lookup: bool, insert: Sql, meta: Meta, update: Sql,
                             conversation: Sql, mark: bool)

  // The channel's client never reports success without an id.
  ghost predicate Honest(a: Answers) {
    a.meta.Accepted? ==> a.meta.id != ""
  }

  datatype Found = Skip | Stop | NewRow | Reuse(row: nat)

  // Up to and including the lookup of an earlier row. Without an inbound id nothing is looked up.
  function Look(inbound: string, s: State, a: Answers): Found {
    if !a.ready then Stop
    else if inbound == "" then NewRow
    else if a.doneRead && s.done then Skip
    else if !a.lookup then Stop
    else if s.rows == [] then NewRow
    else Reuse(|s.rows| - 1)
  }

  function Mark(inbound: string, s: State, a: Answers): State {
    if inbound != "" && a.mark then s.(done := true) else s
  }

  // metaSendText, then finalizeOutbound or markOutboundFailed; true when no error is returned.
  function Send(inbound: string, s: State, row: nat, a: Answers): (State, bool)
    requires row < |s.rows|
  {
    match a.meta
    case Rejected => (s.(rows := s.rows[row := s.rows[row].(status := Failed)]), false)
    case AcceptedUnheard =>
      (s.(rows := s.rows[row := s.rows[row].(status := Failed)], accepted := s.accepted + 1, unheard := s.unheard + 1),
       false)
    case Accepted(id) =>
      var sent := s.(accepted := s.accepted + 1);
      var stored := sent.(rows := s.rows[row := Row(id, Sent)]);
      if a.update == Refused then (sent.(failedUpdates := s.failedUpdates + 1), false)
      else if a.update == Lost then (stored.(failedUpdates := s.failedUpdates + 1), false)
      else if a.conversation == Refused then (stored, false)
      else if a.conversation == Lost then (stored.(shown := true), false)
      else (Mark(inbound, stored.(shown := true), a), true)
  }

  // From the lookup's result on.
  function Deliver(inbound: string, s: State, found: Found, a: Answers): (State, bool)
    requires found.Reuse? ==> found.row < |s.rows|
  {
    match found
    case Skip => (s, true)
    case Stop => (s, false)
    case Reuse(row) =>
      if s.rows[row].externalId != "" then (Mark(inbound, s, a), true) else Send(inbound, s, row, a)
    case NewRow =>
      var inserted := s.(rows := s.rows + [Row("", Pending)]);
      match a.insert
      case Refused => (s, false)
      case Lost => (inserted, false)
      case Ok => Send(inbound, inserted, |s.rows|, a)
  }

  // sendAiMessage
  function Attempt(inbound: string, s: State, a: Answers): (State, bool) {
    Deliver(inbound, s, Look(inbound, s, a), a)
  }

  // ── attempts one after another ─────────────────────────────────────────────

  predicate Delivered(s: State) {
    s.rows != [] && s.rows[0].externalId != ""
  }

  ghost predicate Inv(s: State) {
    && |s.rows| <= 1
    && (s.done || s.shown ==> Delivered(s))
    && s.accepted <= s.unheard + s.failedUpdates + (if Delivered(s) then 1 else 0)
  }

  lemma {:induction false} AttemptKeepsInv(inbound: string, s: State, a: Answers)
    requires inbound != "" && Inv(s) && Honest(a)
    ensures var (s', ok) := Attempt(inbound, s, a); Inv(s') && (ok ==> Delivered(s'))
  {
  }

  // Once the external id is stored nothing is sent any more, and no other row is written: an attempt
  // can only set the done key.
  lemma {:induction false} NothingAfterDelivery(inbound: string, s: State, a: Answers)
    requires inbound != "" && Inv(s) && Delivered(s)
    ensures var s' := Attempt(inbound, s, a).0; s' == s.(done := s'.done) && (s.done ==> s'.done)
  {
  }

  ghost predicate Runs(inbound: string, ss: seq<State>, answers: seq<Answers>) {
    && |ss| == |answers| + 1 && ss[0] == Nothing
    && forall k :: 0 <= k < |answers| ==> Honest(answers[k]) && ss[k + 1] == Attempt(inbound, ss[k], answers[k]).0
  }

  lemma {:induction false} RunKeepsInv(inbound: string, ss: seq<State>, answers: seq<Answers>, i: nat)
    requires inbound != "" && Runs(inbound, ss, answers) && i <= |answers|
    ensures Inv(ss[i])
  {
    if i > 0 {
      RunKeepsInv(inbound, ss, answers, i - 1);
      AttemptKeepsInv(inbound, ss[i - 1], answers[i - 1]);
    }
  }

  // Over any sequence of attempts for one inbound message, whatever fails: there is at most one
  // outbound row; the channel accepts at most one send, plus one for every failed external-id update
  // and every accepted send whose answer was lost; the done key is only there with a delivered row;
  // and an attempt that ends without an error leaves a delivered row.
  lemma {:induction false} AtMostOneReply(inbound: string, ss: seq<State>, answers: seq<Answers>, i: nat)
    requires inbound != "" && Runs(inbound, ss, answers) && i < |answers|
    ensures var s := ss[i + 1];
            && |s.rows| <= 1
            && s.accepted <= 1 + s.failedUpdates + s.unheard
            && (s.done ==> |s.rows| == 1 && s.rows[0].externalId != "")
            && (Attempt(inbound, ss[i], answers[i]).1 ==> |s.rows| == 1 && s.rows[0].externalId != "")
  {
    RunKeepsInv(inbound, ss, answers, i);
    AttemptKeepsInv(inbound, ss[i], answers[i]);
  }

  // The bound is met: after n failed external-id updates the channel has accepted n + 1 sends.
  function Resent(n: nat): seq<State> {
    if n == 0 then [State([Row("", Pending)], false, false, 0, 0, 0)]
    else Resent(n - 1) + [State([Row("", Pending)], false, false, n, 0, n)]
  }

  // An attempt in which everything works, and one in which the external id can not be stored.
  const Good := Answers(true, true, true, Ok, Accepted("wamid"), Ok, Ok, true)
  const Unstored := Good.(update := Refused)

  lemma {:induction false} BoundIsMet(inbound: string, n: nat)
    requires inbound != ""
    ensures |Resent(n)| == n + 1
    ensures forall k :: 0 <= k < n ==> Attempt(inbound, Resent(n)[k], Unstored).0 == Resent(n)[k + 1]
    ensures Resent(n)[n] == State([Row("", Pending)], false, false, n, 0, n)
    ensures Attempt(inbound, Resent(n)[n], Good).0.accepted == n + 1
  {
    if n > 0 {
      BoundIsMet(inbound, n - 1);
      forall k | 0 <= k < n
        ensures Attempt(inbound, Resent(n)[k], Unstored).0 == Resent(n)[k + 1]
      {
        assert Resent(n)[k] == Resent(n - 1)[k];
        if k + 1 < n {
          assert Resent(n)[k + 1] == Resent(n - 1)[k + 1];
        }
      }
    }
  }

  // ── what an attempt does ───────────────────────────────────────────────────

  // The attempt gets as far as the channel.
  predicate ReachesChannel(s: State, a: Answers) {
    a.ready && a.lookup && (s.rows != [] || a.insert == Ok)
  }

  // What an attempt leaves of the row: as stored, marked as failed, or as it was.
  predicate RowEnds(s: State, a: Answers, row: Row) {
    if a.meta.Accepted? then
      if a.update == Refused then row == (if s.rows == [] then Row("", Pending) else s.rows[0])
      else row == Row(a.meta.id, Sent)
    else row == (if s.rows == [] then Row("", Failed) else s.rows[0].(status := Failed))
  }

  // An attempt for a reply that is not delivered: it delivers exactly when the channel accepts the send and the
  // external id is stored; it ends without an error, and sets the done key, exactly when every update worked; a
  // send the channel refuses, or does not answer, leaves the row marked as failed; and an attempt that does not
  // reach the channel sends nothing.
  lemma {:induction false} AttemptEnds(inbound: string, s: State, a: Answers)
    requires inbound != "" && Inv(s) && Honest(a) && !Delivered(s)
    ensures var (s', ok) := Attempt(inbound, s, a);
            && (Delivered(s') <==> ReachesChannel(s, a) && a.meta.Accepted? && a.update != Refused)
            && (ok <==> ReachesChannel(s, a) && a.meta.Accepted? && a.update == Ok && a.conversation == Ok)
            && (s'.done <==> ok && a.mark)
            && (ReachesChannel(s, a) ==> |s'.rows| == 1 && RowEnds(s, a, s'.rows[0]))
            && s'.accepted == s.accepted + if ReachesChannel(s, a) && !a.meta.Rejected? then 1 else 0
  {
  }

  // An attempt for a delivered reply ends without an error, unless it is stopped before, and sets the done key.
  lemma {:induction false} LaterAttemptEnds(inbound: string, s: State, a: Answers)
    requires inbound != "" && Inv(s) && Delivered(s)
    ensures var (s', ok) := Attempt(inbound, s, a);
            && (ok <==> a.ready && ((a.doneRead && s.done) || a.lookup))
            && (s'.done <==> s.done || (ok && a.mark))
  {
  }

  // ── the conversation row ───────────────────────────────────────────────────

  // Attempt k is the one that stores the external id.
  predicate DeliversAt(ss: seq<State>, k: nat) {
    k + 1 < |ss| && !Delivered(ss[k]) && Delivered(ss[k + 1])
  }

  lemma {:induction false} DeliveringAttempt(inbound: string, s: State, a: Answers)
    requires inbound != "" && Inv(s) && Honest(a) && !Delivered(s)
    ensures var s' := Attempt(inbound, s, a).0;
            s'.shown <==> Delivered(s') && a.update == Ok && a.conversation != Refused
  {
  }

  ghost predicate ShowsAs(s: State, a: Answers) {
    Delivered(s) && (s.shown <==> a.update == Ok && a.conversation != Refused)
  }

  lemma {:induction false} StaysShown(inbound: string, s: State, a: Answers, delivering: Answers)
    requires inbound != "" && Inv(s) && ShowsAs(s, delivering)
    ensures ShowsAs(Attempt(inbound, s, a).0, delivering)
  {
    NothingAfterDelivery(inbound, s, a);
  }

  // The delivering attempt alone decides what the conversation shows: over every run, the reply is shown
  // exactly when that attempt's external-id update worked and its conversation update took place. Later
  // attempts skip, and make up for nothing.
  lemma {:induction false} ShownIff(inbound: string, ss: seq<State>, answers: seq<Answers>, k: nat, i: nat)
    requires inbound != "" && Runs(inbound, ss, answers) && k < i <= |answers| && DeliversAt(ss, k)
    ensures ShowsAs(ss[i], answers[k])
  {
    RunKeepsInv(inbound, ss, answers, i - 1);
    if i == k + 1 {
      DeliveringAttempt(inbound, ss[k], answers[k]);
    } else {
      ShownIff(inbound, ss, answers, k, i - 1);
      StaysShown(inbound, ss[i - 1], answers[i - 1], answers[k]);
    }
  }

  // A delivered reply was delivered by one attempt of the run, and by no other.
  lemma {:induction false} DeliveredByAnAttempt(inbound: string, ss: seq<State>, answers: seq<Answers>, i: nat)
    requires Runs(inbound, ss, answers) && i <= |answers| && Delivered(ss[i])
    ensures exists k: nat :: k < i && DeliversAt(ss, k)
  {
    if Delivered(ss[i - 1]) {
      DeliveredByAnAttempt(inbound, ss, answers, i - 1);
    } else {
      assert DeliversAt(ss, i - 1);
    }
  }

  lemma {:induction false} DeliveredOnce(inbound: string, ss: seq<State>, answers: seq<Answers>, k: nat, m: nat)
    requires inbound != "" && Runs(inbound, ss, answers) && DeliversAt(ss, k) && DeliversAt(ss, m)
    ensures k == m
  {
    if k < m {
      ShownIff(inbound, ss, answers, k, m);
    } else if m < k {
      ShownIff(inbound, ss, answers, m, k);
    }
  }

  // A first attempt in which the update of the conversation row fails, or the answer of the external-id
  // update is lost, is enough: the reply is out, and however many attempts follow, the conversation goes on
  // showing the older message.
  lemma {:induction false} PreviewStaysOld(inbound: string, ss: seq<State>, answers: seq<Answers>, i: nat)
    requires inbound != "" && Runs(inbound, ss, answers) && 0 < i <= |answers|
    requires answers[0].ready && answers[0].lookup && answers[0].insert == Ok && answers[0].meta.Accepted?
    requires answers[0].update == Lost || (answers[0].update == Ok && answers[0].conversation == Refused)
    ensures Delivered(ss[i]) && !ss[i].shown && ss[i].accepted == 1
  {
    assert DeliversAt(ss, 0);
    ShownIff(inbound, ss, answers, 0, i);
    if i > 1 {
      PreviewStaysOld(inbound, ss, answers, i - 1);
      RunKeepsInv(inbound, ss, answers, i - 1);
      NothingAfterDelivery(inbound, ss[i - 1], answers[i - 1]);
    }
  }

  // ── where the guarantee ends ───────────────────────────────────────────────

  // Two attempts that overlap, the second looking before the first inserts, both send.
  lemma {:induction false} OverlapSendsTwice(inbound: string)
    requires inbound != ""
    ensures var look := Look(inbound, Nothing, Good);
            var s := Deliver(inbound, Deliver(inbound, Nothing, look, Good).0, look, Good).0;
            |s.rows| == 2 && s.accepted == 2
  {
  }

  // Without an inbound id every attempt that reaches the channel is a new row and a new send.
  lemma {:induction false} NoIdNoGuard(s: State, a: Answers)
    requires a.ready && a.insert == Ok && a.meta.Accepted?
    ensures var s' := Attempt("", s, a).0; |s'.rows| == |s.rows| + 1 && s'.accepted == s.accepted + 1
  {
  }

  // ── the attempt, step by step ──────────────────────────────────────────────

  class Sender {
    const inbound: string
    var rows: seq<Row>
    var done: bool
    var shown: bool
    var accepted: nat
    var unheard: nat
    var failedUpdates: nat

    constructor (inbound: string)
      ensures this.inbound == inbound && Now() == Nothing
    {
      this.inbound := inbound;
      rows, done, shown, accepted, unheard, failedUpdates := [], false, false, 0, 0, 0;
    }

    ghost function Now(): State
      reads this
    {
      State(rows, done, shown, accepted, unheard, failedUpdates)
    }

    method MarkDone(a: Answers)
      modifies this`done
      ensures Now() == Mark(inbound, old(Now()), a)
    {
      if inbound != "" && a.mark {
        done := true;
      }
    }

    method Finalize(row: nat, id: string, a: Answers) returns (ok: bool)
      requires row < |rows|
      modifies this`rows, this`shown, this`failedUpdates
      ensures ok == (a.update == Ok && a.conversation == Ok)
      ensures rows == if a.update == Refused then old(rows) else old(rows)[row := Row(id, Sent)]
      ensures shown == (old(shown) || (a.update == Ok && a.conversation != Refused))
      ensures failedUpdates == old(failedUpdates) + if a.update == Ok then 0 else 1
    {
      if a.update != Refused {
        rows := rows[row := Row(id, Sent)];
      }
      if a.update != Ok {
        failedUpdates := failedUpdates + 1;
        return false;
      }
      if a.conversation != Refused {
        shown := true;
      }
      ok := a.conversation == Ok;
    }

    method SendText(row: nat, a: Answers) returns (ok: bool)
      requires row < |rows|
      modifies this
      ensures (Now(), ok) == Send(inbound, old(Now()), row, a)
    {
      match a.meta {
        case Rejected =>
          rows := rows[row := rows[row].(status := Failed)];
          return false;
        case AcceptedUnheard =>
          accepted, unheard := accepted + 1, unheard + 1;
          rows := rows[row := rows[row].(status := Failed)];
          return false;
        case Accepted(id) =>
          accepted := accepted + 1;
          ok := Finalize(row, id, a);
          if ok {
            MarkDone(a);
          }
      }
    }

    method SendAiMessage(a: Answers) returns (ok: bool)
      modifies this
      ensures (Now(), ok) == Attempt(inbound, old(Now()), a)
    {
      if !a.ready {
        return false;
      }
      if inbound != "" {
        if a.doneRead && done {
          return true;
        }
        if !a.lookup {
          return false;
        }
        if rows != [] {
          var row := |rows| - 1;
          if rows[row].externalId != "" {
            MarkDone(a);
            return true;
          }
          ok := SendText(row, a);
          return;
        }
      }
      var row := |rows|;
      if a.insert != Refused {
        rows := rows + [Row("", Pending)];
      }
      if a.insert != Ok {
        return false;
      }
      ok := SendText(row, a);
    }
  }
}

/**
  Stitching a burst of chat bubbles into one text (ai/inbound_coalesce.go) and cutting that text off
  the end of the stored history again (ai/anthropic_messages.go).
 */
module Stitch {
  import opened Text

  datatype Message = Message(author: string, body: string)

  // The trimmed bodies, blank ones left out.
  function Lines(bodies: seq<string>): seq<string> {
    if bodies == [] then []
    else
      var rest := Lines(bodies[..|bodies| - 1]);
      var line := Trim(bodies[|bodies| - 1]);
      if line == "" then rest else rest + [line]
  }

  function StitchedText(bodies: seq<string>): string {
    Join(Lines(bodies))
  }

  method StitchInboundBodies(bodies: seq<string>) returns (text: string)
    ensures text == StitchedText(bodies)
  {
    text := "";
    var first := true;
    for i := 0 to |bodies|
      invariant first == (Lines(bodies[..i]) == [])
      invariant text == StitchedText(bodies[..i])
    {
      assert bodies[..i + 1][..i] == bodies[..i];
      var line := Trim(bodies[i]);
      if line == "" {
        continue;
      }
      if !first {
        JoinSnoc(Lines(bodies[..i]), line);
        text := text + "\n";
      }
      first := false;
      text := text + line;
    }
    assert bodies[..|bodies|] == bodies;
  }

  lemma {:induction false} LinesFacts(bodies: seq<string>)
    ensures forall k :: 0 <= k < |Lines(bodies)| ==> Lines(bodies)[k] != "" && Trimmed(Lines(bodies)[k])
    ensures forall k :: 0 <= k < |bodies| && !Blank(bodies[k]) ==> Trim(bodies[k]) in Lines(bodies)
  {
    if bodies != [] {
      LinesFacts(bodies[..|bodies| - 1]);
    }
  }

  // No buyer text is lost by stitching: every body that is not blank is part of the text.
  lemma {:induction false} StitchedTextHasEveryBody(bodies: seq<string>, k: nat)
    requires k < |bodies| && !Blank(bodies[k])
    ensures Contains(StitchedText(bodies), Trim(bodies[k]))
  {
    LinesFacts(bodies);
    var j :| 0 <= j < |Lines(bodies)| && Lines(bodies)[j] == Trim(bodies[k]);
    JoinContains(Lines(bodies), j);
  }

  // The texts of history[i..], one per line.
  function Joined(history: seq<Message>, i: nat): string
    requires i < |history|
    decreases |history| - i
  {
    if i == |history| - 1 then Trim(history[i].body)
    else Trim(history[i].body) + "\n" + Joined(history, i + 1)
  }

  predicate ContactText(m: Message) {
    m.author == "contact" && !Blank(m.body)
  }

  // history[i..] holds buyer texts only.
  predicate ContactTexts(history: seq<Message>, i: nat)
    requires i <= |history|
    decreases |history| - i
  {
    i < |history| ==> ContactText(history[i]) && ContactTexts(history, i + 1)
  }

  // history[i..] is a run of buyer texts that joins to `want`.
  predicate Matches(history: seq<Message>, want: string, i: int) {
    0 <= i < |history| && ContactTexts(history, i) && Joined(history, i) == want
  }

  lemma {:induction false} ContactTextsAt(history: seq<Message>, i: nat, k: nat)
    requires i <= k < |history| && ContactTexts(history, i)
    ensures ContactText(history[k])
    decreases k - i
  {
    if i < k {
      ContactTextsAt(history, i + 1, k);
    }
  }

  // A longer run of messages joins to a strictly longer text.
  lemma {:induction false} LongerRunLongerText(history: seq<Message>, i: nat, j: nat)
    requires i < j < |history|
    ensures |Joined(history, i)| > |Joined(history, j)|
    decreases j - i
  {
    if i + 1 < j {
      LongerRunLongerText(history, i + 1, j);
    }
  }

  lemma {:induction false} MatchIsUnique(history: seq<Message>, want: string, i: int, j: int)
    requires Matches(history, want, i) && Matches(history, want, j)
    ensures i == j
  {
    if i < j {
      LongerRunLongerText(history, i, j);
    } else if j < i {
      LongerRunLongerText(history, j, i);
    }
  }

  // What is left of the history once `want` is cut off its end.
  ghost function Past(history: seq<Message>, want: string): seq<Message> {
    if want != "" && exists i :: Matches(history, want, i) then
      var i :| Matches(history, want, i);
      history[..i]
    else history
  }

  ghost function PastHistory(history: seq<Message>, userText: string): seq<Message> {
    Past(history, Trim(userText))
  }

  lemma {:induction false} PastIsBeforeTheMatch(history: seq<Message>, want: string, i: nat)
    requires want != "" && Matches(history, want, i)
    ensures Past(history, want) == history[..i]
  {
    var j :| Matches(history, want, j) && Past(history, want) == history[..j];
    MatchIsUnique(history, want, i, j);
  }

  // The texts from i on are too short, and the run that starts just before i is no match either
  // because of who wrote it or because it is too long: then no run matches.
  ghost predicate ScanExhausted(history: seq<Message>, want: string, i: nat) {
    && i <= |history|
    && (i < |history| ==> |Joined(history, i)| < |want|)
    && (|| i == 0
        || !ContactText(history[i - 1])
        || (|Joined(history, i - 1)| >= |want| && Joined(history, i - 1) != want))
  }

  lemma {:induction false} NoShorterMatch(history: seq<Message>, want: string, i: nat, j: nat)
    requires i <= j < |history| && |Joined(history, i)| < |want|
    ensures !Matches(history, want, j)
  {
    if i < j {
      LongerRunLongerText(history, i, j);
    }
  }

  lemma {:induction false} NoLongerMatch(history: seq<Message>, want: string, i: nat, j: nat)
    requires j <= i < |history| && |Joined(history, i)| >= |want| && Joined(history, i) != want
    ensures !Matches(history, want, j)
  {
    if j < i {
      LongerRunLongerText(history, j, i);
    }
  }

  lemma {:induction false} NoMatchAcross(history: seq<Message>, want: string, i: nat, j: nat)
    requires j <= i < |history| && !ContactText(history[i])
    ensures !Matches(history, want, j)
  {
    if ContactTexts(history, j) {
      ContactTextsAt(history, j, i);
    }
  }

  lemma {:induction false} NoMatch(history: seq<Message>, want: string, i: nat, j: nat)
    requires ScanExhausted(history, want, i) && j < |history|
    ensures !Matches(history, want, j)
  {
    if i <= j {
      NoShorterMatch(history, want, i, j);
    } else if ContactText(history[i - 1]) {
      NoLongerMatch(history, want, i - 1, j);
    } else {
      NoMatchAcross(history, want, i - 1, j);
    }
  }

  lemma {:induction false} NothingToDrop(history: seq<Message>, want: string, i: nat)
    requires ScanExhausted(history, want, i)
    ensures Past(history, want) == history
  {
    forall j: int | 0 <= j < |history| ensures !Matches(history, want, j) {
      NoMatch(history, want, i, j);
    }
  }

  // The backward scan stops as soon as the joined text is as long as the wanted one; it still
  // finds the match whenever there is one, and never drops anything else.
  method DropTrailingCurrentInbound(history: seq<Message>, userText: string) returns (past: seq<Message>)
    ensures past == PastHistory(history, userText)
  {
    past := history;
    var want := Trim(userText);
    if want == "" || |history| == 0 {
      return;
    }
    var joined := "";
    var i := |history|;
    while i > 0
      invariant 0 <= i <= |history|
      invariant ContactTexts(history, i)
      invariant if i == |history| then joined == "" else joined == Joined(history, i) && joined != ""
      invariant |joined| < |want|
    {
      i := i - 1;
      var body := Trim(history[i].body);
      if history[i].author != "contact" || body == "" {
        NothingToDrop(history, want, i + 1);
        return;
      }
      if joined == "" {
        joined := body;
      } else {
        joined := body + "\n" + joined;
      }
      if joined == want {
        PastIsBeforeTheMatch(history, want, i);
        return history[..i];
      }
      if |joined| >= |want| {
        NothingToDrop(history, want, i + 1);
        return;
      }
    }
    NothingToDrop(history, want, 0);
  }

  function Bodies(msgs: seq<Message>): seq<string> {
    if msgs == [] then [] else Bodies(msgs[..|msgs| - 1]) + [msgs[|msgs| - 1].body]
  }

  lemma {:induction false} JoinedSnoc(msgs: seq<Message>, last: Message, i: nat)
    requires i < |msgs|
    ensures Joined(msgs + [last], i) == Joined(msgs, i) + "\n" + Trim(last.body)
    decreases |msgs| - i
  {
    if i < |msgs| - 1 {
      JoinedSnoc(msgs, last, i + 1);
      assert Joined(msgs + [last], i) == Trim(msgs[i].body) + "\n" + Joined(msgs + [last], i + 1);
      assert Joined(msgs, i) == Trim(msgs[i].body) + "\n" + Joined(msgs, i + 1);
    }
  }

  // Stitching forwards and joining backwards build the same text.
  lemma {:induction false} StitchedIsJoined(msgs: seq<Message>)
    requires msgs != [] && forall k :: 0 <= k < |msgs| ==> ContactText(msgs[k])
    ensures Lines(Bodies(msgs)) != []
    ensures StitchedText(Bodies(msgs)) == Joined(msgs, 0)
  {
    var n := |msgs| - 1;
    var front, last := msgs[..n], msgs[n];
    assert msgs == front + [last];
    assert Bodies(msgs)[..|Bodies(msgs)| - 1] == Bodies(front);
    assert !Blank(last.body);
    if n == 0 {
      assert Lines(Bodies(front)) == [];
      assert Lines(Bodies(msgs)) == [Trim(last.body)];
    } else {
      StitchedIsJoined(front);
      JoinSnoc(Lines(Bodies(front)), Trim(last.body));
      JoinedSnoc(front, last, 0);
    }
  }

  lemma {:induction false} JoinedAfter(history: seq<Message>, burst: seq<Message>, i: nat)
    requires i < |burst|
    requires forall k :: 0 <= k < |burst| ==> ContactText(burst[k])
    ensures Joined(history + burst, |history| + i) == Joined(burst, i)
    ensures ContactTexts(history + burst, |history| + i)
    decreases |burst| - i
  {
    assert (history + burst)[|history| + i] == burst[i];
    if i < |burst| - 1 {
      JoinedAfter(history, burst, i + 1);
    }
  }

  // Stitch, then drop: the history without the burst, whatever came before the burst.
  lemma {:induction false} StitchThenDrop(history: seq<Message>, burst: seq<Message>)
    requires burst != []
    requires forall k :: 0 <= k < |burst| ==> ContactText(burst[k])
    ensures PastHistory(history + burst, StitchedText(Bodies(burst))) == history
  {
    var text := StitchedText(Bodies(burst));
    assert text == Joined(burst, 0) && text != "" && Trim(text) == text by {
      StitchedIsJoined(burst);
      LinesFacts(Bodies(burst));
      JoinTrimmed(Lines(Bodies(burst)));
    }
    JoinedAfter(history, burst, 0);
    PastIsBeforeTheMatch(history + burst, text, |history|);
    assert (history + burst)[..|history|] == history;
  }

  // Whatever is dropped was the buyer's own: a suffix of contact texts that joins to the text.
  lemma {:induction false} DroppedIsTheBuyersText(history: seq<Message>, userText: string)
    ensures var past := PastHistory(history, userText);
            && past <= history
            && (past != history ==> Matches(history, Trim(userText), |past|))
  {
    var want := Trim(userText);
    if want != "" && exists i :: Matches(history, want, i) {
      var i :| Matches(history, want, i) && Past(history, want) == history[..i];
    }
  }
}

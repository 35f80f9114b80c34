/**
  Strings as the Go code sees them: the white space of `unicode.IsSpace`, `strings.TrimSpace`,
  and joining lines with a newline.
 */
module Text {

  // unicode.IsSpace
  predicate IsSpace(c: char) {
    var n := c as int;
    || 0x09 <= n <= 0x0d || n == 0x20 || n == 0x85 || n == 0xa0 || n == 0x1680
    || 0x2000 <= n <= 0x200a || n == 0x2028 || n == 0x2029 || n == 0x202f || n == 0x205f || n == 0x3000
  }

  // No white space at either end.
  predicate Trimmed(s: string) {
    s != "" ==> !IsSpace(s[0]) && !IsSpace(s[|s| - 1])
  }

  // strings.TrimSpace
  function Trim(s: string): (r: string)
    ensures Trimmed(r)
    ensures Trimmed(s) ==> r == s
  {
    if s == "" then ""
    else if IsSpace(s[0]) then Trim(s[1..])
    else if IsSpace(s[|s| - 1]) then Trim(s[..|s| - 1])
    else s
  }

  predicate Blank(s: string) {
    Trim(s) == ""
  }

  // strings.Join(lines, "\n")
  function Join(lines: seq<string>): string {
    if lines == [] then ""
    else if |lines| == 1 then lines[0]
    else lines[0] + "\n" + Join(lines[1..])
  }

  ghost predicate Contains(text: string, part: string) {
    exists before: string, after: string :: text == before + part + after
  }

  // Appending a line at the end of a non-empty join.
  lemma {:induction false} JoinSnoc(lines: seq<string>, last: string)
    requires lines != []
    ensures Join(lines + [last]) == Join(lines) + "\n" + last
  {
    if |lines| == 1 {
      assert (lines + [last])[1..] == [last];
    } else {
      JoinSnoc(lines[1..], last);
      assert (lines + [last])[1..] == lines[1..] + [last];
      assert lines[0] + "\n" + (Join(lines[1..]) + "\n" + last) == lines[0] + "\n" + Join(lines[1..]) + "\n" + last;
    }
  }

  // Every line of a join is found in it.
  lemma {:induction false} JoinContains(lines: seq<string>, k: nat)
    requires k < |lines|
    ensures Contains(Join(lines), lines[k])
  {
    if |lines| == 1 {
      assert Join(lines) == "" + lines[k] + "";
    } else if k == 0 {
      assert Join(lines) == "" + lines[k] + ("\n" + Join(lines[1..]));
    } else {
      JoinContains(lines[1..], k - 1);
      var before, after :| Join(lines[1..]) == before + lines[k] + after;
      assert Join(lines) == (lines[0] + "\n" + before) + lines[k] + after;
    }
  }

  // A join of trimmed, non-empty lines is itself trimmed and non-empty.
  lemma {:induction false} JoinTrimmed(lines: seq<string>)
    requires lines != []
    requires forall k :: 0 <= k < |lines| ==> lines[k] != "" && Trimmed(lines[k])
    ensures Join(lines) != "" && Trimmed(Join(lines))
    ensures Join(lines)[0] == lines[0][0]
  {
    if |lines| > 1 {
      JoinTrimmed(lines[1..]);
    }
  }

  lemma {:induction false} ContainsInMiddle(before: string, middle: string, after: string, part: string)
    requires Contains(middle, part)
    ensures Contains(before + middle + after, part)
  {
    var b, a :| middle == b + part + a;
    assert before + middle + after == (before + b) + part + (a + after);
  }

  lemma {:induction false} TrimIsContained(s: string)
    ensures Contains(s, Trim(s))
  {
    if s == "" {
      assert s == "" + Trim(s) + "";
    } else if IsSpace(s[0]) {
      TrimIsContained(s[1..]);
      ContainsInMiddle([s[0]], s[1..], "", Trim(s));
      assert s == [s[0]] + s[1..] + "";
    } else if IsSpace(s[|s| - 1]) {
      var front := s[..|s| - 1];
      TrimIsContained(front);
      ContainsInMiddle("", front, [s[|s| - 1]], Trim(s));
      assert s == "" + front + [s[|s| - 1]];
    } else {
      assert s == "" + Trim(s) + "";
    }
  }
}

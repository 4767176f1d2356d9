/**
 The here-document that carries a squash message (cmd/jamsesh/finalizecmd/script.go),
 read back by the rule of section 2.7.4 (Here-Document) of the POSIX.1-2017 Shell
 Command Language: everything up to the first line that is exactly the delimiter.
 */
module HereDoc {
  import opened Wrappers
  import PushErrors

  // ---------------------------------------------------------------------------
  // Lines
  // ---------------------------------------------------------------------------

  /** Index of the first newline. */
  function Newline(s: string): (r: Option<nat>)
    ensures r.Some? ==> r.value < |s| && s[r.value] == '\n' && '\n' !in s[..r.value]
    ensures r.None? ==> '\n' !in s
  {
    if s == [] then None
    else if s[0] == '\n' then Some(0)
    else
      var r := Newline(s[1..]);
      assert s == [s[0]] + s[1..];
      if r.None? then None else
        assert s[..r.value + 1] == [s[0]] + s[1..][..r.value];
        Some(r.value + 1)
  }

  /** strings.Split(s, "\n") */
  function Split(s: string): (lines: seq<string>)
    ensures lines != []
    decreases |s|
  {
    var nl := Newline(s);
    if nl.None? then [s] else [s[..nl.value]] + Split(s[nl.value + 1..])
  }

  /** The first newline of a + b is a's, if a has one. */
  lemma {:induction false} NewlineOfSum(a: string, b: string)
    ensures Newline(a).Some? ==> Newline(a + b) == Newline(a)
    ensures Newline(a).None? && b != [] && b[0] == '\n' ==> Newline(a + b) == Some(|a|)
  {
    var s := a + b;
    if Newline(a).Some? {
      var i := Newline(a).value;
      assert s[i] == '\n' && s[..i] == a[..i];
      assert forall j | 0 <= j < i :: s[..i][j] == s[j];
    } else if b != [] && b[0] == '\n' {
      assert s[|a|] == '\n' && s[..|a|] == a;
      assert forall j | 0 <= j < |a| :: a[j] == s[j] && a[j] in a;
    }
  }

  lemma {:induction false} SplitUnfolds(s: string)
    ensures var nl := Newline(s);
            Split(s) == if nl.None? then [s] else [s[..nl.value]] + Split(s[nl.value + 1..])
  {
  }

  lemma {:induction false} SplitAfterLine(s: string, line: string, rest: string)
    requires s == line + ("\n" + rest) && Newline(line).None?
    ensures Split(s) == [line] + Split(rest)
  {
    NewlineOfSum(line, "\n" + rest);
    hide Newline, Split;
    SplitUnfolds(s);
    assert s[..|line|] == line && s[|line| + 1..] == rest;
  }

  /** strings.Split over a join. */
  lemma {:induction false} SplitJoin(a: string, b: string)
    ensures Split(a + "\n" + b) == Split(a) + Split(b)
    decreases |a|
  {
    hide Newline, Split;
    var s := a + "\n" + b;
    SplitUnfolds(a);
    var nl := Newline(a);
    if nl.None? {
      assert s == a + ("\n" + b);
      SplitAfterLine(s, a, b);
    } else {
      var line, rest := a[..nl.value], a[nl.value + 1..];
      assert a == line + ("\n" + rest);
      assert s == line + ("\n" + (rest + "\n" + b));
      NoNewline(line);
      SplitAfterLine(s, line, rest + "\n" + b);
      SplitJoin(rest, b);
      assert [line] + (Split(rest) + Split(b)) == ([line] + Split(rest)) + Split(b);
    }
  }

  lemma NoNewline(line: string)
    requires '\n' !in line
    ensures Newline(line).None?
  {
  }

  // ---------------------------------------------------------------------------
  // Choosing the delimiter
  // ---------------------------------------------------------------------------

  const BASE := "JAMSESH_EOF"

  const TRIES := 1000

  /** The candidates in the order they are tried. */
  function Candidate(i: nat): string {
    if i == 0 then BASE else BASE + "_" + PushErrors.Decimal(i - 1)
  }

  method ContainsStandaloneLine(body: string, sentinel: string) returns (found: bool)
    ensures found <==> sentinel in Split(body)
  {
    var lines := Split(body);
    for i := 0 to |lines|
      invariant sentinel !in lines[..i]
    {
      if lines[i] == sentinel {
        return true;
      }
    }
    found := false;
  }

  /** The first candidate that is not a line of the body; None when all 1001 are. */
  method PickHeredocTerminator(body: string) returns (r: Option<string>)
    ensures r.None? <==> forall i | 0 <= i <= TRIES :: Candidate(i) in Split(body)
    ensures r.Some? ==> exists i :: 0 <= i <= TRIES && r.value == Candidate(i) && Candidate(i) !in Split(body)
                                    && forall j | 0 <= j < i :: Candidate(j) in Split(body)
  {
    var taken := ContainsStandaloneLine(body, BASE);
    if !taken {
      assert Candidate(0) !in Split(body);
      return Some(BASE);
    }
    for i := 0 to TRIES
      invariant forall j | 0 <= j <= i :: Candidate(j) in Split(body)
    {
      var cand := BASE + "_" + PushErrors.Decimal(i);
      assert cand == Candidate(i + 1);
      taken := ContainsStandaloneLine(body, cand);
      if !taken {
        return Some(cand);
      }
    }
    r := None;
  }

  // ---------------------------------------------------------------------------
  // Printing and reading back
  // ---------------------------------------------------------------------------

  predicate EndsLine(s: string) {
    s != [] && s[|s| - 1] == '\n'
  }

  /** A message as a here-document delivers it. */
  function Delivered(message: string): string {
    if EndsLine(message) then message else message + "\n"
  }

  /** The text printSquashBody writes after the `<<'terminator'` line. */
  function Document(message: string, terminator: string): string {
    Delivered(message) + terminator + "\n"
  }

  /** The shell's view: the body, and what is left to execute after the delimiter line. */
  function ReadDocument(text: string, delimiter: string): Option<(string, string)>
    decreases |text|
  {
    var nl := Newline(text);
    if nl.None? then None else
      var line, rest := text[..nl.value], text[nl.value + 1..];
      if line == delimiter then Some(("", rest)) else
        var r := ReadDocument(rest, delimiter);
        if r.None? then None else Some((line + "\n" + r.value.0, r.value.1))
  }

  lemma {:induction false} ReadLine(line: string, rest: string, delimiter: string)
    requires '\n' !in line
    ensures var text := line + "\n" + rest;
            var r := ReadDocument(rest, delimiter);
            ReadDocument(text, delimiter) ==
              if line == delimiter then Some(("", rest))
              else if r.None? then None
              else Some((line + "\n" + r.value.0, r.value.1))
  {
    var text := line + "\n" + rest;
    assert text == line + ("\n" + rest);
    NewlineOfSum(line, "\n" + rest);
    assert text[..|line|] == line && text[|line| + 1..] == rest;
  }

  lemma {:induction false} SplitLine(line: string, rest: string)
    requires '\n' !in line
    ensures Split(line + "\n" + rest) == [line] + Split(rest)
  {
    SplitJoin(line, rest);
    assert Split(line) == [line];
  }

  lemma {:induction false} ReadThrough(body: string, delimiter: string, rest: string)
    requires body == [] || EndsLine(body)
    requires delimiter !in Split(body)
    requires ReadDocument(rest, delimiter).Some?
    ensures var r := ReadDocument(rest, delimiter).value;
            ReadDocument(body + rest, delimiter) == Some((body + r.0, r.1))
    decreases |body|
  {
    hide Split, ReadDocument;
    if body == [] {
      assert body + rest == rest;
      assert forall s: string :: body + s == s;
    } else {
      var i := Newline(body).value;
      var line, more := body[..i], body[i + 1..];
      assert body == line + "\n" + more;
      SplitLine(line, more);
      assert more == [] || more[|more| - 1] == body[|body| - 1];
      assert delimiter !in Split(more) && delimiter != line by {
        assert forall l :: l in [line] + Split(more) <==> l == line || l in Split(more);
      }
      ReadThrough(more, delimiter, rest);
      ReadLine(line, more + rest, delimiter);
      assert body + rest == line + "\n" + (more + rest);
      var r := ReadDocument(rest, delimiter).value;
      assert line + "\n" + (more + r.0) == body + r.0;
    }
  }

  lemma {:induction false} DeliveredLines(message: string, delimiter: string)
    requires delimiter !in Split(message) && delimiter != ""
    ensures delimiter !in Split(Delivered(message))
  {
    if !EndsLine(message) {
      SplitJoin(message, "");
      assert Delivered(message) == message + "\n" + "";
      assert Split("") == [""];
    }
  }

  lemma {:induction false} CandidateIsLine(i: nat)
    ensures Candidate(i) != "" && '\n' !in Candidate(i)
  {
    if i > 0 {
      var d := PushErrors.Decimal(i - 1);
      assert forall j | 0 <= j < |d| :: PushErrors.IsDigit(d[j]);
      assert '\n' !in d;
    }
  }

  /** A delimiter that is one of the lines ends the document there. */
  lemma {:induction false} StopsEarly(body: string, delimiter: string, rest: string)
    requires EndsLine(body) && delimiter in Split(body) && delimiter != ""
    ensures var r := ReadDocument(body + rest, delimiter); r.Some? && |r.value.0| < |body|
    decreases |body|
  {
    hide Split, ReadDocument;
    var i := Newline(body).value;
    var line, more := body[..i], body[i + 1..];
    assert body == line + "\n" + more;
    SplitLine(line, more);
    ReadLine(line, more + rest, delimiter);
    assert body + rest == line + "\n" + (more + rest);
    if line != delimiter {
      assert delimiter in Split(more) by {
        assert forall l :: l in [line] + Split(more) <==> l == line || l in Split(more);
      }
      SplitUnfolds(more);
      assert more == [] || more[|more| - 1] == body[|body| - 1];
      StopsEarly(more, delimiter, rest);
    }
  }

  lemma {:induction false} LinesDelivered(message: string, delimiter: string)
    requires delimiter in Split(message)
    ensures delimiter in Split(Delivered(message))
  {
    if !EndsLine(message) {
      SplitJoin(message, "");
      assert Delivered(message) == message + "\n" + "";
    }
  }

  /**
   For every message and every delimiter that is a line's worth of text: the shell
   reads back exactly the message, with a final newline if it had none, and goes on
   right after the printed delimiter, if and only if the delimiter is no line of the
   message.
   */
  lemma {:induction false} RoundTrip(message: string, delimiter: string, after: string)
    requires delimiter != "" && '\n' !in delimiter
    ensures ReadDocument(Document(message, delimiter) + after, delimiter) == Some((Delivered(message), after))
            <==> delimiter !in Split(message)
  {
    hide Split, ReadDocument;
    var rest := delimiter + "\n" + after;
    assert Document(message, delimiter) + after == Delivered(message) + rest;
    if delimiter in Split(message) {
      LinesDelivered(message, delimiter);
      StopsEarly(Delivered(message), delimiter, rest);
    } else {
      DeliveredLines(message, delimiter);
      ReadLine(delimiter, after, delimiter);
      ReadThrough(Delivered(message), delimiter, rest);
      assert Delivered(message) + "" == Delivered(message);
    }
  }

  // ---------------------------------------------------------------------------
  // How large a message must be to defeat the search
  // ---------------------------------------------------------------------------

  function Total(lines: seq<string>): nat {
    if lines == [] then 0 else |lines[0]| + Total(lines[1..])
  }

  lemma {:induction false} TotalSum(a: seq<string>, b: seq<string>)
    ensures Total(a + b) == Total(a) + Total(b)
    decreases |a|
  {
    if a == [] {
      assert a + b == b;
    } else {
      assert (a + b)[1..] == a[1..] + b;
      TotalSum(a[1..], b);
    }
  }

  lemma {:induction false} SplitLength(s: string)
    ensures |s| + 1 == Total(Split(s)) + |Split(s)|
    decreases |s|
  {
    var nl := Newline(s);
    if nl.Some? {
      SplitLength(s[nl.value + 1..]);
      assert Split(s)[1..] == Split(s[nl.value + 1..]);
    } else {
      assert Split(s)[1..] == [];
    }
  }

  lemma {:induction false} CandidatesDistinct(i: nat, j: nat)
    requires Candidate(i) == Candidate(j)
    ensures i == j
  {
    assert i > 0 ==> |Candidate(i)| > |BASE|;
    assert j > 0 ==> |Candidate(j)| > |BASE|;
    if i > 0 && j > 0 {
      var di, dj := PushErrors.Decimal(i - 1), PushErrors.Decimal(j - 1);
      assert Candidate(i)[|BASE| + 1..] == di && Candidate(j)[|BASE| + 1..] == dj;
      PushErrors.DigitsDecimal(i - 1);
      PushErrors.DigitsDecimal(j - 1);
    }
  }

  /** The bytes of the first n candidates. */
  function CandidateBytes(n: nat): nat {
    if n == 0 then 0 else CandidateBytes(n - 1) + |Candidate(n - 1)|
  }

  lemma {:induction false} DecimalLength(k: nat)
    requires k < 1000
    ensures |PushErrors.Decimal(k)| == if k < 10 then 1 else if k < 100 then 2 else 3
  {
    if k >= 10 {
      DecimalLength(k / 10);
    }
  }

  lemma {:induction false} CandidateBytesAre(n: nat)
    requires 1 <= n <= 1001
    ensures CandidateBytes(n) ==
            if n <= 11 then 11 + 13 * (n - 1)
            else if n <= 101 then 141 + 14 * (n - 11)
            else 1401 + 15 * (n - 101)
    decreases n
  {
    if n > 1 {
      CandidateBytesAre(n - 1);
      DecimalLength(n - 2);
    } else {
      assert CandidateBytes(0) == 0;
    }
  }

  /** Lines that contain n distinct candidates are at least n, with at least their bytes. */
  lemma {:induction false} LinesHoldCandidates(lines: seq<string>, n: nat)
    requires forall i | 0 <= i < n :: Candidate(i) in lines
    ensures |lines| >= n && Total(lines) >= CandidateBytes(n)
    decreases n
  {
    hide Candidate;
    if n > 0 {
      var k :| 0 <= k < |lines| && lines[k] == Candidate(n - 1);
      var rest := lines[..k] + lines[k + 1..];
      forall i | 0 <= i < n - 1 ensures Candidate(i) in rest {
        if Candidate(i) == Candidate(n - 1) {
          CandidatesDistinct(i, n - 1);
        }
        var j :| 0 <= j < |lines| && lines[j] == Candidate(i);
        assert j < k ==> rest[j] == lines[j];
        assert j > k ==> rest[j - 1] == lines[j];
      }
      LinesHoldCandidates(rest, n - 1);
      assert lines == lines[..k] + ([lines[k]] + lines[k + 1..]);
      TotalSum(lines[..k], [lines[k]] + lines[k + 1..]);
      TotalSum(lines[..k], lines[k + 1..]);
    }
  }

  /** A message that defeats the search has at least 1001 lines and 15901 bytes; any shorter one gets a terminator. */
  lemma {:induction false} SearchFailsOnlyOnLargeMessages(message: string)
    requires forall i | 0 <= i <= TRIES :: Candidate(i) in Split(message)
    ensures |Split(message)| >= 1001 && |message| >= 15901
  {
    hide CandidateBytes, Split, Candidate;
    LinesHoldCandidates(Split(message), 1001);
    CandidateBytesAre(1001);
    SplitLength(message);
  }

  /** The first n candidates, one per line. */
  function Joined(n: nat): string
    requires n >= 1
  {
    if n == 1 then Candidate(0) else Joined(n - 1) + "\n" + Candidate(n - 1)
  }

  lemma {:induction false} JoinedLines(n: nat)
    requires n >= 1
    ensures forall i | 0 <= i < n :: Candidate(i) in Split(Joined(n))
    ensures |Joined(n)| == CandidateBytes(n) + n - 1
    decreases n
  {
    hide Candidate;
    CandidateIsLine(n - 1);
    assert Split(Candidate(n - 1)) == [Candidate(n - 1)];
    if n > 1 {
      JoinedLines(n - 1);
      SplitJoin(Joined(n - 1), Candidate(n - 1));
    } else {
      assert CandidateBytes(0) == 0;
    }
  }

  /** The bound is exact: a message of 15901 bytes defeats the search. */
  lemma {:induction false} BoundIsTight() returns (message: string)
    ensures |message| == 15901 && forall i | 0 <= i <= TRIES :: Candidate(i) in Split(message)
  {
    hide Joined, CandidateBytes, Split, Candidate;
    var n: nat :| n == TRIES + 1;
    message := Joined(n);
    JoinedLines(n);
    CandidateBytesAre(n);
  }

  /**
   printSquashBody end to end: either the shell reads the message back from the
   printed document and continues after it, or no terminator was found and the
   message is at least 15901 bytes long.
   */
  method PrintSquashBody(message: string) returns (r: Option<(string, string)>)
    ensures r.Some? ==> forall after: string ::
              ReadDocument(r.value.1 + after, r.value.0) == Some((Delivered(message), after))
    ensures r.None? ==> |message| >= 15901
  {
    hide Split, ReadDocument, Candidate;
    var terminator := PickHeredocTerminator(message);
    if terminator.None? {
      SearchFailsOnlyOnLargeMessages(message);
      return None;
    }
    var text := message;
    if !EndsLine(message) {
      text := text + "\n";
    }
    text := text + terminator.value + "\n";
    ghost var i :| 0 <= i <= TRIES && terminator.value == Candidate(i) && Candidate(i) !in Split(message);
    CandidateIsLine(i);
    assert text == Document(message, terminator.value);
    forall after: string ensures ReadDocument(text + after, terminator.value) == Some((Delivered(message), after)) {
      RoundTrip(message, terminator.value, after);
    }
    r := Some((terminator.value, text));
  }
}

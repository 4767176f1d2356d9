/**
 From a finished `git push` to an error class: cmd/jamsesh/pusherr/classify.go and
 the parsing in cmd/jamsesh/hooks/userpromptsubmit.go. Text is ASCII here.
 */
module PushErrors {
  import opened Wrappers

  datatype Class = OK | Transient | Permanent

  /** Classify; the body only fills in the message. */
  function Classify(httpStatus: int): Class {
    if httpStatus == 0 then Transient
    else if 200 <= httpStatus < 300 then OK
    else if httpStatus >= 500 then Transient
    else Permanent
  }

  function LowerChar(c: char): char {
    if 'A' <= c <= 'Z' then (c as int + 32) as char else c
  }

  function Lower(s: string): (r: string)
    ensures |r| == |s| && forall i | 0 <= i < |s| :: r[i] == LowerChar(s[i])
  {
    seq(|s|, i requires 0 <= i < |s| => LowerChar(s[i]))
  }

  predicate MatchesAt(s: string, pat: string, i: nat) {
    i + |pat| <= |s| && s[i..i + |pat|] == pat
  }

  /** strings.Index: the first match. */
  function IndexFrom(s: string, pat: string, from: nat): (r: Option<nat>)
    ensures r.Some? ==> from <= r.value && MatchesAt(s, pat, r.value)
    ensures forall i: nat | from <= i && MatchesAt(s, pat, i) :: r.Some? && r.value <= i
    decreases |s| - from
  {
    if from > |s| then None
    else if MatchesAt(s, pat, from) then Some(from)
    else IndexFrom(s, pat, from + 1)
  }

  predicate IsDigit(c: char) {
    '0' <= c <= '9'
  }

  function SkipSpaces(s: string): string {
    if s != [] && IsSpace(s[0]) then SkipSpaces(s[1..]) else s
  }

  function TakeWord(s: string): string {
    if s == [] || IsSpace(s[0]) then [] else [s[0]] + TakeWord(s[1..])
  }

  /** strings.Fields(s)[0], or "" when there is no field. */
  function FirstField(s: string): string {
    TakeWord(SkipSpaces(s))
  }

  function Digits(s: string): (n: nat)
    requires forall i | 0 <= i < |s| :: IsDigit(s[i])
  {
    if s == [] then 0 else
      assert IsDigit(s[|s| - 1]);
      Digits(s[..|s| - 1]) * 10 + (s[|s| - 1] as int - '0' as int)
  }

  predicate AllDigits(s: string) {
    s != [] && forall i | 0 <= i < |s| :: IsDigit(s[i])
  }

  /** strconv.Atoi: an optional sign and at least one digit. */
  function Atoi(s: string): Option<int> {
    if AllDigits(s) then Some(Digits(s) as int)
    else if s != [] && s[0] == '+' && AllDigits(s[1..]) then Some(Digits(s[1..]) as int)
    else if s != [] && s[0] == '-' && AllDigits(s[1..]) then Some(-(Digits(s[1..]) as int))
    else None
  }

  const MARK := "error: "

  function ExtractHTTPStatus(stderr: string): (n: int)
    ensures n == 0 || 100 <= n < 600
  {
    var idx := IndexFrom(Lower(stderr), MARK, 0);
    if idx.None? then 0 else
      var n := Atoi(FirstField(stderr[idx.value + |MARK|..]));
      if n.Some? && 100 <= n.value < 600 then n.value else 0
  }

  function PushClass(exitCode: int, stderr: string): Class {
    Classify(if exitCode == 0 then 200 else ExtractHTTPStatus(stderr))
  }

  // ---------------------------------------------------------------------------
  // What the class means
  // ---------------------------------------------------------------------------

  function Decimal(n: nat): (s: string)
    ensures AllDigits(s)
  {
    var d := [(n % 10 + '0' as int) as char];
    if n < 10 then d else Decimal(n / 10) + d
  }

  lemma {:induction false} DigitsDecimal(n: nat)
    ensures Digits(Decimal(n)) == n
    decreases n
  {
    var s := Decimal(n);
    if n >= 10 {
      DigitsDecimal(n / 10);
      assert s[..|s| - 1] == Decimal(n / 10);
    } else {
      assert s[..|s| - 1] == [];
    }
  }

  lemma {:induction false} TakeWordStops(w: string, tail: string)
    requires forall i | 0 <= i < |w| :: !IsSpace(w[i])
    requires tail == [] || IsSpace(tail[0])
    ensures TakeWord(w + tail) == w
    decreases |w|
  {
    if w == [] {
      assert w + tail == tail;
    } else {
      assert (w + tail)[1..] == w[1..] + tail;
      TakeWordStops(w[1..], tail);
    }
  }

  /**
   Reading back what the smart-http server prints: the status in the first
   "error: <N> <phrase>" of the text, in whatever case the word is written.
   */
  lemma {:induction false} StatusRoundTrip(prefix: string, mark: string, n: nat, tail: string)
    requires 100 <= n < 600 && (tail == [] || IsSpace(tail[0])) && Lower(mark) == MARK
    requires forall i: nat | i < |prefix| :: !MatchesAt(Lower(prefix + mark + Decimal(n) + tail), MARK, i)
    ensures ExtractHTTPStatus(prefix + mark + Decimal(n) + tail) == n
  {
    hide Lower, MatchesAt, IndexFrom, FirstField, Atoi, Decimal;
    var s := prefix + mark + Decimal(n) + tail;
    assert s == prefix + mark + (Decimal(n) + tail);
    MarkFound(prefix, mark, Decimal(n) + tail);
    LowerLength(mark);
    assert s[|prefix| + |MARK|..] == Decimal(n) + tail;
    NumberRead(n, tail);
  }

  /** A status read from any output is the number after its first mark, and it is in range. */
  lemma {:induction false} StatusComesFromMark(stderr: string) returns (prefix: string, mark: string, rest: string)
    requires ExtractHTTPStatus(stderr) != 0
    ensures stderr == prefix + mark + rest && Lower(mark) == MARK
    ensures forall i: nat | i < |prefix| :: !MatchesAt(Lower(stderr), MARK, i)
    ensures Atoi(FirstField(rest)) == Some(ExtractHTTPStatus(stderr)) && 100 <= ExtractHTTPStatus(stderr) < 600
  {
    hide FirstField, Atoi;
    var idx := IndexFrom(Lower(stderr), MARK, 0).value;
    prefix, mark, rest := stderr[..idx], stderr[idx..idx + |MARK|], stderr[idx + |MARK|..];
    assert stderr == prefix + mark + rest;
    assert Lower(mark) == Lower(stderr)[idx..idx + |MARK|];
  }

  lemma {:induction false} LowerLength(s: string)
    ensures |Lower(s)| == |s|
  {
  }

  lemma {:induction false} MarkFound(prefix: string, mark: string, rest: string)
    requires Lower(mark) == MARK
    requires forall i: nat | i < |prefix| :: !MatchesAt(Lower(prefix + mark + rest), MARK, i)
    ensures IndexFrom(Lower(prefix + mark + rest), MARK, 0) == Some(|prefix|)
  {
    var s := prefix + mark + rest;
    LowerLength(mark);
    assert Lower(s)[|prefix|..|prefix| + |MARK|] == Lower(mark);
    assert MatchesAt(Lower(s), MARK, |prefix|);
  }

  lemma {:induction false} NumberRead(n: nat, tail: string)
    requires tail == [] || IsSpace(tail[0])
    ensures Atoi(FirstField(Decimal(n) + tail)) == Some(n)
  {
    assert SkipSpaces(Decimal(n) + tail) == Decimal(n) + tail by { assert (Decimal(n) + tail)[0] == Decimal(n)[0]; }
    TakeWordStops(Decimal(n), tail);
    DigitsDecimal(n);
  }

  /** A push is OK exactly when git exits 0 or its output itself carries a 2xx status. */
  lemma {:induction false} ClassMeans(exitCode: int, stderr: string)
    ensures var status := ExtractHTTPStatus(stderr);
            && (PushClass(exitCode, stderr) == OK <==> exitCode == 0 || 200 <= status < 300)
            && (PushClass(exitCode, stderr) == Transient <==> exitCode != 0 && (status == 0 || status >= 500))
            && (PushClass(exitCode, stderr) == Permanent <==>
                  exitCode != 0 && (100 <= status < 200 || 300 <= status < 500))
  {
  }
}

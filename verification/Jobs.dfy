/** Delegation jobs and batch ids (src/graphclaw/agent/dispatch_planner.py, sub_agent_pool.py). */
module Jobs {
  type TaskId = string

  /** A batch id is built from the first eight characters of the session id and the tier index. */
  datatype BatchId = Unassigned | Tier(prefix: string, index: nat)

  /** An `AgentJobEvent`; `payload` stands for the fields the planner and the pool only pass along. */
  datatype Job = Job(taskId: TaskId, payload: string, batch: BatchId)

  function Prefix(sessionId: string): (r: string)
    ensures r <= sessionId && |r| == if |sessionId| < 8 then |sessionId| else 8
  {
    if |sessionId| <= 8 then sessionId else sessionId[..8]
  }

  /** `_assign_batch_id` */
  function Assign(jobs: seq<Job>, batch: BatchId): (r: seq<Job>)
    ensures |r| == |jobs| && forall i :: 0 <= i < |r| ==> r[i] == jobs[i].(batch := batch)
  {
    seq(|jobs|, i requires 0 <= i < |jobs| => jobs[i].(batch := batch))
  }

  // ---------------------------------------------------------------- the text of a batch id

  function Digit(d: nat): char
    requires d < 10
  {
    ('0' as int + d) as char
  }

  function Decimal(n: nat): string {
    if n < 10 then [Digit(n)] else Decimal(n / 10) + [Digit(n % 10)]
  }

  const MARKER := "-t"

  function Text(b: BatchId): string {
    match b
    case Unassigned => ""
    case Tier(prefix, index) => "batch-" + prefix + MARKER + Decimal(index)
  }

  /** Where the last marker starts, or -1. */
  function LastMarker(s: string): int {
    if |s| < 2 then -1 else if s[|s| - 2..] == MARKER then |s| - 2 else LastMarker(s[..|s| - 1])
  }

  predicate IsDigit(c: char) { '0' <= c <= '9' }

  function ParseDecimal(s: string): (n: nat)
    requires forall c :: c in s ==> IsDigit(c)
  {
    if s == "" then 0
    else
      assert IsDigit(s[|s| - 1]) by { assert s[|s| - 1] in s; }
      ParseDecimal(s[..|s| - 1]) * 10 + (s[|s| - 1] as int - '0' as int)
  }

  /** `_tier_index`: the number after the last marker, or 0 where there is none. */
  function TierIndex(text: string): nat
  {
    var at := LastMarker(text);
    if at < 0 || at + 2 > |text| then 0
    else
      var tail := text[at + 2..];
      if tail != "" && forall c :: c in tail ==> IsDigit(c) then ParseDecimal(tail) else 0
  }

  lemma {:induction false} DecimalParses(n: nat)
    ensures Decimal(n) != "" && (forall c :: c in Decimal(n) ==> IsDigit(c)) && ParseDecimal(Decimal(n)) == n
  {
    if n >= 10 {
      DecimalParses(n / 10);
      assert Decimal(n)[..|Decimal(n)| - 1] == Decimal(n / 10);
    }
  }

  lemma {:induction false} MarkerBeforeDigits(head: string, digits: string)
    requires forall c :: c in digits ==> IsDigit(c)
    ensures LastMarker(head + MARKER + digits) == |head|
    decreases |digits|
  {
    var s := head + MARKER + digits;
    if digits == "" {
      assert s[|s| - 2..] == MARKER;
    } else {
      assert digits[|digits| - 1] in digits;
      assert s[|s| - 2..][1] == digits[|digits| - 1] != MARKER[1];
      assert s[..|s| - 1] == head + MARKER + digits[..|digits| - 1];
      MarkerBeforeDigits(head, digits[..|digits| - 1]);
    }
  }

  /** `_tier_index` reads back the tier of every planned batch id, whatever the session id contains. */
  lemma TierIndexRoundTrip(prefix: string, index: nat)
    ensures TierIndex(Text(Tier(prefix, index))) == index
  {
    DecimalParses(index);
    var head := "batch-" + prefix;
    MarkerBeforeDigits(head, Decimal(index));
    var text := Text(Tier(prefix, index));
    assert text == head + MARKER + Decimal(index);
    assert text[|head| + 2..] == Decimal(index);
  }

  /** The text is the prefix between fixed words, then the tier's digits: no leading zero, read as a decimal number. */
  lemma TextReads(prefix: string, index: nat) returns (digits: string)
    ensures Text(Tier(prefix, index)) == "batch-" + prefix + "-t" + digits
    ensures digits != "" && (forall c :: c in digits ==> '0' <= c <= '9') && (digits[0] == '0' ==> |digits| == 1)
    ensures ParseDecimal(digits) == index
    ensures Text(Tier("abcdefgh", 12)) == "batch-abcdefgh-t12"
  {
    digits := Decimal(index);
    DecimalParses(index);
    NoLeadingZero(index);
    assert Decimal(12) == Decimal(1) + "2";
  }

  lemma {:induction false} NoLeadingZero(n: nat)
    ensures Decimal(n) != "" && (n > 0 ==> Decimal(n)[0] != '0') && (n < 10 ==> |Decimal(n)| == 1)
  {
    if n >= 10 {
      NoLeadingZero(n / 10);
    }
  }

  /** Where no marker occurs, the tier reads as 0. */
  lemma {:induction false} NoMarkerReadsZero(text: string)
    requires forall i :: 0 <= i < |text| - 1 ==> !(text[i] == '-' && text[i + 1] == 't')
    ensures LastMarker(text) == -1 && TierIndex(text) == 0
  {
    if |text| >= 2 {
      NoMarkerReadsZero(text[..|text| - 1]);
      assert text[|text| - 2..][0] == text[|text| - 2] && text[|text| - 2..][1] == text[|text| - 1];
    }
  }

  lemma SameTail(p: string, q: string, head: string, tail: string)
    requires head + p + tail == head + q + tail
    ensures p == q
  {
    var s := head + p + tail;
    assert |p| == |q|;
    assert s[|head|..|head| + |p|] == p;
    assert (head + q + tail)[|head|..|head| + |q|] == q;
  }

  /** Different batches have different texts: the dictionary of batches can be keyed by either. */
  lemma TextIsInjective(a: BatchId, b: BatchId)
    requires Text(a) == Text(b)
    ensures a == b
  {
    if a.Tier? && b.Tier? {
      TierIndexRoundTrip(a.prefix, a.index);
      TierIndexRoundTrip(b.prefix, b.index);
      var head, tail := "batch-", MARKER + Decimal(a.index);
      assert Text(a) == head + a.prefix + tail && Text(b) == head + b.prefix + tail;
      SameTail(a.prefix, b.prefix, head, tail);
    }
  }
}

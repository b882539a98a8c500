/** What the streaming loop yields, sends and counts, read off the model's turns and the tools' outcomes alone
    (src/graphclaw/agent/main_orchestrator.py, lines 1187-1490). */
module StreamMeaning {
  import opened Options
  import opened Sequences
  import opened AgentLoop
  import opened AgentStream

  // ---------------------------------------------------------------- one turn

  predicate IsLastFinal(chunks: seq<Chunk>, i: nat) {
    i < |chunks| && chunks[i].Final? && forall j :: i < j < |chunks| ==> !chunks[j].Final?
  }

  /** The response of a turn is what its last final chunk has accumulated. */
  ghost function ResponseOf(chunks: seq<Chunk>): Option<Response> {
    if i: nat :| IsLastFinal(chunks, i) then chunks[i].accumulated else None
  }

  ghost function CallsOf(t: Turn): seq<ToolCall> {
    if ResponseOf(t.chunks).Some? then ResponseOf(t.chunks).value.calls else []
  }

  ghost function PromptTokens(t: Turn): nat {
    if ResponseOf(t.chunks).Some? then ResponseOf(t.chunks).value.promptTokens else 0
  }

  ghost function CompletionTokens(t: Turn): nat {
    if ResponseOf(t.chunks).Some? then ResponseOf(t.chunks).value.completionTokens else 0
  }

  function TextOf(c: Chunk): string {
    if c.Delta? then c.text else ""
  }

  function DeltasOf(c: Chunk): seq<Kind> {
    if TextOf(c) == "" then [] else [AssistantDelta(TextOf(c))]
  }

  /** What the model says in a turn: the texts of its delta chunks, one behind the other. */
  function Said(t: Turn): string { Mapped(t.chunks, TextOf) }

  lemma {:induction false} ResponseIsLastFinal(chunks: seq<Chunk>)
    ensures FinalResponse(chunks) == ResponseOf(chunks)
    ensures (exists i: nat :: IsLastFinal(chunks, i)) <==> exists i :: 0 <= i < |chunks| && chunks[i].Final?
    decreases |chunks|
  {
    if chunks != [] {
      var n := |chunks| - 1;
      ResponseIsLastFinal(chunks[..n]);
      if chunks[n].Final? {
        assert IsLastFinal(chunks, n);
      } else {
        forall i: nat
          ensures IsLastFinal(chunks, i) <==> IsLastFinal(chunks[..n], i)
        {
        }
        if i: nat :| IsLastFinal(chunks[..n], i) {
          assert IsLastFinal(chunks, i);
        }
      }
    }
  }

  lemma {:induction false} TextIsSaid(chunks: seq<Chunk>)
    ensures Text(chunks) == Mapped(chunks, TextOf) && Deltas(chunks) == Mapped(chunks, DeltasOf)
    decreases |chunks|
  {
    if chunks != [] {
      TextIsSaid(chunks[..|chunks| - 1]);
      LastOfMapped(chunks, TextOf);
      LastOfMapped(chunks, DeltasOf);
    }
  }

  // ---------------------------------------------------------------- the tool calls of a turn

  /** Started, and then completed, failed or, for a result that is not JSON, both. */
  function CallTrace(name: string, o: Outcome): seq<Kind> {
    match o
    case Json(_) => [ToolStarted(name), ToolCompleted(name)]
    case NotSerialisable(_) => [ToolStarted(name), ToolCompleted(name), ToolFailed(name)]
    case Raised(_) => [ToolStarted(name), ToolFailed(name)]
  }

  /** The result of the tool, or an error object with the reason. */
  function CallContent(o: Outcome): Content {
    match o
    case Json(text) => Result(text)
    case NotSerialisable(why) => Error(why)
    case Raised(why) => Error(why)
  }

  /** Each call is answered by its own outcome, under its own id. */
  function Results(b: Behaviour, n: nat, calls: seq<ToolCall>): seq<Message> {
    seq(|calls|, j requires 0 <= j < |calls| => ToolResult(CallContent(b.tool(n, j)), calls[j].id))
  }

  /** The calls of a turn are announced one behind the other, each with the outcome of that very call. */
  function TracesOf(b: Behaviour, n: nat, calls: seq<ToolCall>): (traces: seq<seq<Kind>>)
    ensures |traces| == |calls|
    ensures forall j :: 0 <= j < |calls| ==> traces[j] == CallTrace(calls[j].name, b.tool(n, j))
  {
    seq(|calls|, j requires 0 <= j < |calls| => CallTrace(calls[j].name, b.tool(n, j)))
  }

  lemma TracesGrow(b: Behaviour, n: nat, calls: seq<ToolCall>, call: ToolCall)
    ensures TracesOf(b, n, calls + [call]) == TracesOf(b, n, calls) + [CallTrace(call.name, b.tool(n, |calls|))]
  {
  }

  lemma {:induction false} ToolsAreTraced(b: Behaviour, n: nat, calls: seq<ToolCall>, k: nat)
    requires k <= |calls|
    ensures ToolsEvents(b, n, calls, k) == Concat(TracesOf(b, n, calls[..k]))
    decreases k
  {
    if k > 0 {
      ToolsAreTraced(b, n, calls, k - 1);
      assert calls[..k] == calls[..k - 1] + [calls[k - 1]];
      TracesGrow(b, n, calls[..k - 1], calls[k - 1]);
      ConcatAppend(TracesOf(b, n, calls[..k - 1]), CallTrace(calls[k - 1].name, b.tool(n, k - 1)));
    }
  }

  lemma {:induction false} ToolsAreAnswered(b: Behaviour, n: nat, calls: seq<ToolCall>, k: nat)
    requires k <= |calls|
    ensures |ToolsMessages(b, n, calls, k)| == k
    ensures forall j :: 0 <= j < k ==>
              ToolsMessages(b, n, calls, k)[j] == ToolResult(CallContent(b.tool(n, j)), calls[j].id)
    decreases k
  {
    if k > 0 {
      ToolsAreAnswered(b, n, calls, k - 1);
    }
  }

  // ---------------------------------------------------------------- rounds that go on

  /** Round `n` calls tools, and nothing raises before it does. */
  ghost predicate GoesOn(b: Behaviour, n: nat) {
    !b.turn(n).raises && CallsOf(b.turn(n)) != [] && !b.prePlanRaises(n)
  }

  /** Round `n` answers without calling a tool. */
  ghost predicate Concludes(b: Behaviour, n: nat) {
    !b.turn(n).raises && CallsOf(b.turn(n)) == []
  }

  ghost predicate AllGoOn(b: Behaviour, n: nat) {
    forall m: nat :: m < n ==> GoesOn(b, m)
  }

  /** What is yielded in the first `n` rounds. */
  ghost function Trace(b: Behaviour, n: nat): seq<Kind> {
    if n == 0 then [RunStarted]
    else
      var t := b.turn(n - 1);
      Trace(b, n - 1) + Mapped(t.chunks, DeltasOf) + Concat(TracesOf(b, n - 1, CallsOf(t)))
  }

  /** The transcript behind the first `n` rounds. */
  ghost function Transcript(b: Behaviour, n: nat): seq<Message>
    requires b.opening.Some?
  {
    if n == 0 then b.opening.value
    else
      var t := b.turn(n - 1);
      Transcript(b, n - 1) + [Assistant(Said(t), CallsOf(t))] + Results(b, n - 1, CallsOf(t))
  }

  ghost function ToolsCalled(b: Behaviour, n: nat): nat {
    if n == 0 then 0 else ToolsCalled(b, n - 1) + |CallsOf(b.turn(n - 1))|
  }

  ghost function PromptsHeard(b: Behaviour, n: nat): nat {
    if n == 0 then 0 else PromptsHeard(b, n - 1) + PromptTokens(b.turn(n - 1))
  }

  ghost function CompletionsHeard(b: Behaviour, n: nat): nat {
    if n == 0 then 0 else CompletionsHeard(b, n - 1) + CompletionTokens(b.turn(n - 1))
  }

  /** The first `n` transcripts passed to the model. */
  ghost predicate SentAre(sent: seq<seq<Message>>, b: Behaviour, n: nat)
    requires b.opening.Some?
  {
    |sent| == n && forall i :: 0 <= i < n ==> sent[i] == Transcript(b, i)
  }

  /** The loop behind `n` rounds that all went on. */
  ghost predicate Behind(s: State, b: Behaviour, n: nat)
    requires b.opening.Some?
  {
    && s.kinds == Trace(b, n) && s.messages == Transcript(b, n) && SentAre(s.sent, b, n)
    && s.toolCalls == ToolsCalled(b, n) && s.tokensIn == PromptsHeard(b, n) && s.tokensOut == CompletionsHeard(b, n)
    && !s.over
  }

  lemma TurnIsHeard(s: State, t: Turn)
    ensures Calls(t) == CallsOf(t) && Text(t.chunks) == Said(t)
    ensures Listened(s, t).kinds == s.kinds + Mapped(t.chunks, DeltasOf)
    ensures !t.raises ==> Listened(s, t).tokensIn == s.tokensIn + PromptTokens(t)
    ensures !t.raises ==> Listened(s, t).tokensOut == s.tokensOut + CompletionTokens(t)
  {
    ResponseIsLastFinal(t.chunks);
    TextIsSaid(t.chunks);
  }

  /** What a round that goes on changes. */
  ghost predicate Called(s: State, d: State, b: Behaviour, n: nat) {
    var t := b.turn(n);
    && d.kinds == s.kinds + Mapped(t.chunks, DeltasOf) + Concat(TracesOf(b, n, CallsOf(t)))
    && d.messages == s.messages + [Assistant(Said(t), CallsOf(t))] + Results(b, n, CallsOf(t))
    && d.sent == s.sent + [s.messages] && d.toolCalls == s.toolCalls + |CallsOf(t)|
    && d.tokensIn == s.tokensIn + PromptTokens(t) && d.tokensOut == s.tokensOut + CompletionTokens(t)
    && !d.over
  }

  lemma RoundCalls(s: State, b: Behaviour, n: nat)
    requires !s.over && GoesOn(b, n)
    ensures Called(s, Round(s, b, n), b, n)
  {
    var t := b.turn(n);
    TurnIsHeard(s, t);
    ToolsAreTraced(b, n, Calls(t), |Calls(t)|);
    ToolsAreAnswered(b, n, Calls(t), |Calls(t)|);
    assert Calls(t)[..|Calls(t)|] == Calls(t);
    assert ToolsMessages(b, n, Calls(t), |Calls(t)|) == Results(b, n, Calls(t));
  }

  lemma SentOneMore(s: State, sent: seq<seq<Message>>, b: Behaviour, n: nat)
    requires b.opening.Some? && SentAre(s.sent, b, n) && s.messages == Transcript(b, n)
    requires sent == s.sent + [s.messages]
    ensures SentAre(sent, b, n + 1)
  {
  }

  lemma HeardOneMore(b: Behaviour, n: nat)
    ensures PromptsHeard(b, n + 1) == PromptsHeard(b, n) + PromptTokens(b.turn(n))
    ensures CompletionsHeard(b, n + 1) == CompletionsHeard(b, n) + CompletionTokens(b.turn(n))
  {
  }

  lemma BehindOneMore(s: State, d: State, b: Behaviour, n: nat)
    requires b.opening.Some? && Behind(s, b, n) && Called(s, d, b, n)
    ensures Behind(d, b, n + 1)
  {
    SentOneMore(s, d.sent, b, n);
    HeardOneMore(b, n);
  }

  lemma RoundGoesOn(s: State, b: Behaviour, n: nat)
    requires b.opening.Some? && Behind(s, b, n) && GoesOn(b, n)
    ensures Behind(Round(s, b, n), b, n + 1)
  {
    RoundCalls(s, b, n);
    BehindOneMore(s, Round(s, b, n), b, n);
  }

  lemma NothingBehind(b: Behaviour)
    requires b.opening.Some?
    ensures Behind(Rounds(b, 0), b, 0)
  {
  }

  lemma NextGoesOn(b: Behaviour, n: nat)
    requires b.opening.Some? && Behind(Rounds(b, n), b, n) && GoesOn(b, n)
    ensures Behind(Rounds(b, n + 1), b, n + 1)
  {
    RoundGoesOn(Rounds(b, n), b, n);
  }

  lemma RoundsGoOn(b: Behaviour, n: nat)
    requires b.opening.Some? && AllGoOn(b, n)
    ensures Behind(Rounds(b, n), b, n)
  {
    NothingBehind(b);
    for m := 0 to n
      invariant Behind(Rounds(b, m), b, m)
    {
      NextGoesOn(b, m);
    }
  }

  // ---------------------------------------------------------------- whole runs

  /** Round `n` is the last one of a run with at most `cap`. */
  ghost predicate IsLastRound(b: Behaviour, cap: nat, n: nat) {
    n < cap && AllGoOn(b, n) && !GoesOn(b, n)
  }

  lemma {:induction false} LastRoundOrCap(b: Behaviour, cap: nat)
    ensures AllGoOn(b, cap) || exists n: nat :: IsLastRound(b, cap, n)
  {
    if cap > 0 {
      LastRoundOrCap(b, cap - 1);
      if AllGoOn(b, cap - 1) {
        if !GoesOn(b, cap - 1) {
          assert IsLastRound(b, cap, cap - 1);
        }
      } else {
        var n: nat :| IsLastRound(b, cap - 1, n);
        assert IsLastRound(b, cap, n);
      }
    }
  }

  /** What a run yields behind its last round: its text, and how it ends. */
  ghost predicate EndsInRound(s: State, b: Behaviour, n: nat)
    requires b.opening.Some?
  {
    var t := b.turn(n);
    var tokensIn, tokensOut := PromptsHeard(b, n + 1), CompletionsHeard(b, n + 1);
    && SentAre(s.sent, b, n + 1) && s.toolCalls == ToolsCalled(b, n)
    && s.kinds == Trace(b, n) + Mapped(t.chunks, DeltasOf)
                  + if Concludes(b, n) then
                      [AssistantFinal(|Said(t)|, tokensIn, tokensOut), RunCompleted(tokensIn, tokensOut, ToolsCalled(b, n))]
                    else [RunFailed("Exception")]
  }

  /** What a round that does not go on changes. */
  ghost predicate Stopped(s: State, d: State, b: Behaviour, n: nat) {
    var t := b.turn(n);
    var tokensIn, tokensOut := s.tokensIn + PromptTokens(t), s.tokensOut + CompletionTokens(t);
    && d.over && d.sent == s.sent + [s.messages] && d.toolCalls == s.toolCalls
    && d.kinds == s.kinds + Mapped(t.chunks, DeltasOf)
                  + if Concludes(b, n) then
                      [AssistantFinal(|Said(t)|, tokensIn, tokensOut), RunCompleted(tokensIn, tokensOut, s.toolCalls)]
                    else [RunFailed("Exception")]
  }

  lemma RoundStops(s: State, b: Behaviour, n: nat)
    requires !s.over && !GoesOn(b, n)
    ensures Stopped(s, Round(s, b, n), b, n)
  {
    TurnIsHeard(s, b.turn(n));
  }

  lemma StoppedEnds(s: State, d: State, b: Behaviour, n: nat)
    requires b.opening.Some? && Behind(s, b, n) && Stopped(s, d, b, n)
    ensures EndsInRound(d, b, n)
  {
    SentOneMore(s, d.sent, b, n);
    HeardOneMore(b, n);
  }

  lemma RoundEnds(s: State, b: Behaviour, n: nat)
    requires b.opening.Some? && Behind(s, b, n) && !GoesOn(b, n)
    ensures Round(s, b, n).over && EndsInRound(Round(s, b, n), b, n)
  {
    RoundStops(s, b, n);
    StoppedEnds(s, Round(s, b, n), b, n);
  }

  /** The whole trace, the transcripts and the counts of every run, by where it ends. */
  lemma RunEndsWhere(b: Behaviour, cap: nat)
    ensures !b.connected ==> Run(b, cap).kinds == [RunStarted, RunFailed("NotInitialised")]
    ensures b.connected && b.opening.None? ==> Run(b, cap).kinds == [RunStarted, RunFailed("Exception")]
    ensures !b.connected || b.opening.None? ==> Run(b, cap).sent == [] && Run(b, cap).toolCalls == 0
    ensures b.connected && b.opening.Some? && AllGoOn(b, cap) ==>
              && Run(b, cap).kinds == Trace(b, cap) + [RunFailed("ToolLoopCapReached")]
              && SentAre(Run(b, cap).sent, b, cap) && Run(b, cap).toolCalls == ToolsCalled(b, cap)
    ensures b.connected && b.opening.Some? ==>
              forall n: nat :: IsLastRound(b, cap, n) ==> EndsInRound(Run(b, cap), b, n)
    ensures AllGoOn(b, cap) || exists n: nat :: IsLastRound(b, cap, n)
  {
    LastRoundOrCap(b, cap);
    if b.connected && b.opening.Some? {
      if AllGoOn(b, cap) {
        RoundsGoOn(b, cap);
      }
      forall n: nat | IsLastRound(b, cap, n)
        ensures EndsInRound(Run(b, cap), b, n)
      {
        RoundsGoOn(b, n);
        RoundEnds(Rounds(b, n), b, n);
        assert Rounds(b, n + 1) == Round(Rounds(b, n), b, n);
        OverStays(b, n + 1, cap);
      }
    }
  }

  /** A run ends in run.completed exactly when the agent is connected, the opening could be prepared, and within the
      cap some round calls no tool while all rounds before it went on. Every other run ends in run.failed, with the
      class of the error that ended it. */
  lemma RunCompletesIff(b: Behaviour, cap: nat)
    ensures var ks := Run(b, cap).kinds;
            && ks != []
            && (ks[|ks| - 1].RunCompleted? <==>
                b.connected && b.opening.Some? && exists n: nat :: n < cap && AllGoOn(b, n) && Concludes(b, n))
            && (ks[|ks| - 1] == RunFailed("NotInitialised") <==> !b.connected)
            && (ks[|ks| - 1] == RunFailed("ToolLoopCapReached") <==>
                b.connected && b.opening.Some? && AllGoOn(b, cap))
            && (ks[|ks| - 1] == RunFailed("Exception") <==>
                b.connected && (b.opening.None? || exists n: nat :: IsLastRound(b, cap, n) && !Concludes(b, n)))
  {
    RunEndsWhere(b, cap);
    if b.connected && b.opening.Some? {
      if AllGoOn(b, cap) {
        forall n: nat | n < cap
          ensures !Concludes(b, n) && !IsLastRound(b, cap, n)
        {
          assert GoesOn(b, n);
        }
      } else {
        var n: nat :| IsLastRound(b, cap, n);
        forall m: nat | m < cap && AllGoOn(b, m) && !GoesOn(b, m)
          ensures m == n
        {
          assert m < n ==> GoesOn(b, m);
          assert n < m ==> GoesOn(b, n);
        }
      }
    }
  }
}

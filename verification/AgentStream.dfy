/** The streaming loop and its event trace (src/graphclaw/agent/main_orchestrator.py,
    `_process_chat_message_stream_impl`, lines 1187-1490). */
module AgentStream {
  import opened Options
  import opened AgentLoop

  datatype Kind =
    | RunStarted
    | AssistantDelta(text: string)
    | ToolStarted(name: string)
    | ToolCompleted(name: string)
    | ToolFailed(name: string)
    | AssistantFinal(length: nat, tokensIn: nat, tokensOut: nat)
    | RunCompleted(tokensIn: nat, tokensOut: nat, toolCalls: nat)
    | RunFailed(errorClass: string)

  datatype Event = Event(number: nat, kind: Kind)

  datatype Response = Response(calls: seq<ToolCall>, promptTokens: nat, completionTokens: nat)

  /** A chunk of the model's stream; the text of a final chunk is not used. */
  datatype Chunk = Delta(text: string) | Final(accumulated: Option<Response>)

  /** What the model streams in one round, and whether the stream then raises. */
  datatype Turn = Turn(chunks: seq<Chunk>, raises: bool)

  /** Everything outside the loop: the opening messages (None if preparing them raises), the model and the tools. */
  datatype Behaviour = Behaviour(connected: bool, opening: Option<seq<Message>>, turn: nat -> Turn,
                                 prePlanRaises: nat -> bool, tool: (nat, nat) -> Outcome)

  // ---------------------------------------------------------------- specification

  function Deltas(chunks: seq<Chunk>): seq<Kind> {
    if chunks == [] then []
    else
      var c := chunks[|chunks| - 1];
      Deltas(chunks[..|chunks| - 1]) + (if c.Delta? && c.text != "" then [AssistantDelta(c.text)] else [])
  }

  function Text(chunks: seq<Chunk>): string {
    if chunks == [] then ""
    else
      var c := chunks[|chunks| - 1];
      Text(chunks[..|chunks| - 1]) + (if c.Delta? then c.text else "")
  }

  /** The response of the last final chunk. */
  function FinalResponse(chunks: seq<Chunk>): Option<Response> {
    if chunks == [] then None
    else
      var c := chunks[|chunks| - 1];
      if c.Final? then c.accumulated else FinalResponse(chunks[..|chunks| - 1])
  }

  function Calls(t: Turn): seq<ToolCall> {
    var r := FinalResponse(t.chunks);
    if r.Some? then r.value.calls else []
  }

  /** The events of one tool call. A result that is not JSON is announced twice: completed, then failed. */
  function ToolEvents(name: string, o: Outcome): seq<Kind> {
    [ToolStarted(name)] + match o
                          case Json(_) => [ToolCompleted(name)]
                          case NotSerialisable(_) => [ToolCompleted(name), ToolFailed(name)]
                          case Raised(_) => [ToolFailed(name)]
  }

  function ToolMessage(call: ToolCall, o: Outcome): Message {
    ToolResult(if o.Json? then Result(o.text) else Error(o.why), call.id)
  }

  /** The state of the loop between rounds; `kinds` are the events so far. */
  datatype State = State(kinds: seq<Kind>, messages: seq<Message>, sent: seq<seq<Message>>, toolCalls: nat,
                         tokensIn: nat, tokensOut: nat, over: bool)

  /** The events and the messages of the first `k` calls of round `n`. */
  function ToolsEvents(b: Behaviour, n: nat, calls: seq<ToolCall>, k: nat): seq<Kind>
    requires k <= |calls|
  {
    if k == 0 then [] else ToolsEvents(b, n, calls, k - 1) + ToolEvents(calls[k - 1].name, b.tool(n, k - 1))
  }

  function ToolsMessages(b: Behaviour, n: nat, calls: seq<ToolCall>, k: nat): seq<Message>
    requires k <= |calls|
  {
    if k == 0 then [] else ToolsMessages(b, n, calls, k - 1) + [ToolMessage(calls[k - 1], b.tool(n, k - 1))]
  }

  lemma ToolsStep(b: Behaviour, n: nat, calls: seq<ToolCall>, k: nat)
    requires k < |calls|
    ensures ToolsEvents(b, n, calls, k + 1) == ToolsEvents(b, n, calls, k) + ToolEvents(calls[k].name, b.tool(n, k))
    ensures ToolsMessages(b, n, calls, k + 1) == ToolsMessages(b, n, calls, k) + [ToolMessage(calls[k], b.tool(n, k))]
  {
  }

  function RunTools(s: State, b: Behaviour, n: nat, calls: seq<ToolCall>): State {
    s.(kinds := s.kinds + ToolsEvents(b, n, calls, |calls|),
       messages := s.messages + ToolsMessages(b, n, calls, |calls|),
       toolCalls := s.toolCalls + |calls|)
  }

  /** The model has streamed its turn. */
  function Listened(s: State, t: Turn): State {
    var r := FinalResponse(t.chunks);
    s.(kinds := s.kinds + Deltas(t.chunks), sent := s.sent + [s.messages],
       tokensIn := if t.raises || r.None? then s.tokensIn else s.tokensIn + r.value.promptTokens,
       tokensOut := if t.raises || r.None? then s.tokensOut else s.tokensOut + r.value.completionTokens)
  }

  function Fail(s: State, errorClass: string): State {
    s.(kinds := s.kinds + [RunFailed(errorClass)], over := true)
  }

  function LastWords(s: State, t: Turn): seq<Kind> {
    [AssistantFinal(|Text(t.chunks)|, s.tokensIn, s.tokensOut), RunCompleted(s.tokensIn, s.tokensOut, s.toolCalls)]
  }

  function Finish(s: State, t: Turn): State {
    s.(kinds := s.kinds + LastWords(s, t), over := true)
  }

  function Spoken(s: State, t: Turn): State {
    s.(messages := s.messages + [Assistant(Text(t.chunks), Calls(t))])
  }

  const ESCAPED := "Exception"

  function Round(s: State, b: Behaviour, n: nat): State {
    if s.over then s
    else
      var t := b.turn(n);
      var heard := Listened(s, t);
      if t.raises then Fail(heard, ESCAPED)
      else if Calls(t) == [] then Finish(heard, t)
      else if b.prePlanRaises(n) then Fail(heard, ESCAPED)
      else RunTools(Spoken(heard, t), b, n, Calls(t))
  }

  function Rounds(b: Behaviour, n: nat): State
    requires b.opening.Some?
  {
    if n == 0 then State([RunStarted], b.opening.value, [], 0, 0, 0, false) else Round(Rounds(b, n - 1), b, n - 1)
  }

  /** The whole run, with at most `cap` rounds; the source's cap is 15. */
  function Run(b: Behaviour, cap: nat): State {
    if !b.connected then Fail(State([RunStarted], [], [], 0, 0, 0, false), "NotInitialised")
    else if b.opening.None? then Fail(State([RunStarted], [], [], 0, 0, 0, false), ESCAPED)
    else
      var s := Rounds(b, cap);
      if s.over then s else Fail(s, "ToolLoopCapReached")
  }

  // ---------------------------------------------------------------- what a trace promises

  predicate Terminal(k: Kind) { k.RunCompleted? || k.RunFailed? }

  predicate Ended(k: Kind) { k.ToolCompleted? || k.ToolFailed? }

  /** A start is followed at once by an end of the same tool. */
  predicate StartAnswered(ks: seq<Kind>, i: nat)
    requires i < |ks|
  {
    ks[i].ToolStarted? ==> i + 1 < |ks| && Ended(ks[i + 1]) && ks[i + 1].name == ks[i].name
  }

  /** An end follows its start, or is the failure of a completion that does. */
  predicate EndExplained(ks: seq<Kind>, i: nat)
    requires i < |ks|
  {
    Ended(ks[i]) ==>
      i > 0 && (ks[i - 1] == ToolStarted(ks[i].name)
                || (i > 1 && ks[i].ToolFailed? && ks[i - 1] == ToolCompleted(ks[i].name)
                    && ks[i - 2] == ToolStarted(ks[i].name)))
  }

  /** An end comes right after its start. */
  predicate EndIsSingle(ks: seq<Kind>, i: nat)
    requires i < |ks|
  {
    Ended(ks[i]) ==> i > 0 && ks[i - 1].ToolStarted?
  }

  ghost predicate Paired(ks: seq<Kind>) {
    forall i :: 0 <= i < |ks| ==> StartAnswered(ks, i) && EndExplained(ks, i)
  }

  ghost predicate SingleEnds(ks: seq<Kind>) {
    forall i :: 0 <= i < |ks| ==> EndIsSingle(ks, i)
  }

  function Starts(ks: seq<Kind>): nat {
    if ks == [] then 0 else Starts(ks[..|ks| - 1]) + (if ks[|ks| - 1].ToolStarted? then 1 else 0)
  }

  lemma {:induction false} StartsConcat(a: seq<Kind>, b: seq<Kind>)
    ensures Starts(a + b) == Starts(a) + Starts(b)
    decreases |b|
  {
    if b == [] {
      assert a + b == a;
    } else {
      assert (a + b)[..|a + b| - 1] == a + b[..|b| - 1];
      StartsConcat(a, b[..|b| - 1]);
    }
  }

  /** Neither the start nor the end of a run. */
  predicate IsInner(ks: seq<Kind>, i: nat)
    requires i < |ks|
  {
    !Terminal(ks[i]) && !ks[i].RunStarted?
  }

  /** A stretch of events between the run's start and its end. */
  ghost predicate Body(ks: seq<Kind>) {
    Paired(ks) && forall i :: 0 <= i < |ks| ==> IsInner(ks, i)
  }

  lemma PairedConcat(a: seq<Kind>, b: seq<Kind>)
    requires Paired(a) && Paired(b)
    ensures Paired(a + b)
  {
    forall i | 0 <= i < |a + b|
      ensures StartAnswered(a + b, i) && EndExplained(a + b, i)
    {
      if i < |a| {
        assert StartAnswered(a, i) && EndExplained(a, i);
      } else {
        var k := i - |a|;
        assert StartAnswered(b, k) && EndExplained(b, k);
        assert (a + b)[i] == b[k];
        assert k > 0 ==> (a + b)[i - 1] == b[k - 1];
        assert k > 1 ==> (a + b)[i - 2] == b[k - 2];
        assert k + 1 < |b| ==> (a + b)[i + 1] == b[k + 1];
      }
    }
  }

  lemma SinglesConcat(a: seq<Kind>, b: seq<Kind>)
    requires Paired(b)
    ensures SingleEnds(a + b) <==> SingleEnds(a) && SingleEnds(b)
  {
    forall i | 0 <= i < |a|
      ensures EndIsSingle(a + b, i) == EndIsSingle(a, i)
    {
    }
    forall k | 0 <= k < |b|
      ensures EndIsSingle(a + b, |a| + k) == EndIsSingle(b, k)
    {
      assert EndExplained(b, k);
      assert (a + b)[|a| + k] == b[k];
      assert k > 0 ==> (a + b)[|a| + k - 1] == b[k - 1];
    }
    if SingleEnds(a) && SingleEnds(b) {
      forall i | 0 <= i < |a + b|
        ensures EndIsSingle(a + b, i)
      {
        if i < |a| {
          assert EndIsSingle(a, i);
        } else {
          assert EndIsSingle(b, i - |a|);
        }
      }
    }
  }

  lemma {:induction false} DeltasArePlain(chunks: seq<Chunk>)
    ensures forall k :: k in Deltas(chunks) ==> k.AssistantDelta?
  {
    if chunks != [] {
      DeltasArePlain(chunks[..|chunks| - 1]);
    }
  }

  predicate Plain(k: Kind) { k.AssistantDelta? || k.AssistantFinal? || Terminal(k) }

  lemma PlainSegment(ks: seq<Kind>)
    requires forall k :: k in ks ==> Plain(k)
    ensures Paired(ks) && SingleEnds(ks)
  {
    forall i | 0 <= i < |ks|
      ensures StartAnswered(ks, i) && EndExplained(ks, i) && EndIsSingle(ks, i)
    {
      assert Plain(ks[i]);
    }
  }

  lemma {:induction false} PlainStarts(ks: seq<Kind>)
    requires forall k :: k in ks ==> !k.ToolStarted?
    ensures Starts(ks) == 0
  {
    if ks != [] {
      PlainStarts(ks[..|ks| - 1]);
      assert ks[|ks| - 1] in ks;
    }
  }

  lemma ToolSegment(name: string, o: Outcome)
    ensures Body(ToolEvents(name, o)) && Starts(ToolEvents(name, o)) == 1
    ensures SingleEnds(ToolEvents(name, o)) <==> !o.NotSerialisable?
  {
    var ks := ToolEvents(name, o);
    forall i | 0 <= i < |ks|
      ensures StartAnswered(ks, i) && EndExplained(ks, i) && (EndIsSingle(ks, i) <==> i < 2)
    {
    }
    StartsConcat([ToolStarted(name)], ks[1..]);
    assert ks == [ToolStarted(name)] + ks[1..];
    PlainStarts(ks[1..]);
    PlainStarts([]);
    assert Starts([ToolStarted(name)]) == 1;
    if o.NotSerialisable? {
      assert !EndIsSingle(ks, 2);
    }
  }

  // ---------------------------------------------------------------- well-formed runs

  /** Before the end: started once, nothing terminal, everything paired, all tools counted. */
  ghost predicate Going(s: State) {
    && s.kinds != [] && s.kinds[0] == RunStarted
    && (forall i :: 0 < i < |s.kinds| ==> IsInner(s.kinds, i))
    && Paired(s.kinds)
    && s.toolCalls == Starts(s.kinds)
  }

  lemma GoingOn(s: State, d: State, segment: seq<Kind>)
    requires Going(s) && Body(segment)
    requires d.kinds == s.kinds + segment && d.toolCalls == s.toolCalls + Starts(segment)
    ensures Going(d)
  {
    PairedConcat(s.kinds, segment);
    StartsConcat(s.kinds, segment);
    forall i | 0 < i < |d.kinds|
      ensures IsInner(d.kinds, i)
    {
      if i < |s.kinds| {
        assert IsInner(s.kinds, i);
      } else {
        assert IsInner(segment, i - |s.kinds|);
      }
    }
  }

  lemma JustStarted(s: State)
    requires s.kinds == [RunStarted] && s.toolCalls == 0
    ensures Going(s) && SingleEnds(s.kinds)
  {
  }

  /** In round `n`, call `j`, a tool runs whose result cannot be written as JSON. */
  predicate BadResult(b: Behaviour, n: nat, j: nat) {
    b.tool(n, j).NotSerialisable?
  }

  ghost predicate NoneBad(b: Behaviour, n: nat, k: nat) {
    forall j :: 0 <= j < k ==> !BadResult(b, n, j)
  }

  lemma NoneBadStep(b: Behaviour, n: nat, k: nat)
    requires k > 0
    ensures NoneBad(b, n, k) <==> NoneBad(b, n, k - 1) && !b.tool(n, k - 1).NotSerialisable?
  {
    assert NoneBad(b, n, k) ==> !BadResult(b, n, k - 1);
  }

  lemma BodyConcat(a: seq<Kind>, b: seq<Kind>)
    requires Body(a) && Body(b)
    ensures Body(a + b)
  {
    PairedConcat(a, b);
    forall i | 0 <= i < |a + b|
      ensures IsInner(a + b, i)
    {
      assert if i < |a| then IsInner(a, i) else IsInner(b, i - |a|);
    }
  }

  lemma {:induction false} ToolsSegment(b: Behaviour, n: nat, calls: seq<ToolCall>, k: nat)
    requires k <= |calls|
    ensures Body(ToolsEvents(b, n, calls, k)) && Starts(ToolsEvents(b, n, calls, k)) == k
    ensures SingleEnds(ToolsEvents(b, n, calls, k)) <==> NoneBad(b, n, k)
    decreases k
  {
    if k > 0 {
      ToolsSegment(b, n, calls, k - 1);
      var sofar, last := ToolsEvents(b, n, calls, k - 1), ToolEvents(calls[k - 1].name, b.tool(n, k - 1));
      ToolSegment(calls[k - 1].name, b.tool(n, k - 1));
      BodyConcat(sofar, last);
      StartsConcat(sofar, last);
      SinglesConcat(sofar, last);
      NoneBadStep(b, n, k);
    }
  }

  /** What the specification of a finished run asks of its events. */
  ghost predicate WellFormed(ks: seq<Kind>, toolCalls: nat) {
    && |ks| >= 2 && ks[0] == RunStarted && Terminal(ks[|ks| - 1])
    && (forall i :: 0 < i < |ks| - 1 ==> IsInner(ks, i))
    && Paired(ks)
    && toolCalls == Starts(ks)
    && (ks[|ks| - 1].RunCompleted? ==> ks[|ks| - 1].toolCalls == Starts(ks))
  }

  lemma Ending(s: State, d: State, segment: seq<Kind>)
    requires Going(s) && d.kinds == s.kinds + segment && d.toolCalls == s.toolCalls
    requires segment != [] && Terminal(segment[|segment| - 1])
    requires forall i :: 0 <= i < |segment| - 1 ==> segment[i].AssistantFinal?
    requires segment[|segment| - 1].RunCompleted? ==> segment[|segment| - 1].toolCalls == s.toolCalls
    ensures WellFormed(d.kinds, d.toolCalls)
    ensures SingleEnds(d.kinds) <==> SingleEnds(s.kinds)
  {
    forall k | k in segment
      ensures Plain(k)
    {
      var i :| 0 <= i < |segment| && segment[i] == k;
    }
    PlainSegment(segment);
    PlainStarts(segment);
    StartsConcat(s.kinds, segment);
    PairedConcat(s.kinds, segment);
    SinglesConcat(s.kinds, segment);
    forall i | 0 < i < |d.kinds| - 1
      ensures IsInner(d.kinds, i)
    {
      if i < |s.kinds| {
        assert IsInner(s.kinds, i);
      } else {
        assert segment[i - |s.kinds|].AssistantFinal?;
      }
    }
  }

  lemma ListeningGoesOn(s: State, t: Turn)
    requires Going(s)
    ensures Going(Listened(s, t))
  {
    DeltasArePlain(t.chunks);
    PlainSegment(Deltas(t.chunks));
    PlainStarts(Deltas(t.chunks));
    assert forall i :: 0 <= i < |Deltas(t.chunks)| ==> Deltas(t.chunks)[i] in Deltas(t.chunks);
    GoingOn(s, Listened(s, t), Deltas(t.chunks));
  }

  /** Round `n` gets to run its tools. */
  predicate RunsTools(b: Behaviour, n: nat)
    requires b.opening.Some?
  {
    !Rounds(b, n).over && !b.turn(n).raises && !b.prePlanRaises(n)
  }

  /** In round `n` a tool is run whose result is not JSON. */
  ghost predicate BadRound(b: Behaviour, n: nat)
    requires b.opening.Some?
  {
    RunsTools(b, n) && !NoneBad(b, n, |Calls(b.turn(n))|)
  }

  /** In some round before `n`, a tool was run whose result is not JSON. */
  ghost predicate SawBadResult(b: Behaviour, n: nat)
    requires b.opening.Some?
  {
    n > 0 && (SawBadResult(b, n - 1) || BadRound(b, n - 1))
  }

  ghost predicate StateOk(s: State) {
    if s.over then WellFormed(s.kinds, s.toolCalls) else Going(s)
  }

  lemma RoundIsOk(s: State, b: Behaviour, n: nat, d: State)
    requires StateOk(s) && d == Round(s, b, n)
    ensures StateOk(d)
  {
    if !s.over {
      var t := b.turn(n);
      var heard := Listened(s, t);
      ListeningGoesOn(s, t);
      if t.raises || (Calls(t) != [] && b.prePlanRaises(n)) {
        Ending(heard, d, [RunFailed(ESCAPED)]);
      } else if Calls(t) == [] {
        Ending(heard, d, LastWords(heard, t));
      } else {
        ToolsSegment(b, n, Calls(t), |Calls(t)|);
        GoingOn(Spoken(heard, t), d, ToolsEvents(b, n, Calls(t), |Calls(t)|));
      }
    }
  }

  /** A round keeps ends single unless it runs a tool with a bad result. */
  lemma RoundSingleEnds(s: State, b: Behaviour, n: nat)
    ensures SingleEnds(Round(s, b, n).kinds) <==>
            SingleEnds(s.kinds)
            && (s.over || b.turn(n).raises || b.prePlanRaises(n) || NoneBad(b, n, |Calls(b.turn(n))|))
  {
    if !s.over {
      var t := b.turn(n);
      var heard := Listened(s, t);
      DeltasArePlain(t.chunks);
      PlainSegment(Deltas(t.chunks));
      SinglesConcat(s.kinds, Deltas(t.chunks));
      PlainSegment([RunFailed(ESCAPED)]);
      SinglesConcat(heard.kinds, [RunFailed(ESCAPED)]);
      PlainSegment(LastWords(heard, t));
      SinglesConcat(heard.kinds, LastWords(heard, t));
      ToolsSegment(b, n, Calls(t), |Calls(t)|);
      SinglesConcat(heard.kinds, ToolsEvents(b, n, Calls(t), |Calls(t)|));
    }
  }

  lemma RoundsStart(b: Behaviour)
    requires b.opening.Some?
    ensures StateOk(Rounds(b, 0)) && SingleEnds(Rounds(b, 0).kinds)
  {
    JustStarted(Rounds(b, 0));
  }

  lemma NextRoundIsOk(b: Behaviour, n: nat)
    requires b.opening.Some? && StateOk(Rounds(b, n))
    ensures StateOk(Rounds(b, n + 1))
  {
    RoundIsOk(Rounds(b, n), b, n, Rounds(b, n + 1));
  }

  lemma RoundsAreOk(b: Behaviour, n: nat)
    requires b.opening.Some?
    ensures StateOk(Rounds(b, n))
  {
    RoundsStart(b);
    for m := 0 to n
      invariant StateOk(Rounds(b, m))
    {
      NextRoundIsOk(b, m);
    }
  }

  lemma NextRoundSingleEnds(b: Behaviour, n: nat)
    requires b.opening.Some?
    ensures SingleEnds(Rounds(b, n + 1).kinds) <==> SingleEnds(Rounds(b, n).kinds) && !BadRound(b, n)
  {
    RoundSingleEnds(Rounds(b, n), b, n);
  }

  lemma {:induction false} RoundsHaveSingleEnds(b: Behaviour, n: nat)
    requires b.opening.Some?
    ensures SingleEnds(Rounds(b, n).kinds) <==> !SawBadResult(b, n)
    decreases n
  {
    if n == 0 {
      RoundsStart(b);
    } else {
      RoundsHaveSingleEnds(b, n - 1);
      NextRoundSingleEnds(b, n - 1);
    }
  }

  /** For every behaviour of the model and the tools: the run starts with run.started, ends with its only run.completed
      or run.failed, answers every tool.started at once, and counts the tool calls correctly. */
  lemma EveryRunIsWellFormed(b: Behaviour, cap: nat)
    ensures WellFormed(Run(b, cap).kinds, Run(b, cap).toolCalls)
  {
    var start := State([RunStarted], [], [], 0, 0, 0, false);
    JustStarted(start);
    if !b.connected {
      Ending(start, Run(b, cap), [RunFailed("NotInitialised")]);
    } else if b.opening.None? {
      Ending(start, Run(b, cap), [RunFailed(ESCAPED)]);
    } else {
      RoundsAreOk(b, cap);
      if !Rounds(b, cap).over {
        Ending(Rounds(b, cap), Run(b, cap), [RunFailed("ToolLoopCapReached")]);
      }
    }
  }

  /** Each tool call has a single end exactly when no tool that was run gave a result that is not JSON. */
  lemma SingleEndsUnlessNotSerialisable(b: Behaviour, cap: nat)
    requires b.connected && b.opening.Some?
    ensures SingleEnds(Run(b, cap).kinds) <==> !SawBadResult(b, cap)
  {
    RoundsAreOk(b, cap);
    RoundsHaveSingleEnds(b, cap);
    if !Rounds(b, cap).over {
      Ending(Rounds(b, cap), Run(b, cap), [RunFailed("ToolLoopCapReached")]);
    }
  }

  // ---------------------------------------------------------------- transcripts

  lemma {:induction false} ToolsAnswer(b: Behaviour, n: nat, calls: seq<ToolCall>, k: nat)
    requires k <= |calls|
    ensures Answers(ToolsMessages(b, n, calls, k), calls, k)
    decreases k
  {
    if k > 0 {
      ToolsAnswer(b, n, calls, k - 1);
    }
  }

  lemma RoundAddsOneBlock(s: State, b: Behaviour, n: nat, opening: seq<Message>)
    requires !s.over && IsTranscript(s.messages, opening, n)
    ensures Round(s, b, n).sent == s.sent + [s.messages]
    ensures !Round(s, b, n).over ==> IsTranscript(Round(s, b, n).messages, opening, n + 1)
  {
    var t := b.turn(n);
    if !t.raises && Calls(t) != [] && !b.prePlanRaises(n) {
      ToolsAnswer(b, n, Calls(t), |Calls(t)|);
      AnsweredTranscript(s.messages, opening, n, Text(t.chunks), Calls(t), ToolsMessages(b, n, Calls(t), |Calls(t)|));
    }
  }

  /** After `n` rounds: what the model has been sent, and what it would be sent next. */
  ghost predicate TranscriptsOk(s: State, opening: seq<Message>, n: nat) {
    && |s.sent| <= n
    && (!s.over ==> IsTranscript(s.messages, opening, n) && |s.sent| == n)
    && forall i :: 0 <= i < |s.sent| ==> IsTranscript(s.sent[i], opening, i)
  }

  lemma RoundKeepsTranscripts(s: State, b: Behaviour, n: nat, opening: seq<Message>)
    requires TranscriptsOk(s, opening, n)
    ensures TranscriptsOk(Round(s, b, n), opening, n + 1)
  {
    if !s.over {
      RoundAddsOneBlock(s, b, n, opening);
    }
  }

  lemma {:induction false} StreamTranscriptsUpTo(b: Behaviour, n: nat)
    requires b.opening.Some?
    ensures TranscriptsOk(Rounds(b, n), b.opening.value, n)
    decreases n
  {
    if n == 0 {
      var opening := b.opening.value;
      assert opening[..|opening|] == opening && opening[|opening|..] == [];
    } else {
      StreamTranscriptsUpTo(b, n - 1);
      RoundKeepsTranscripts(Rounds(b, n - 1), b, n - 1, b.opening.value);
    }
  }

  /** Every transcript the streaming loop passes to the model is system, history, user and complete blocks, even when
      tools fail or give results that are not JSON; there are at most `cap`. */
  lemma StreamTranscripts(b: Behaviour, cap: nat, prompt: string, history: seq<Message>, text: string)
    requires b.connected && b.opening == Some(Opening(prompt, history, text))
    ensures |Run(b, cap).sent| <= cap
    ensures forall i :: 0 <= i < |Run(b, cap).sent| ==> IsTranscript(Run(b, cap).sent[i], Opening(prompt, history, text), i)
  {
    StreamTranscriptsUpTo(b, cap);
  }

  // ---------------------------------------------------------------- the loop

  /** The events yielded, numbered by a counter of their own. */
  ghost predicate Numbered(events: seq<Event>, kinds: seq<Kind>) {
    |events| == |kinds| && forall i :: 0 <= i < |events| ==> events[i] == Event(i, kinds[i])
  }

  class StreamRun {
    var events: seq<Event>
    var number: nat
    var messages: seq<Message>
    var sent: seq<seq<Message>>
    var toolCallCount: nat
    var tokensIn: nat
    var tokensOut: nat
    ghost var kinds: seq<Kind>
    const b: Behaviour

    constructor (b: Behaviour)
      ensures this.b == b && Counting() && View(false) == State([], [], [], 0, 0, 0, false)
    {
      this.b := b;
      events, number, messages, sent, toolCallCount, tokensIn, tokensOut, kinds := [], 0, [], [], 0, 0, 0, [];
    }

    ghost predicate Counting()
      reads this
    {
      Numbered(events, kinds) && number == |events|
    }

    ghost function View(over: bool): State
      reads this
    {
      State(kinds, messages, sent, toolCallCount, tokensIn, tokensOut, over)
    }

    method Emit(kind: Kind)
      requires Counting()
      modifies this`events, this`number, this`kinds
      ensures Counting() && kinds == old(kinds) + [kind]
    {
      events, kinds := events + [Event(number, kind)], kinds + [kind];
      number := number + 1;
    }

    /** The last event of a run; the counter is not advanced after it. */
    method EmitLast(kind: Kind)
      requires Counting()
      modifies this`events, this`kinds
      ensures Numbered(events, kinds) && kinds == old(kinds) + [kind]
    {
      events, kinds := events + [Event(number, kind)], kinds + [kind];
    }

    /** The `async for` over the model's stream. */
    method Listen(t: Turn) returns (text: string, response: Option<Response>)
      requires Counting()
      modifies this
      ensures Counting() && View(false) == Listened(old(View(false)), t)
      ensures text == Text(t.chunks) && response == FinalResponse(t.chunks)
    {
      text, response := "", None;
      sent := sent + [messages];
      for i := 0 to |t.chunks|
        invariant Counting() && kinds == old(kinds) + Deltas(t.chunks[..i])
        invariant unchanged(`messages, `toolCallCount, `tokensIn, `tokensOut) && sent == old(sent + [messages])
        invariant text == Text(t.chunks[..i]) && response == FinalResponse(t.chunks[..i])
      {
        var chunk := t.chunks[i];
        assert t.chunks[..i + 1][..i] == t.chunks[..i];
        if chunk.Final? {
          response := chunk.accumulated;
        } else if chunk.text != "" {
          text := text + chunk.text;
          Emit(AssistantDelta(chunk.text));
        }
      }
      assert t.chunks[..|t.chunks|] == t.chunks;
      if !t.raises && response.Some? {
        tokensIn := tokensIn + response.value.promptTokens;
        tokensOut := tokensOut + response.value.completionTokens;
      }
    }

    /** One tool call: its events, and its message. */
    method CallTool(call: ToolCall, o: Outcome)
      requires Counting()
      modifies this`events, this`number, this`kinds, this`messages, this`toolCallCount
      ensures Counting() && kinds == old(kinds) + ToolEvents(call.name, o)
      ensures messages == old(messages) + [ToolMessage(call, o)] && toolCallCount == old(toolCallCount) + 1
    {
      toolCallCount := toolCallCount + 1;
      Emit(ToolStarted(call.name));
      if !o.Raised? {
        Emit(ToolCompleted(call.name));
        if o.Json? {
          messages := messages + [ToolResult(Result(o.text), call.id)];
          return;
        }
      }
      Emit(ToolFailed(call.name));
      messages := messages + [ToolResult(Error(o.why), call.id)];
    }

    /** The same, behind the events and messages of the calls before. */
    method CallNext(call: ToolCall, o: Outcome, ghost kindsBefore: seq<Kind>, ghost newKinds: seq<Kind>,
                    ghost messagesBefore: seq<Message>, ghost newMessages: seq<Message>)
      requires Counting() && kinds == kindsBefore + newKinds && messages == messagesBefore + newMessages
      modifies this`events, this`number, this`kinds, this`messages, this`toolCallCount
      ensures Counting() && kinds == kindsBefore + (newKinds + ToolEvents(call.name, o))
      ensures messages == messagesBefore + (newMessages + [ToolMessage(call, o)])
      ensures toolCallCount == old(toolCallCount) + 1
    {
      CallTool(call, o);
    }

    method CallTools(n: nat, calls: seq<ToolCall>)
      requires Counting()
      modifies this`events, this`number, this`kinds, this`messages, this`toolCallCount
      ensures Counting() && View(false) == RunTools(old(View(false)), b, n, calls)
    {
      for k := 0 to |calls|
        invariant Counting() && toolCallCount == old(toolCallCount) + k
        invariant kinds == old(kinds) + ToolsEvents(b, n, calls, k)
        invariant messages == old(messages) + ToolsMessages(b, n, calls, k)
      {
        ToolsStep(b, n, calls, k);
        CallNext(calls[k], b.tool(n, k), old(kinds), ToolsEvents(b, n, calls, k), old(messages),
                 ToolsMessages(b, n, calls, k));
      }
    }

    /** One pass of the loop. */
    method OneRound(n: nat) returns (over: bool)
      requires Counting()
      modifies this
      ensures View(over) == Round(old(View(false)), b, n)
      ensures Numbered(events, kinds) && (!over ==> Counting())
    {
      var t := b.turn(n);
      var text, response := Listen(t);
      if t.raises {
        EmitLast(RunFailed(ESCAPED));
        return true;
      }
      var calls := if response.Some? then response.value.calls else [];
      if calls == [] {
        Emit(AssistantFinal(|text|, tokensIn, tokensOut));
        EmitLast(RunCompleted(tokensIn, tokensOut, toolCallCount));
        return true;
      }
      if b.prePlanRaises(n) {
        EmitLast(RunFailed(ESCAPED));
        return true;
      }
      messages := messages + [Assistant(text, calls)];
      CallTools(n, calls);
      return false;
    }

    /** `_process_chat_message_stream_impl`, with `cap` 15. */
    method Process(cap: nat)
      requires Counting() && View(false) == State([], [], [], 0, 0, 0, false)
      modifies this
      ensures View(true) == Run(b, cap) && Numbered(events, kinds)
    {
      Emit(RunStarted);
      if !b.connected {
        EmitLast(RunFailed("NotInitialised"));
        return;
      }
      if b.opening.None? {
        EmitLast(RunFailed(ESCAPED));
        return;
      }
      messages := b.opening.value;
      for n := 0 to cap
        invariant Counting() && View(false) == Rounds(b, n)
      {
        var over := OneRound(n);
        if over {
          OverStays(b, n + 1, cap);
          return;
        }
      }
      EmitLast(RunFailed("ToolLoopCapReached"));
    }
  }

  lemma {:induction false} OverStays(b: Behaviour, n: nat, m: nat)
    requires n <= m && b.opening.Some? && Rounds(b, n).over
    ensures Rounds(b, m) == Rounds(b, n)
    decreases m
  {
    if n < m {
      OverStays(b, n, m - 1);
    }
  }
}

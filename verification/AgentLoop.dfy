/** The tool-calling loops of the orchestrator (src/graphclaw/agent/main_orchestrator.py, `process_chat_message`,
    `_process_chat_message_stream_impl`, `process_counterparty_turn`).

    The model and the tools are arbitrary: what they do in round `n`, at call `j`, is read from a behaviour that
    everything here is proved for. Publisher and notifier do not raise. */
module AgentLoop {
  import opened Options

  datatype ToolCall = ToolCall(id: string, name: string)

  /** What running one tool comes to: a result that can be written as JSON, one that cannot, or an exception. */
  datatype Outcome = Json(text: string) | NotSerialisable(why: string) | Raised(why: string)

  /** What a tool message says, before it is written as JSON: the result of the tool, an object with an error, or one
      with an error and a sentence that names the refused tool. */
  datatype Content = Result(text: string) | Error(error: string) | Refusal(error: string, tool: string)

  datatype Message =
    | System(text: string)
    | Past(role: string, text: string)
    | User(text: string)
    | Assistant(text: string, calls: seq<ToolCall>)
    | ToolResult(content: Content, callId: string)

  // ---------------------------------------------------------------- transcripts

  /** The results of the first `k` calls, one each and in order. */
  ghost predicate Answers(ms: seq<Message>, calls: seq<ToolCall>, k: nat)
    requires k <= |calls|
  {
    |ms| == k && forall j :: 0 <= j < k ==> ms[j].ToolResult? && ms[j].callId == calls[j].id
  }

  /** One assistant message with its tool calls, and their results. */
  ghost predicate IsBlock(ms: seq<Message>) {
    ms != [] && ms[0].Assistant? && ms[0].calls != [] && Answers(ms[1..], ms[0].calls, |ms[0].calls|)
  }

  ghost predicate IsBlocks(ms: seq<Message>, count: nat) {
    if count == 0 then ms == []
    else exists k :: 0 <= k < |ms| && IsBlocks(ms[..k], count - 1) && IsBlock(ms[k..])
  }

  /** System message, history, user message, then `count` blocks. */
  ghost predicate IsTranscript(ms: seq<Message>, opening: seq<Message>, count: nat) {
    |opening| <= |ms| && ms[..|opening|] == opening && IsBlocks(ms[|opening|..], count)
  }

  function Opening(prompt: string, history: seq<Message>, text: string): (opening: seq<Message>)
    ensures |opening| == |history| + 2
    ensures opening[0] == System(prompt) && opening[|history| + 1] == User(text)
    ensures forall i :: 0 <= i < |history| ==> opening[i + 1] == history[i]
  {
    [System(prompt)] + history + [User(text)]
  }

  /** A transcript grows by an assistant message with its calls, followed by their results. */
  lemma AnsweredTranscript(ms: seq<Message>, opening: seq<Message>, count: nat, text: string, calls: seq<ToolCall>,
                           results: seq<Message>)
    requires IsTranscript(ms, opening, count) && calls != [] && Answers(results, calls, |calls|)
    ensures IsTranscript(ms + [Assistant(text, calls)] + results, opening, count + 1)
  {
    var block := [Assistant(text, calls)] + results;
    assert block[1..] == results;
    TranscriptGrows(ms, opening, count, block);
    assert ms + block == ms + [Assistant(text, calls)] + results;
  }

  lemma TranscriptGrows(ms: seq<Message>, opening: seq<Message>, count: nat, block: seq<Message>)
    requires IsTranscript(ms, opening, count) && IsBlock(block)
    ensures IsTranscript(ms + block, opening, count + 1)
  {
    var body := ms[|opening|..];
    assert (ms + block)[..|opening|] == opening;
    assert (ms + block)[|opening|..] == body + block;
    assert (body + block)[..|body|] == body && (body + block)[|body|..] == block;
  }

  // ---------------------------------------------------------------- the two plain loops

  /** A model answer; an exception of the model call is None. */
  datatype Answer = Answer(content: string, calls: seq<ToolCall>)
  datatype Models = Models(answer: nat -> Option<Answer>, prePlanRaises: nat -> bool, tool: (nat, nat) -> Outcome)

  datatype Ending = Reply(text: string) | Escaped | LimitReached

  /** `ran` are the tool calls executed; `sent` the transcripts passed to the model. */
  datatype Chat = Chat(messages: seq<Message>, sent: seq<seq<Message>>, ran: seq<ToolCall>, ended: Option<Ending>)

  const NOT_AVAILABLE := "ToolNotAvailableInMode"

  /** Calls `0..k` of a round have been answered; a result that is not JSON ends the loop with an exception. */
  function Answered(c: Chat, models: Models, allowed: string -> bool, n: nat, calls: seq<ToolCall>, k: nat): Chat
    requires k <= |calls|
  {
    if k == 0 then c
    else
      var d := Answered(c, models, allowed, n, calls, k - 1);
      var call := calls[k - 1];
      if d.ended.Some? then d
      else if !allowed(call.name) then
        d.(messages := d.messages + [ToolResult(Refusal(NOT_AVAILABLE, call.name), call.id)])
      else
        var ran := d.ran + [call];
        match models.tool(n, k - 1)
        case Json(text) => d.(messages := d.messages + [ToolResult(Result(text), call.id)], ran := ran)
        case _ => d.(ran := ran, ended := Some(Escaped))
  }

  function Asked(c: Chat, a: Answer): Chat {
    c.(sent := c.sent + [c.messages], messages := c.messages + [Assistant(a.content, a.calls)])
  }

  function ChatRound(c: Chat, models: Models, allowed: string -> bool, n: nat): Chat {
    if c.ended.Some? then c
    else
      var asked := c.(sent := c.sent + [c.messages]);
      match models.answer(n)
      case None => asked.(ended := Some(Escaped))
      case Some(a) =>
        if a.calls == [] then
          asked.(ended := Some(Reply(if a.content == "" then "(no response)" else a.content)))
        else if models.prePlanRaises(n) then asked.(ended := Some(Escaped))
        else Answered(Asked(c, a), models, allowed, n, a.calls, |a.calls|)
  }

  function ChatRounds(opening: seq<Message>, models: Models, allowed: string -> bool, n: nat): Chat {
    if n == 0 then Chat(opening, [], [], None)
    else ChatRound(ChatRounds(opening, models, allowed, n - 1), models, allowed, n - 1)
  }

  /** The whole loop, with at most `cap` model calls. */
  function WholeChat(opening: seq<Message>, models: Models, allowed: string -> bool, cap: nat): Chat {
    var c := ChatRounds(opening, models, allowed, cap);
    if c.ended.Some? then c else c.(ended := Some(LimitReached))
  }

  lemma {:induction false} AnsweredMeans(c: Chat, models: Models, allowed: string -> bool, n: nat, calls: seq<ToolCall>,
                                         k: nat)
    returns (results: seq<Message>)
    requires k <= |calls| && c.ended.None?
    ensures Answered(c, models, allowed, n, calls, k).sent == c.sent
    ensures Answered(c, models, allowed, n, calls, k).ended.None? ==>
              Answers(results, calls, k) && Answered(c, models, allowed, n, calls, k).messages == c.messages + results
    decreases k
  {
    results := [];
    if k > 0 {
      results := AnsweredMeans(c, models, allowed, n, calls, k - 1);
      var d := Answered(c, models, allowed, n, calls, k);
      if d.ended.None? {
        results := results + [d.messages[|d.messages| - 1]];
      }
    }
  }

  lemma {:induction false} AnsweredRunsAllowed(c: Chat, models: Models, allowed: string -> bool, n: nat,
                                               calls: seq<ToolCall>, k: nat)
    requires k <= |calls|
    ensures forall call :: call in Answered(c, models, allowed, n, calls, k).ran ==> call in c.ran || allowed(call.name)
    decreases k
  {
    if k > 0 {
      AnsweredRunsAllowed(c, models, allowed, n, calls, k - 1);
    }
  }

  lemma RoundAddsBlock(c: Chat, models: Models, allowed: string -> bool, n: nat, opening: seq<Message>)
    requires c.ended.None? && IsTranscript(c.messages, opening, n)
    ensures var d := ChatRound(c, models, allowed, n);
            && d.sent == c.sent + [c.messages]
            && (d.ended.None? ==> IsTranscript(d.messages, opening, n + 1))
  {
    var a := models.answer(n);
    if a.Some? && a.value.calls != [] && !models.prePlanRaises(n) {
      var results := AnsweredMeans(Asked(c, a.value), models, allowed, n, a.value.calls, |a.value.calls|);
      var d := ChatRound(c, models, allowed, n);
      if d.ended.None? {
        AnsweredTranscript(c.messages, opening, n, a.value.content, a.value.calls, results);
      }
    }
  }

  lemma {:induction false} ChatTranscriptsUpTo(opening: seq<Message>, models: Models, allowed: string -> bool, n: nat)
    ensures var c := ChatRounds(opening, models, allowed, n);
            && |c.sent| <= n
            && (c.ended.None? ==> IsTranscript(c.messages, opening, n) && |c.sent| == n)
            && forall i :: 0 <= i < |c.sent| ==> IsTranscript(c.sent[i], opening, i)
  {
    if n == 0 {
      assert opening[..|opening|] == opening && opening[|opening|..] == [];
    } else {
      ChatTranscriptsUpTo(opening, models, allowed, n - 1);
      var c := ChatRounds(opening, models, allowed, n - 1);
      if c.ended.None? {
        RoundAddsBlock(c, models, allowed, n - 1, opening);
      }
    }
  }

  /** The `i`-th transcript the model sees is the opening and `i` complete blocks, and it sees at most `cap`. */
  lemma ChatTranscripts(opening: seq<Message>, models: Models, allowed: string -> bool, cap: nat)
    ensures |WholeChat(opening, models, allowed, cap).sent| <= cap
    ensures forall i :: 0 <= i < |WholeChat(opening, models, allowed, cap).sent| ==>
              IsTranscript(WholeChat(opening, models, allowed, cap).sent[i], opening, i)
  {
    ChatTranscriptsUpTo(opening, models, allowed, cap);
  }

  /** No tool outside the allow-list is ever executed. */
  lemma {:induction false} OnlyAllowedToolsRun(opening: seq<Message>, models: Models, allowed: string -> bool, n: nat)
    ensures forall call :: call in ChatRounds(opening, models, allowed, n).ran ==> allowed(call.name)
  {
    if n > 0 {
      OnlyAllowedToolsRun(opening, models, allowed, n - 1);
      var c, a := ChatRounds(opening, models, allowed, n - 1), models.answer(n - 1);
      if c.ended.None? && a.Some? && a.value.calls != [] && !models.prePlanRaises(n - 1) {
        AnsweredRunsAllowed(Asked(c, a.value), models, allowed, n - 1, a.value.calls, |a.value.calls|);
      }
    }
  }

  class ChatRun {
    var messages: seq<Message>
    var sent: seq<seq<Message>>
    var ran: seq<ToolCall>
    const models: Models
    const allowed: string -> bool

    constructor (prompt: string, history: seq<Message>, text: string, models: Models, allowed: string -> bool)
      ensures View(None) == Chat(Opening(prompt, history, text), [], [], None)
      ensures this.models == models && this.allowed == allowed
    {
      messages := [System(prompt)] + history + [User(text)];
      sent, ran, this.models, this.allowed := [], [], models, allowed;
    }

    function View(ended: Option<Ending>): Chat
      reads this
    {
      Chat(messages, sent, ran, ended)
    }

    /** The loop over the tool calls of one answer. */
    method AnswerCalls(n: nat, calls: seq<ToolCall>) returns (ended: Option<Ending>)
      modifies this
      ensures View(ended) == Answered(old(View(None)), models, allowed, n, calls, |calls|)
    {
      ended := None;
      for k := 0 to |calls|
        invariant ended == None && View(None) == Answered(old(View(None)), models, allowed, n, calls, k)
      {
        var content := Refusal(NOT_AVAILABLE, calls[k].name);
        if allowed(calls[k].name) {
          var result := models.tool(n, k);
          ran := ran + [calls[k]];
          if !result.Json? {
            ended := Some(Escaped);
            StaysEnded(old(View(None)), models, allowed, n, calls, k + 1);
            return;
          }
          content := Result(result.text);
        }
        messages := messages + [ToolResult(content, calls[k].id)];
      }
    }

    /** One pass of the loop. */
    method Round(n: nat) returns (ended: Option<Ending>)
      modifies this
      ensures View(ended) == ChatRound(old(View(None)), models, allowed, n)
    {
      sent := sent + [messages];
      var answer := models.answer(n);
      if answer.None? {
        return Some(Escaped);
      }
      var Answer(content, calls) := answer.value;
      if calls == [] {
        return Some(Reply(if content == "" then "(no response)" else content));
      }
      if models.prePlanRaises(n) {
        return Some(Escaped);
      }
      messages := messages + [Assistant(content, calls)];
      ended := AnswerCalls(n, calls);
    }

    /** `process_chat_message` with `cap` 15 and every tool allowed; `process_counterparty_turn` with `cap` 10. */
    method Converse(cap: nat) returns (ending: Ending)
      requires View(None) == Chat(messages, [], [], None)
      modifies this
      ensures View(Some(ending)) == WholeChat(old(messages), models, allowed, cap)
    {
      for n := 0 to cap
        invariant View(None) == ChatRounds(old(messages), models, allowed, n)
      {
        var ended := Round(n);
        if ended.Some? {
          ChatStaysEnded(old(messages), models, allowed, n + 1, cap);
          return ended.value;
        }
      }
      return LimitReached;
    }
  }

  lemma {:induction false} StaysEnded(c: Chat, models: Models, allowed: string -> bool, n: nat, calls: seq<ToolCall>,
                                      k: nat)
    requires k <= |calls| && Answered(c, models, allowed, n, calls, k).ended.Some?
    ensures Answered(c, models, allowed, n, calls, |calls|) == Answered(c, models, allowed, n, calls, k)
    decreases |calls| - k
  {
    if k < |calls| {
      StaysEnded(c, models, allowed, n, calls, k + 1);
    }
  }

  lemma {:induction false} ChatStaysEnded(opening: seq<Message>, models: Models, allowed: string -> bool, n: nat,
                                          cap: nat)
    requires n <= cap && ChatRounds(opening, models, allowed, n).ended.Some?
    ensures ChatRounds(opening, models, allowed, cap) == ChatRounds(opening, models, allowed, n)
    decreases cap - n
  {
    if n < cap {
      ChatStaysEnded(opening, models, allowed, n + 1, cap);
    }
  }
}

/** What the plain loops send, run and answer, read off the model's answers, the tools' outcomes and the allow-list
    alone (src/graphclaw/agent/main_orchestrator.py, lines 1010-1092 and 1610-1669). */
module ChatMeaning {
  import opened Options
  import opened AgentLoop

  // ---------------------------------------------------------------- one round

  ghost predicate CallsTools(models: Models, n: nat) {
    models.answer(n).Some? && models.answer(n).value.calls != [] && !models.prePlanRaises(n)
  }

  /** Call `j` can be answered: it is refused, or its tool gives a result that is JSON. */
  predicate CanAnswer(models: Models, allowed: string -> bool, n: nat, calls: seq<ToolCall>, j: nat)
    requires j < |calls|
  {
    !allowed(calls[j].name) || models.tool(n, j).Json?
  }

  ghost predicate CanAnswerAll(models: Models, allowed: string -> bool, n: nat, calls: seq<ToolCall>, k: nat)
    requires k <= |calls|
  {
    forall j :: 0 <= j < k ==> CanAnswer(models, allowed, n, calls, j)
  }

  /** A refused call is answered by an error object that names the tool, an allowed one by its own result. */
  function AnswerTo(models: Models, allowed: string -> bool, n: nat, calls: seq<ToolCall>, j: nat): Content
    requires j < |calls| && CanAnswer(models, allowed, n, calls, j)
  {
    if allowed(calls[j].name) then Result(models.tool(n, j).text)
    else Refusal("ToolNotAvailableInMode", calls[j].name)
  }

  ghost function Results(models: Models, allowed: string -> bool, n: nat, calls: seq<ToolCall>, k: nat)
      : (ms: seq<Message>)
    requires k <= |calls| && CanAnswerAll(models, allowed, n, calls, k)
    ensures |ms| == k
    ensures forall j :: 0 <= j < k ==> ms[j] == ToolResult(AnswerTo(models, allowed, n, calls, j), calls[j].id)
  {
    seq(k, j requires 0 <= j < k => ToolResult(AnswerTo(models, allowed, n, calls, j), calls[j].id))
  }

  /** The allowed calls, in their order. */
  function Permitted(calls: seq<ToolCall>, allowed: string -> bool): seq<ToolCall> {
    if calls == [] then []
    else
      var rest := Permitted(calls[1..], allowed);
      if allowed(calls[0].name) then [calls[0]] + rest else rest
  }

  lemma {:induction false} PermittedOneMore(calls: seq<ToolCall>, call: ToolCall, allowed: string -> bool)
    ensures Permitted(calls + [call], allowed)
            == Permitted(calls, allowed) + if allowed(call.name) then [call] else []
  {
    if calls == [] {
      assert [call][1..] == [];
    } else {
      PermittedOneMore(calls[1..], call, allowed);
      assert (calls + [call])[1..] == calls[1..] + [call];
    }
  }

  /** All of the first `k` calls can be answered: their results stand behind the messages, the allowed ones have run. */
  lemma {:induction false} AnsweredIs(c: Chat, models: Models, allowed: string -> bool, n: nat, calls: seq<ToolCall>,
                                      k: nat)
    requires k <= |calls| && c.ended.None? && CanAnswerAll(models, allowed, n, calls, k)
    ensures Answered(c, models, allowed, n, calls, k)
            == Chat(c.messages + Results(models, allowed, n, calls, k), c.sent,
                    c.ran + Permitted(calls[..k], allowed), None)
    decreases k
  {
    if k == 0 {
      assert Permitted(calls[..0], allowed) == [];
      assert c.messages + [] == c.messages && c.ran + [] == c.ran;
    } else {
      AnsweredIs(c, models, allowed, n, calls, k - 1);
      var call := calls[k - 1];
      assert CanAnswer(models, allowed, n, calls, k - 1);
      PermittedOneMore(calls[..k - 1], call, allowed);
      assert calls[..k] == calls[..k - 1] + [call];
      var results, before := Results(models, allowed, n, calls, k), Results(models, allowed, n, calls, k - 1);
      assert c.messages + results == c.messages + before + [results[k - 1]];
      var ran := Permitted(calls[..k - 1], allowed);
      assert c.ran + (ran + [call]) == c.ran + ran + [call] && c.ran + (ran + []) == c.ran + ran;
    }
  }

  ghost predicate IsFirstUnanswered(models: Models, allowed: string -> bool, n: nat, calls: seq<ToolCall>, j: nat) {
    j < |calls| && CanAnswerAll(models, allowed, n, calls, j) && !CanAnswer(models, allowed, n, calls, j)
  }

  lemma FirstUnanswered(models: Models, allowed: string -> bool, n: nat, calls: seq<ToolCall>) returns (j: nat)
    ensures if CanAnswerAll(models, allowed, n, calls, |calls|) then j == |calls|
            else IsFirstUnanswered(models, allowed, n, calls, j)
  {
    j := 0;
    while j < |calls| && CanAnswer(models, allowed, n, calls, j)
      invariant j <= |calls| && CanAnswerAll(models, allowed, n, calls, j)
    {
      j := j + 1;
    }
  }

  /** The first call whose tool fails is run, ends the loop, and is the last one run. */
  lemma AnsweredUntil(c: Chat, models: Models, allowed: string -> bool, n: nat, calls: seq<ToolCall>, j: nat)
    requires c.ended.None? && IsFirstUnanswered(models, allowed, n, calls, j)
    ensures var d := Answered(c, models, allowed, n, calls, |calls|);
            d.ended == Some(Escaped) && d.sent == c.sent && d.ran == c.ran + Permitted(calls[..j + 1], allowed)
  {
    AnsweredIs(c, models, allowed, n, calls, j);
    PermittedOneMore(calls[..j], calls[j], allowed);
    assert calls[..j + 1] == calls[..j] + [calls[j]];
    StaysEnded(c, models, allowed, n, calls, j + 1);
  }

  // ---------------------------------------------------------------- rounds that go on

  function CallsOf(models: Models, n: nat): seq<ToolCall> {
    if models.answer(n).Some? then models.answer(n).value.calls else []
  }

  /** Round `n` calls tools, and every call can be answered. */
  ghost predicate GoesOn(models: Models, allowed: string -> bool, n: nat) {
    CallsTools(models, n) && CanAnswerAll(models, allowed, n, CallsOf(models, n), |CallsOf(models, n)|)
  }

  ghost predicate AllGoOn(models: Models, allowed: string -> bool, n: nat) {
    forall m: nat :: m < n ==> GoesOn(models, allowed, m)
  }

  /** The transcript behind `n` rounds that all went on. */
  ghost function Transcript(opening: seq<Message>, models: Models, allowed: string -> bool, n: nat): seq<Message>
    requires AllGoOn(models, allowed, n)
  {
    if n == 0 then opening
    else
      assert GoesOn(models, allowed, n - 1);
      var calls := CallsOf(models, n - 1);
      Transcript(opening, models, allowed, n - 1)
      + [Assistant(models.answer(n - 1).value.content, calls)] + Results(models, allowed, n - 1, calls, |calls|)
  }

  /** The tool calls run in the first `n` rounds. */
  function RunIn(models: Models, allowed: string -> bool, n: nat): seq<ToolCall> {
    if n == 0 then [] else RunIn(models, allowed, n - 1) + Permitted(CallsOf(models, n - 1), allowed)
  }

  ghost predicate SentAre(sent: seq<seq<Message>>, opening: seq<Message>, models: Models, allowed: string -> bool,
                          n: nat)
    requires forall i :: 0 <= i < n ==> AllGoOn(models, allowed, i)
  {
    |sent| == n && forall i :: 0 <= i < n ==> sent[i] == Transcript(opening, models, allowed, i)
  }

  ghost predicate Behind(c: Chat, opening: seq<Message>, models: Models, allowed: string -> bool, n: nat) {
    && AllGoOn(models, allowed, n) && c.messages == Transcript(opening, models, allowed, n)
    && SentAre(c.sent, opening, models, allowed, n) && c.ran == RunIn(models, allowed, n) && c.ended.None?
  }

  lemma RoundGoesOn(c: Chat, opening: seq<Message>, models: Models, allowed: string -> bool, n: nat)
    requires Behind(c, opening, models, allowed, n) && GoesOn(models, allowed, n)
    ensures Behind(ChatRound(c, models, allowed, n), opening, models, allowed, n + 1)
  {
    var calls := CallsOf(models, n);
    AnsweredIs(Asked(c, models.answer(n).value), models, allowed, n, calls, |calls|);
    assert calls[..|calls|] == calls;
  }

  lemma NothingBehind(opening: seq<Message>, models: Models, allowed: string -> bool)
    ensures Behind(ChatRounds(opening, models, allowed, 0), opening, models, allowed, 0)
  {
  }

  lemma NextGoesOn(opening: seq<Message>, models: Models, allowed: string -> bool, n: nat)
    requires Behind(ChatRounds(opening, models, allowed, n), opening, models, allowed, n) && GoesOn(models, allowed, n)
    ensures Behind(ChatRounds(opening, models, allowed, n + 1), opening, models, allowed, n + 1)
  {
    RoundGoesOn(ChatRounds(opening, models, allowed, n), opening, models, allowed, n);
  }

  lemma RoundsGoOn(opening: seq<Message>, models: Models, allowed: string -> bool, n: nat)
    requires AllGoOn(models, allowed, n)
    ensures Behind(ChatRounds(opening, models, allowed, n), opening, models, allowed, n)
  {
    NothingBehind(opening, models, allowed);
    for m := 0 to n
      invariant Behind(ChatRounds(opening, models, allowed, m), opening, models, allowed, m)
    {
      NextGoesOn(opening, models, allowed, m);
    }
  }

  // ---------------------------------------------------------------- whole chats

  ghost predicate IsLastRound(models: Models, allowed: string -> bool, cap: nat, n: nat) {
    n < cap && AllGoOn(models, allowed, n) && !GoesOn(models, allowed, n)
  }

  lemma {:induction false} LastRoundOrCap(models: Models, allowed: string -> bool, cap: nat)
    ensures AllGoOn(models, allowed, cap) || exists n: nat :: IsLastRound(models, allowed, cap, n)
  {
    if cap > 0 {
      LastRoundOrCap(models, allowed, cap - 1);
      if AllGoOn(models, allowed, cap - 1) {
        if !GoesOn(models, allowed, cap - 1) {
          assert IsLastRound(models, allowed, cap, cap - 1);
        }
      } else {
        var n: nat :| IsLastRound(models, allowed, cap - 1, n);
        assert IsLastRound(models, allowed, cap, n);
      }
    }
  }

  /** Round `n` answers without calling a tool. */
  ghost predicate Concludes(models: Models, n: nat) {
    models.answer(n).Some? && models.answer(n).value.calls == []
  }

  /** A chat whose last round is `n`: an answer without calls is the reply, anything else escapes; of a round in which
      a tool fails, the allowed calls up to and including that one have run. */
  ghost predicate EndsInRound(c: Chat, opening: seq<Message>, models: Models, allowed: string -> bool, n: nat)
    requires AllGoOn(models, allowed, n)
  {
    && SentAre(c.sent, opening, models, allowed, n + 1)
    && c.ended == Some(if !Concludes(models, n) then Escaped
                       else if models.answer(n).value.content == "" then Reply("(no response)")
                       else Reply(models.answer(n).value.content))
    && (!CallsTools(models, n) ==> c.ran == RunIn(models, allowed, n))
    && (forall j: nat :: CallsTools(models, n) && IsFirstUnanswered(models, allowed, n, CallsOf(models, n), j) ==>
          c.ran == RunIn(models, allowed, n) + Permitted(CallsOf(models, n)[..j + 1], allowed))
  }

  lemma RoundEnds(c: Chat, opening: seq<Message>, models: Models, allowed: string -> bool, n: nat)
    requires Behind(c, opening, models, allowed, n) && !GoesOn(models, allowed, n)
    ensures var d := ChatRound(c, models, allowed, n);
            d.ended.Some? && EndsInRound(d, opening, models, allowed, n)
  {
    if CallsTools(models, n) {
      var calls, asked := CallsOf(models, n), Asked(c, models.answer(n).value);
      var first := FirstUnanswered(models, allowed, n, calls);
      AnsweredUntil(asked, models, allowed, n, calls, first);
      forall j: nat | IsFirstUnanswered(models, allowed, n, calls, j)
        ensures j == first
      {
      }
    }
  }

  /** The transcripts, the tool calls and the ending of every chat, by where it ends. */
  lemma ChatEndsWhere(opening: seq<Message>, models: Models, allowed: string -> bool, cap: nat)
    ensures AllGoOn(models, allowed, cap) ==>
              var c := WholeChat(opening, models, allowed, cap);
              && c.ended == Some(LimitReached) && SentAre(c.sent, opening, models, allowed, cap)
              && c.ran == RunIn(models, allowed, cap)
    ensures forall n: nat :: IsLastRound(models, allowed, cap, n) ==>
              EndsInRound(WholeChat(opening, models, allowed, cap), opening, models, allowed, n)
    ensures AllGoOn(models, allowed, cap) || exists n: nat :: IsLastRound(models, allowed, cap, n)
  {
    LastRoundOrCap(models, allowed, cap);
    if AllGoOn(models, allowed, cap) {
      RoundsGoOn(opening, models, allowed, cap);
    }
    forall n: nat | IsLastRound(models, allowed, cap, n)
      ensures EndsInRound(WholeChat(opening, models, allowed, cap), opening, models, allowed, n)
    {
      RoundsGoOn(opening, models, allowed, n);
      RoundEnds(ChatRounds(opening, models, allowed, n), opening, models, allowed, n);
      assert ChatRounds(opening, models, allowed, n + 1)
             == ChatRound(ChatRounds(opening, models, allowed, n), models, allowed, n);
      ChatStaysEnded(opening, models, allowed, n + 1, cap);
    }
  }
}

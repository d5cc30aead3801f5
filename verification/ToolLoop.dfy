/** The tool-calling loop: run_agent_with_tools (app/agents/runtime.py). */
module ToolLoop {
  import opened Wrappers

  datatype ToolCall = ToolCall(name: string, args: string, id: string)

  datatype Usage = Usage(input: nat, output: nat, total: nat)

  datatype Reply = Reply(content: string, calls: seq<ToolCall>, usage: Option<Usage>)

  datatype Message =
    | Given(text: string)
    | Assistant(reply: Reply)
    | ToolMessage(content: string, id: string)

  /** What running a tool gives; Raised carries the exception's text. */
  datatype ToolOutcome = Returned(content: string) | Raised(text: string)

  /** Everything outside the loop: the model's reply to its k-th call, or None when the call raises,
      and each tool's outcome for the i-th request of a round. Any functions will do. */
  datatype World = World(
    model: (nat, bool, seq<Message>) -> Option<Reply>,
    tool: (nat, nat, ToolCall) -> ToolOutcome)

  const UNKNOWN_TOOL: string := "Ferramenta desconhecida: "
  const TOOL_FAILED: string := "Erro ao executar "

  /** The text fed back for one request. */
  function Content(w: World, tools: set<string>, k: nat, i: nat, call: ToolCall): string {
    if call.name !in tools then UNKNOWN_TOOL + call.name
    else match w.tool(k, i, call)
         case Returned(content) => content
         case Raised(text) => TOOL_FAILED + call.name + ": " + text
  }

  // ---- What the loop is for ----

  /** The conversation after the first n replies were answered. */
  function Conversation(w: World, tools: set<string>, messages: seq<Message>, replies: seq<Reply>): seq<Message> {
    if replies == [] then messages else
      var k := |replies| - 1;
      Conversation(w, tools, messages, replies[..k]) + [Assistant(replies[k])] + Answers(w, tools, k, replies[k].calls)
  }

  function Answers(w: World, tools: set<string>, k: nat, calls: seq<ToolCall>): seq<Message> {
    seq(|calls|, i requires 0 <= i < |calls| => ToolMessage(Content(w, tools, k, i, calls[i]), calls[i].id))
  }

  /** Every reply is the model's to the conversation so far, with tools bound in the first rounds only. */
  predicate Dialogue(w: World, tools: set<string>, messages: seq<Message>, rounds: nat, replies: seq<Reply>) {
    && |replies| <= rounds + 1
    && (forall k | 0 <= k < |replies| ::
          w.model(k, k < rounds, Conversation(w, tools, messages, replies[..k])) == Some(replies[k]))
    && (forall k | 0 <= k < |replies| - 1 :: replies[k].calls != [])
  }

  function Plus(a: Usage, b: Option<Usage>): Usage {
    match b
    case Some(u) => Usage(a.input + u.input, a.output + u.output, a.total + u.total)
    case None => a
  }

  function TotalUsage(replies: seq<Reply>): Usage {
    if replies == [] then Usage(0, 0, 0) else Plus(TotalUsage(replies[..|replies| - 1]), replies[|replies| - 1].usage)
  }

  /** max_iterations, as range() reads it. */
  function Rounds(maxIterations: int): nat {
    if maxIterations < 0 then 0 else maxIterations
  }

  datatype Result = Answer(reply: Reply) | Failed

  /** Hands back the answer, the number of model calls, and the replies received. */
  method RunAgentWithTools(w: World, tools: set<string>, messages: seq<Message>, maxIterations: int)
    returns (result: Result, calls: nat, replies: seq<Reply>)
    ensures Dialogue(w, tools, messages, if maxIterations > 0 then maxIterations else 0, replies)
    ensures result.Answer? ==>
      && calls == |replies| > 0
      && result.reply == replies[calls - 1].(usage := Some(TotalUsage(replies)))
      && (result.reply.calls == [] || calls == (if maxIterations > 0 then maxIterations else 0) + 1)
    ensures result.Failed? ==>
      && calls == |replies| + 1 <= (if maxIterations > 0 then maxIterations else 0) + 1
      && (forall k | 0 <= k < |replies| :: replies[k].calls != [])
      && w.model(|replies|, |replies| < maxIterations, Conversation(w, tools, messages, replies)) == None
  {
    var conversation := messages;
    var totals := Usage(0, 0, 0);
    replies, calls := [], 0;
    for k := 0 to Rounds(maxIterations)
      invariant calls == k == |replies|
      invariant conversation == Conversation(w, tools, messages, replies) && totals == TotalUsage(replies)
      invariant Dialogue(w, tools, messages, Rounds(maxIterations), replies)
      invariant forall j | 0 <= j < k :: replies[j].calls != []
    {
      calls := calls + 1;
      var response := w.model(k, true, conversation);
      if response == None {
        return Failed, calls, replies;
      }
      DialogueGrows(w, tools, messages, Rounds(maxIterations), replies, response.value);
      totals := Plus(totals, response.value.usage);
      replies := replies + [response.value];
      if response.value.calls == [] {
        return Answer(response.value.(usage := Some(totals))), calls, replies;
      }
      conversation := AppendRound(w, tools, k, response.value, conversation);
    }
    calls := calls + 1;
    var response := w.model(Rounds(maxIterations), false, conversation);
    if response == None {
      return Failed, calls, replies;
    }
    DialogueGrows(w, tools, messages, Rounds(maxIterations), replies, response.value);
    totals := Plus(totals, response.value.usage);
    replies := replies + [response.value];
    result := Answer(response.value.(usage := Some(totals)));
  }

  /** Appends the request and one answer for each call. */
  method AppendRound(w: World, tools: set<string>, k: nat, reply: Reply, before: seq<Message>) returns (conversation: seq<Message>)
    ensures conversation == before + [Assistant(reply)] + Answers(w, tools, k, reply.calls)
  {
    conversation := before + [Assistant(reply)];
    for i := 0 to |reply.calls|
      invariant conversation == before + [Assistant(reply)] + Answers(w, tools, k, reply.calls)[..i]
    {
      var call := reply.calls[i];
      var content;
      if call.name !in tools {
        content := UNKNOWN_TOOL + call.name;
      } else {
        var outcome := w.tool(k, i, call);
        content := if outcome.Returned? then outcome.content else TOOL_FAILED + call.name + ": " + outcome.text;
      }
      var answers := Answers(w, tools, k, reply.calls);
      assert answers[..i + 1] == answers[..i] + [ToolMessage(content, call.id)];
      conversation := conversation + [ToolMessage(content, call.id)];
    }
  }

  lemma DialogueGrows(w: World, tools: set<string>, messages: seq<Message>, rounds: nat, replies: seq<Reply>, reply: Reply)
    requires Dialogue(w, tools, messages, rounds, replies) && |replies| <= rounds
    requires forall j | 0 <= j < |replies| :: replies[j].calls != []
    requires w.model(|replies|, |replies| < rounds, Conversation(w, tools, messages, replies)) == Some(reply)
    ensures Dialogue(w, tools, messages, rounds, replies + [reply])
    ensures TotalUsage(replies + [reply]) == Plus(TotalUsage(replies), reply.usage)
    ensures Conversation(w, tools, messages, replies + [reply])
            == Conversation(w, tools, messages, replies) + [Assistant(reply)] + Answers(w, tools, |replies|, reply.calls)
  {
    var more := replies + [reply];
    assert more[..|replies|] == replies;
    assert forall k | 0 <= k < |replies| :: more[..k] == replies[..k];
  }

  // ---- Every conversation the model sees answers all its requests ----

  function Ids(calls: seq<ToolCall>): seq<string> {
    seq(|calls|, i requires 0 <= i < |calls| => calls[i].id)
  }

  /** The requests still open after a conversation: an answer must close the first open one, and
      nothing else may be said while one is open. None for a conversation that breaks this. */
  function Open(conversation: seq<Message>): Option<seq<string>> {
    if conversation == [] then Some([]) else
      match Open(conversation[..|conversation| - 1])
      case None => None
      case Some(open) =>
        match conversation[|conversation| - 1]
        case ToolMessage(_, id) => if open != [] && open[0] == id then Some(open[1..]) else None
        case Given(_) => if open == [] then Some([]) else None
        case Assistant(reply) => if open == [] then Some(Ids(reply.calls)) else None
  }

  /** Answers under the open ids, in order, close them one by one. */
  lemma {:induction false} AnswersClose(before: seq<Message>, answers: seq<Message>, ids: seq<string>, i: nat)
    requires Open(before) == Some(ids) && |answers| == |ids| && i <= |ids|
    requires forall j | 0 <= j < |ids| :: answers[j].ToolMessage? && answers[j].id == ids[j]
    ensures Open(before + answers[..i]) == Some(ids[i..])
  {
    hide Open;
    if i == 0 {
      assert before + answers[..0] == before;
    } else {
      AnswersClose(before, answers, ids, i - 1);
      OneAnswer(before + answers[..i - 1], answers[i - 1], ids[i - 1..]);
      assert before + answers[..i] == before + answers[..i - 1] + [answers[i - 1]];
      assert ids[i - 1..][1..] == ids[i..];
    }
  }

  lemma OneAnswer(before: seq<Message>, answer: Message, open: seq<string>)
    requires Open(before) == Some(open) && answer.ToolMessage? && open != [] && open[0] == answer.id
    ensures Open(before + [answer]) == Some(open[1..])
  {
    assert (before + [answer])[..|before|] == before;
  }

  /** Whatever the model asks for and however the tools fail, the conversation it is sent next
      has every request answered once, in order, under its own id. */
  lemma {:induction false} NothingIsLeftOpen(w: World, tools: set<string>, messages: seq<Message>, replies: seq<Reply>)
    requires Open(messages) == Some([])
    ensures Open(Conversation(w, tools, messages, replies)) == Some([])
    ensures messages <= Conversation(w, tools, messages, replies)
  {
    if replies != [] {
      var k := |replies| - 1;
      var before := Conversation(w, tools, messages, replies[..k]);
      var calls := replies[k].calls;
      NothingIsLeftOpen(w, tools, messages, replies[..k]);
      var asked := before + [Assistant(replies[k])];
      assert asked[..|asked| - 1] == before && asked[|asked| - 1] == Assistant(replies[k]);
      assert Open(asked) == Some(Ids(calls)) && Ids(calls)[|calls|..] == [];
      AnswersClose(asked, Answers(w, tools, k, calls), Ids(calls), |calls|);
      assert Answers(w, tools, k, calls)[..|calls|] == Answers(w, tools, k, calls);
      assert Conversation(w, tools, messages, replies) == asked + Answers(w, tools, k, calls);
    }
  }

  lemma DialogueAt(w: World, tools: set<string>, messages: seq<Message>, rounds: nat, a: seq<Reply>, k: nat)
    requires Dialogue(w, tools, messages, rounds, a) && k < |a|
    ensures w.model(k, k < rounds, Conversation(w, tools, messages, a[..k])) == Some(a[k])
  {
  }

  /** Under one world the replies are determined: two dialogues agree as far as both go. */
  lemma {:induction false} DialogueIsDetermined(
    w: World, tools: set<string>, messages: seq<Message>, rounds: nat, a: seq<Reply>, b: seq<Reply>, k: nat)
    requires Dialogue(w, tools, messages, rounds, a) && Dialogue(w, tools, messages, rounds, b)
    requires k <= |a| && k <= |b|
    ensures a[..k] == b[..k]
  {
    if k > 0 {
      hide *;
      DialogueIsDetermined(w, tools, messages, rounds, a, b, k - 1);
      DialogueAt(w, tools, messages, rounds, a, k - 1);
      DialogueAt(w, tools, messages, rounds, b, k - 1);
      Extend(a, b, k);
    }
  }

  lemma Extend(a: seq<Reply>, b: seq<Reply>, k: nat)
    requires 0 < k <= |a| && k <= |b| && a[..k - 1] == b[..k - 1] && a[k - 1] == b[k - 1]
    ensures a[..k] == b[..k]
  {
    assert a[..k] == a[..k - 1] + [a[k - 1]];
    assert b[..k] == b[..k - 1] + [b[k - 1]];
  }

  // ---- What is fed back, and what is counted ----

  /** The answers to a round, in plain terms: one per call, under its id; a call to a tool there is not says
      so with its name, one that raises says so with its name and the exception's text, any other gives
      what the tool returned. */
  lemma {:induction false} AnswersAre(w: World, tools: set<string>, k: nat, calls: seq<ToolCall>)
    ensures |Answers(w, tools, k, calls)| == |calls|
    ensures forall i | 0 <= i < |calls| :: Answers(w, tools, k, calls)[i] == ToolMessage(
      if calls[i].name !in tools then "Ferramenta desconhecida: " + calls[i].name
      else if w.tool(k, i, calls[i]).Raised? then "Erro ao executar " + calls[i].name + ": " + w.tool(k, i, calls[i]).text
      else w.tool(k, i, calls[i]).content,
      calls[i].id)
  {
  }

  /** One count over all replies that report their usage. */
  function Tally(replies: seq<Reply>, count: Usage -> nat): nat {
    if replies == [] then 0
    else (if replies[0].usage.Some? then count(replies[0].usage.value) else 0) + Tally(replies[1..], count)
  }

  lemma {:induction false} TallyLast(replies: seq<Reply>, r: Reply, count: Usage -> nat)
    ensures Tally(replies + [r], count) == Tally(replies, count) + if r.usage.Some? then count(r.usage.value) else 0
  {
    if replies == [] {
      assert ([] + [r])[1..] == [];
    } else {
      assert (replies + [r])[1..] == replies[1..] + [r];
      TallyLast(replies[1..], r, count);
    }
  }

  /** The usage handed back adds up each of the three counts over all replies. */
  lemma {:induction false} UsageIsTheSum(replies: seq<Reply>)
    ensures TotalUsage(replies) ==
      Usage(Tally(replies, (u: Usage) => u.input), Tally(replies, (u: Usage) => u.output), Tally(replies, (u: Usage) => u.total))
  {
    if replies != [] {
      var front, last := replies[..|replies| - 1], replies[|replies| - 1];
      UsageIsTheSum(front);
      assert replies == front + [last];
      TallyLast(front, last, (u: Usage) => u.input);
      TallyLast(front, last, (u: Usage) => u.output);
      TallyLast(front, last, (u: Usage) => u.total);
    }
  }
}

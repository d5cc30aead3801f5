/** The chat graph from input guardrail to output guardrail (app/agents/supervisor.py). */
module Supervisor {
  import opened Wrappers
  import opened Characters
  import opened IntentCatalog
  import opened Judge

  /** Why the input guardrail refuses a message; each has a fixed, non-empty text. */
  datatype Block = EmptyMessage | TooLong | Injection | RateLimited

  /** Everything the graph does not decide itself: any functions and values will do. */
  datatype World = World(
    injection: string -> bool,
    redactInput: string -> string,
    withinRate: bool,
    upper: string -> string,
    lower: string -> string,
    catalogue: seq<Intent>,
    reply: (string, string) -> string,
    first: Call,
    second: Call,
    redactOutput: string -> string,
    leaks: string -> bool,
    fallback: Fallback -> string,
    blockText: Block -> string,
    raises: Node -> bool)

  datatype Node = GuardIn | LoadContext | Route | Agent(name: string) | Juiz | GuardOut

  datatype Chat = Chat(
    userInput: string, userRole: string, sanitized: string, error: Option<Block>, selected: Option<string>,
    agentResponse: string, judgeApproved: bool, finalResponse: string, visited: seq<Node>)

  function Start(userInput: string, userRole: string): Chat {
    Chat(userInput, userRole, "", None, None, "", false, "", [])
  }

  // ---- Guardrails ----

  function Blocked(w: World, input: string): Option<Block> {
    if Blank(input) then Some(EmptyMessage)
    else if |input| > 4096 then Some(TooLong)
    else if w.injection(input) then Some(Injection)
    else if !w.withinRate then Some(RateLimited)
    else None
  }

  const MAX_RESPONSE: nat := 8192
  const WITHHELD: string := "Não consigo fornecer essa informação no momento."

  function Filtered(w: World, response: string): string {
    var output := w.redactOutput(response);
    if w.leaks(output) || |output| > MAX_RESPONSE then WITHHELD else output
  }

  // ---- Routing ----

  function IntentAgents(role: string): seq<string> {
    if role == "DONO" then ["motor_preditivo"] else if role == "CLIENTE" then ["faq"] else []
  }

  function DefaultAgent(role: string): string {
    if role == "DONO" then "dono" else if role == "CLIENTE" then "cliente" else "funcionario"
  }

  ghost function Selected(w: World, role: string, sanitized: string): string {
    var candidates := IntentAgents(role);
    if candidates == [] then DefaultAgent(role)
    else match Chosen(w.lower(sanitized), candidates, w.catalogue)
         case Some(m) => if m.agent != "" then m.agent else DefaultAgent(role)
         case None => DefaultAgent(role)
  }

  const AGENTS: set<string> := {"cliente", "faq", "funcionario", "dono", "motor_preditivo"}

  // ---- The graph ----

  ghost function Perform(w: World, node: Node, s: Chat): Chat {
    var s := s.(visited := s.visited + [node]);
    match node
    case GuardIn =>
      (match Blocked(w, s.userInput)
       case Some(block) => s.(error := Some(block), finalResponse := w.blockText(block), agentResponse := "")
       case None =>
         var clean := w.redactInput(s.userInput);
         s.(sanitized := if clean != "" then clean else s.userInput, error := None))
    case LoadContext => s
    case Route => if s.error.Some? then s else s.(selected := Some(Selected(w, w.upper(s.userRole), s.sanitized)))
    case Agent(name) => s.(agentResponse := w.reply(name, s.sanitized))
    case Juiz =>
      s.(agentResponse := Text(Released(s.agentResponse, w.first, w.second), w.fallback),
         judgeApproved := InFavour(w.first) || InFavour(w.second))
    case GuardOut => if s.error.Some? then s else s.(finalResponse := Filtered(w, s.agentResponse))
  }

  /** END, another node, or no node of that name. */
  datatype Edge = End | To(node: Node) | Unknown

  function Next(node: Node, s: Chat): Edge {
    match node
    case GuardIn => if s.error.Some? then End else To(LoadContext)
    case LoadContext => To(Route)
    case Route =>
      var name := if s.selected.Some? then s.selected.value else "cliente";
      if name in AGENTS then To(Agent(name)) else Unknown
    case Agent(_) => To(Juiz)
    case Juiz => To(GuardOut)
    case GuardOut => End
  }

  function Rank(node: Node): nat {
    match node
    case GuardIn => 5
    case LoadContext => 4
    case Route => 3
    case Agent(_) => 2
    case Juiz => 1
    case GuardOut => 0
  }

  /** The request from one node on; None when a node raises. */
  ghost function Run(w: World, node: Node, s: Chat): Option<Chat>
    decreases Rank(node)
  {
    if w.raises(node) then None
    else
      var done := Perform(w, node, s);
      match Next(node, done)
      case End => Some(done)
      case To(next) => Run(w, next, done)
      case Unknown => None
  }

  // ---- What every request keeps ----

  /** The agents a role may reach. */
  function Reach(role: string): set<string> {
    if role == "DONO" then {"dono", "motor_preditivo"}
    else if role == "CLIENTE" then {"cliente", "faq"}
    else {"funcionario"}
  }

  /** No catalogue content routes a role outside its agents, and every choice is a node of the graph. */
  lemma {:induction false} RoutedWithinRole(w: World, role: string, sanitized: string)
    ensures Selected(w, role, sanitized) in Reach(role)
    ensures Selected(w, role, sanitized) in AGENTS
    ensures role != "CLIENTE" && role != "DONO" ==> Selected(w, role, sanitized) == "funcionario"
  {
    hide Winner, AnyQualifies;
    var candidates := IntentAgents(role);
    var chosen := Chosen(w.lower(sanitized), candidates, w.catalogue);
    if chosen.Some? {
      ChosenIsAllowed(w.lower(sanitized), candidates, w.catalogue);
    }
  }

  lemma ChosenIsAllowed(text: string, candidates: seq<string>, intents: seq<Intent>)
    requires Chosen(text, candidates, intents).Some?
    ensures Chosen(text, candidates, intents).value.agent in candidates
  {
    WinnerExists(text, candidates, intents);
    hide Confidence;
    var i: nat :| Winner(text, candidates, intents, i) && Chosen(text, candidates, intents) == Some(MatchOf(text, intents[i]));
  }

  /** A specialised agent answers exactly when the catalogue has a qualifying intent for it. */
  lemma {:induction false} SpecialistIffIntent(w: World, sanitized: string)
    ensures Selected(w, "CLIENTE", sanitized) == "faq" <==> AnyQualifies(w.lower(sanitized), ["faq"], w.catalogue)
    ensures Selected(w, "DONO", sanitized) == "motor_preditivo" <==>
            AnyQualifies(w.lower(sanitized), ["motor_preditivo"], w.catalogue)
  {
    var text := w.lower(sanitized);
    assert Selected(w, "CLIENTE", sanitized) == match Chosen(text, ["faq"], w.catalogue)
      case Some(m) => if m.agent != "" then m.agent else "cliente"
      case None => "cliente";
    if Chosen(text, ["faq"], w.catalogue).Some? { ChosenIsAllowed(text, ["faq"], w.catalogue); }
    if Chosen(text, ["motor_preditivo"], w.catalogue).Some? { ChosenIsAllowed(text, ["motor_preditivo"], w.catalogue); }
  }

  /** The text an unblocked message is answered with, before the output filter. */
  ghost function Answer(w: World, agent: string, sanitized: string): string {
    Text(Released(w.reply(agent, sanitized), w.first, w.second), w.fallback)
  }

  /** A message the input guardrail refuses reaches no agent. */
  lemma {:induction false} RefusedAtTheDoor(w: World, userInput: string, userRole: string)
    requires Blocked(w, userInput).Some? && !w.raises(GuardIn)
    ensures Run(w, GuardIn, Start(userInput, userRole)).Some?
    ensures var f := Run(w, GuardIn, Start(userInput, userRole)).value;
            && f.visited == [GuardIn] && f.agentResponse == "" && !f.judgeApproved
            && f.finalResponse == w.blockText(Blocked(w, userInput).value)
  {
    hide Selected;
  }

  function Clean(w: World, userInput: string): string {
    if w.redactInput(userInput) != "" then w.redactInput(userInput) else userInput
  }

  /** Every other request that finishes visits one agent its role may reach, then the Judge, then the
      output filter; the agent's own reply goes on to the filter only under a verdict in favour. */
  lemma {:induction false} PipelineIsSafe(w: World, userInput: string, userRole: string)
    requires Blocked(w, userInput).None?
    requires Run(w, GuardIn, Start(userInput, userRole)).Some?
    ensures var f := Run(w, GuardIn, Start(userInput, userRole)).value;
            var agent := Selected(w, w.upper(userRole), Clean(w, userInput));
            && agent in Reach(w.upper(userRole))
            && f.visited == [GuardIn, LoadContext, Route, Agent(agent), Juiz, GuardOut]
            && f.finalResponse == Filtered(w, Answer(w, agent, Clean(w, userInput)))
            && (f.finalResponse == WITHHELD || (!w.leaks(f.finalResponse) && |f.finalResponse| <= MAX_RESPONSE))
            && f.judgeApproved == (InFavour(w.first) || InFavour(w.second))
  {
    hide Selected, Reach;
    RoutedWithinRole(w, w.upper(userRole), Clean(w, userInput));
    var s0 := Start(userInput, userRole);
    var s1 := Perform(w, GuardIn, s0);
    var s2 := Perform(w, LoadContext, s1);
    var s3 := Perform(w, Route, s2);
    var agent := Selected(w, w.upper(userRole), Clean(w, userInput));
    assert s3.selected == Some(agent) && Next(Route, s3) == To(Agent(agent));
    assert Run(w, GuardIn, s0) == Run(w, LoadContext, s1) == Run(w, Route, s2) == Run(w, Agent(agent), s3);
    FromTheAgent(w, agent, s3);
  }

  lemma FromTheAgent(w: World, agent: string, s: Chat)
    requires s.error.None? && Run(w, Agent(agent), s).Some?
    ensures var f := Run(w, Agent(agent), s).value;
            && f.visited == s.visited + [Agent(agent), Juiz, GuardOut]
            && f.finalResponse == Filtered(w, Answer(w, agent, s.sanitized))
            && f.judgeApproved == (InFavour(w.first) || InFavour(w.second))
  {
    hide Selected, Filtered, Released, InFavour;
    var s1 := Perform(w, Agent(agent), s);
    var s2 := Perform(w, Juiz, s1);
    assert Run(w, Agent(agent), s) == Run(w, Juiz, s1) == Run(w, GuardOut, s2);
  }

  /** Said of the finished request: the agent's own reply goes out, through the filter, exactly under a
      verdict in favour; otherwise a fixed text does, and "unavailable" exactly when both evaluations failed. */
  lemma {:induction false} ReleasedOnlyInFavour(w: World, userInput: string, userRole: string)
    requires Blocked(w, userInput).None?
    requires Run(w, GuardIn, Start(userInput, userRole)).Some?
    ensures var f := Run(w, GuardIn, Start(userInput, userRole)).value;
            var agent := Selected(w, w.upper(userRole), Clean(w, userInput));
            var refusal := Refusal(Decisive(w.first, w.second));
            && (f.judgeApproved ==> f.finalResponse == Filtered(w, w.reply(agent, Clean(w, userInput))))
            && (!f.judgeApproved ==> f.finalResponse == Filtered(w, w.fallback(refusal)))
            && (!f.judgeApproved ==> (refusal == Unavailable <==> !Valid(w.first) && !Valid(w.second)))
            && (f.judgeApproved <==> InFavour(w.first) || InFavour(w.second))
  {
    PipelineIsSafe(w, userInput, userRole);
    var agent := Selected(w, w.upper(userRole), Clean(w, userInput));
    FailsClosed(w.reply(agent, Clean(w, userInput)), w.first, w.second);
    hide Selected, Run, Filtered, InFavour, Valid, Decisive, Refusal;
  }

  // ---- The same, in plain terms ----

  predicate OnlySpace(text: string) {
    forall c | c in text :: IsSpace(c)
  }

  /** Which messages are refused, and why: the first of these that holds. */
  lemma RefusedFor(w: World, userInput: string)
    ensures Blocked(w, userInput) ==
      if OnlySpace(userInput) then Some(EmptyMessage)
      else if |userInput| > 4096 then Some(TooLong)
      else if w.injection(userInput) then Some(Injection)
      else if !w.withinRate then Some(RateLimited)
      else None
  {
    assert OnlySpace(userInput) <==> Blank(userInput);
  }

  /** A finished request was refused at the door, with no agent's word and the text of the first reason that
      holds, exactly when its message is empty, too long, an injection or over the rate; every other one
      visits an agent. */
  lemma {:induction false} RefusedIff(w: World, userInput: string, userRole: string)
    requires Run(w, GuardIn, Start(userInput, userRole)).Some?
    ensures var f := Run(w, GuardIn, Start(userInput, userRole)).value;
            var refused := OnlySpace(userInput) || |userInput| > 4096 || w.injection(userInput) || !w.withinRate;
            && (f.visited == [GuardIn] <==> refused)
            && (refused ==> f.agentResponse == "" && !f.judgeApproved && f.finalResponse == w.blockText(
                  if OnlySpace(userInput) then EmptyMessage
                  else if |userInput| > 4096 then TooLong
                  else if w.injection(userInput) then Injection else RateLimited))
            && (!refused ==> exists name :: name in {"cliente", "faq", "funcionario", "dono", "motor_preditivo"} && Agent(name) in f.visited)
  {
    RefusedFor(w, userInput);
    hide Blocked, Selected, Filtered, Reach, OnlySpace;
    if Blocked(w, userInput).Some? {
      RefusedAtTheDoor(w, userInput, userRole);
    } else {
      PipelineIsSafe(w, userInput, userRole);
      var agent := Selected(w, w.upper(userRole), Clean(w, userInput));
      RoutedWithinRole(w, w.upper(userRole), Clean(w, userInput));
      hide Run;
      var f := Run(w, GuardIn, Start(userInput, userRole)).value;
      assert f.visited[3] == Agent(agent) && agent in AGENTS;
    }
  }

  /** What the user reads after an approved answer: the agent's reply to the redacted message (or to the
      message, if redaction leaves nothing), redacted again, unless that leaks or is longer than 8192. */
  lemma {:induction false} ApprovedAnswerIs(w: World, userInput: string, userRole: string)
    requires Blocked(w, userInput).None? && Run(w, GuardIn, Start(userInput, userRole)).Some?
    requires InFavour(w.first) || InFavour(w.second)
    ensures var f := Run(w, GuardIn, Start(userInput, userRole)).value;
            var asked := if w.redactInput(userInput) == "" then userInput else w.redactInput(userInput);
            exists agent :: agent in Reach(w.upper(userRole)) && Agent(agent) in f.visited &&
              var out := w.redactOutput(w.reply(agent, asked));
              f.finalResponse == if w.leaks(out) || |out| > 8192 then "Não consigo fornecer essa informação no momento." else out
  {
    PipelineIsSafe(w, userInput, userRole);
    ReleasedOnlyInFavour(w, userInput, userRole);
    hide Run, Selected, InFavour, Reach, Blocked;
    var f := Run(w, GuardIn, Start(userInput, userRole)).value;
    assert f.visited[3] == Agent(Selected(w, w.upper(userRole), Clean(w, userInput)));
  }

  /** Only a node that raises keeps a request from finishing. */
  lemma {:induction false} FinishesUnlessANodeRaises(w: World, userInput: string, userRole: string)
    requires forall node :: !w.raises(node)
    ensures Run(w, GuardIn, Start(userInput, userRole)).Some?
  {
    hide Selected;
    if Blocked(w, userInput).None? {
      RoutedWithinRole(w, w.upper(userRole), Clean(w, userInput));
      var agent := Selected(w, w.upper(userRole), Clean(w, userInput));
      var s2 := Perform(w, LoadContext, Perform(w, GuardIn, Start(userInput, userRole)));
      var s3 := Perform(w, Route, s2);
      assert s3.selected == Some(agent);
      var s5 := Perform(w, Juiz, Perform(w, Agent(agent), s3));
      assert Run(w, GuardOut, s5).Some?;
      assert Run(w, Agent(agent), s3).Some?;
      assert Run(w, Route, s2).Some?;
    }
  }
}

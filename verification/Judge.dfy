/** The Judge's verdict on an answer: node_agente_juiz (app/agents/juiz.py). */
module Judge {
  import opened Wrappers

  // ---- What the judge model may send back ----

  datatype Flag = Bool(value: bool) | NotBool

  datatype Score = Number(value: real) | NotNumber

  datatype Usage = Usage(input: nat, output: nat)

  /** One evaluation call: it raises, or answers something that may not be the JSON object asked for. */
  datatype Call =
    | Raised
    | Unreadable(usage: Usage)
    | Object(usage: Usage, approved: Flag, scopeOk: Flag, groundingOk: Flag, score: Score)

  datatype Evaluation = Evaluation(approved: bool, scopeOk: bool, groundingOk: bool, score: real)

  const FAILED_EVALUATION: Evaluation := Evaluation(false, false, false, 0.0)

  /** The call produced a verdict. */
  predicate Valid(c: Call) {
    && c.Object? && c.approved.Bool? && c.scopeOk.Bool? && c.groundingOk.Bool?
    && c.score.Number? && 0.0 <= c.score.value <= 1.0
  }

  function UsageOf(c: Call): Usage {
    if c.Raised? then Usage(0, 0) else c.usage
  }

  function Add(a: Usage, b: Usage): Usage {
    Usage(a.input + b.input, a.output + b.output)
  }

  /** A verdict in favour: all three flags and at least 0.7. */
  predicate InFavour(c: Call) {
    Valid(c) && c.approved.value && c.scopeOk.value && c.groundingOk.value && c.score.value >= 0.7
  }

  /** Which of the fixed texts stands in for a refused answer; their wording is a parameter. */
  datatype Fallback = Unavailable | OutOfScope | Ungrounded | Unsure

  datatype Response = Own(answer: string) | Fixed(fallback: Fallback)

  function Text(r: Response, wording: Fallback -> string): string {
    match r
    case Own(answer) => answer
    case Fixed(fallback) => wording(fallback)
  }

  // ---- The decision ----

  /** The verdict a refusal is explained by: the first one, if there is one. */
  function Decisive(first: Call, second: Call): Call {
    if Valid(first) then first else second
  }

  function Refusal(c: Call): Fallback {
    if !Valid(c) then Unavailable
    else if !c.scopeOk.value then OutOfScope
    else if !c.groundingOk.value then Ungrounded
    else Unsure
  }

  /** What an answer becomes under the two possible evaluations. */
  function Released(answer: string, first: Call, second: Call): Response {
    if InFavour(first) || InFavour(second) then Own(answer) else Fixed(Refusal(Decisive(first, second)))
  }

  function EvaluationOf(c: Call): Evaluation {
    if Valid(c) then Evaluation(c.approved.value, c.scopeOk.value, c.groundingOk.value, c.score.value)
    else FAILED_EVALUATION
  }

  /** One evaluation; fails closed. */
  method RunJudgeEvaluation(c: Call, usage: Usage) returns (evaluation: Evaluation, unavailable: bool, total: Usage)
    ensures unavailable <==> !Valid(c)
    ensures evaluation == EvaluationOf(c)
    ensures total == Add(usage, UsageOf(c))
    ensures total == if c.Raised? then usage else Usage(usage.input + c.usage.input, usage.output + c.usage.output)
  {
    total := usage;
    if c.Raised? {
      return FAILED_EVALUATION, true, total;
    }
    total := Usage(usage.input + c.usage.input, usage.output + c.usage.output);
    if c.Unreadable? || c.approved.NotBool? || c.scopeOk.NotBool? || c.groundingOk.NotBool? {
      return FAILED_EVALUATION, true, total;
    }
    if c.score.NotNumber? || c.score.value < 0.0 || c.score.value > 1.0 {
      return FAILED_EVALUATION, true, total;
    }
    evaluation := Evaluation(c.approved.value, c.scopeOk.value, c.groundingOk.value, c.score.value);
    unavailable := false;
  }

  function Approved(e: Evaluation): bool {
    e.approved && e.scopeOk && e.groundingOk && e.score >= 0.7
  }

  lemma ApprovedIffInFavour(c: Call)
    ensures Approved(EvaluationOf(c)) <==> InFavour(c)
  {
  }

  /** The evaluation that is kept. */
  function Kept(first: Call, second: Call): Call {
    if InFavour(first) || (Valid(first) && !InFavour(second)) then first else second
  }

  lemma KeptDecides(answer: string, first: Call, second: Call)
    ensures InFavour(Kept(first, second)) <==> InFavour(first) || InFavour(second)
    ensures Released(answer, first, second) ==
            if InFavour(Kept(first, second)) then Own(answer) else Fixed(Refusal(Kept(first, second)))
    ensures Valid(Kept(first, second)) <==> Valid(first) || Valid(second)
    ensures 0.0 <= EvaluationOf(Kept(first, second)).score <= 1.0
    ensures InFavour(Kept(first, second)) ==> EvaluationOf(Kept(first, second)).score >= 0.7
  {
  }

  lemma RefusalOf(c: Call)
    ensures Refusal(c) == if !Valid(c) then Unavailable
                          else if !EvaluationOf(c).scopeOk then OutOfScope
                          else if !EvaluationOf(c).groundingOk then Ungrounded else Unsure
  {
  }

  lemma AddNothing(u: Usage)
    ensures Add(Usage(0, 0), u) == u
  {
  }

  /** The evaluation that stands, whether it is missing, and what it cost. */
  method Evaluate(first: Call, second: Call) returns (evaluation: Evaluation, unavailable: bool, calls: nat, usage: Usage)
    ensures evaluation == EvaluationOf(Kept(first, second)) && unavailable == !Valid(Kept(first, second))
    ensures calls == if InFavour(first) then 1 else 2
    ensures usage == if InFavour(first) then UsageOf(first) else Add(UsageOf(first), UsageOf(second))
  {
    ApprovedIffInFavour(first);
    ApprovedIffInFavour(second);
    InFavourIsValid(first);
    InFavourIsValid(second);
    AddNothing(UsageOf(first));
    hide EvaluationOf, Approved, InFavour, Valid, Add, UsageOf;
    evaluation, unavailable, usage := RunJudgeEvaluation(first, Usage(0, 0));
    calls := 1;
    if !Approved(evaluation) {
      var retry, retryUnavailable;
      retry, retryUnavailable, usage := RunJudgeEvaluation(second, usage);
      calls := 2;
      if Approved(retry) || (unavailable && !retryUnavailable) {
        evaluation, unavailable := retry, retryUnavailable;
      }
    }
  }

  /** The node: at most two evaluations, then the answer or a fixed text. */
  method NodeAgenteJuiz(answer: string, first: Call, second: Call)
    returns (response: Response, approved: bool, score: real, calls: nat, usage: Usage)
    ensures approved <==> InFavour(first) || InFavour(second)
    ensures response == Released(answer, first, second)
    ensures calls == if InFavour(first) then 1 else 2
    ensures usage == if InFavour(first) then UsageOf(first) else Add(UsageOf(first), UsageOf(second))
    ensures score == EvaluationOf(Kept(first, second)).score
    ensures 0.0 <= score <= 1.0 && (approved ==> score >= 0.7)
  {
    KeptDecides(answer, first, second);
    RefusalOf(Kept(first, second));
    ApprovedIffInFavour(Kept(first, second));
    hide *;
    var evaluation, unavailable;
    evaluation, unavailable, calls, usage := Evaluate(first, second);
    approved, score := Approved(evaluation), evaluation.score;
    if approved {
      response := Own(answer);
    } else if unavailable {
      response := Fixed(Unavailable);
    } else if !evaluation.scopeOk {
      response := Fixed(OutOfScope);
    } else if !evaluation.groundingOk {
      response := Fixed(Ungrounded);
    } else {
      response := Fixed(Unsure);
    }
  }

  lemma InFavourIsValid(c: Call)
    ensures InFavour(c) ==> Valid(c)
    ensures !Valid(c) ==> EvaluationOf(c) == FAILED_EVALUATION
  {
  }

  /** The agent's own words come out only under a verdict in favour; "unavailable" is said exactly
      when neither evaluation gave a verdict; a refusal is explained by a verdict that made it. */
  lemma {:induction false} FailsClosed(answer: string, first: Call, second: Call)
    ensures Released(answer, first, second).Own? <==> InFavour(first) || InFavour(second)
    ensures Released(answer, first, second).Own? ==> Released(answer, first, second) == Own(answer)
    ensures Released(answer, first, second) == Fixed(Unavailable) <==> !Valid(first) && !Valid(second)
    ensures Released(answer, first, second) == Fixed(OutOfScope) ==> FoundOutOfScope(first) || FoundOutOfScope(second)
    ensures Released(answer, first, second) == Fixed(Ungrounded) ==> FoundUngrounded(first) || FoundUngrounded(second)
    ensures Released(answer, first, second) == Fixed(Unsure) ==> FoundWeak(first) || FoundWeak(second)
  {
  }

  predicate FoundOutOfScope(c: Call) { Valid(c) && !c.scopeOk.value }

  predicate FoundUngrounded(c: Call) { Valid(c) && !c.groundingOk.value }

  predicate FoundWeak(c: Call) { Valid(c) && (!c.approved.value || c.score.value < 0.7) }

  // ---- The decision, in plain terms ----

  /** Three booleans and a number from 0 to 1. */
  predicate Wellformed(c: Call) {
    c.Object? && c.approved.Bool? && c.scopeOk.Bool? && c.groundingOk.Bool? && c.score.Number? && 0.0 <= c.score.value <= 1.0
  }

  /** All flags true and a score from 0.7 to 1. */
  predicate Favourable(c: Call) {
    && c.Object? && c.approved == Bool(true) && c.scopeOk == Bool(true) && c.groundingOk == Bool(true)
    && c.score.Number? && 0.7 <= c.score.value <= 1.0
  }

  /** The first evaluation that says anything, if it is not in favour. */
  function TextFor(c: Call): Fallback
    requires Wellformed(c)
  {
    if c.scopeOk == Bool(false) then OutOfScope else if c.groundingOk == Bool(false) then Ungrounded else Unsure
  }

  /** The answer goes out exactly when one of the two evaluations is favourable; otherwise the first
      well-formed one chooses the text, and without one it is "unavailable". */
  lemma {:induction false} DecidedBy(answer: string, first: Call, second: Call)
    ensures Released(answer, first, second) ==
      if Favourable(first) || Favourable(second) then Own(answer)
      else if Wellformed(first) then Fixed(TextFor(first))
      else if Wellformed(second) then Fixed(TextFor(second))
      else Fixed(Unavailable)
    ensures (InFavour(first) || InFavour(second)) <==> (Favourable(first) || Favourable(second))
  {
  }

  /** The tokens of both calls are counted, whatever they answered; a call that raised has none. */
  lemma {:induction false} TokensOfBoth(first: Call, second: Call)
    ensures var u := Add(UsageOf(first), UsageOf(second));
            && u.input == (if first.Raised? then 0 else first.usage.input) + (if second.Raised? then 0 else second.usage.input)
            && u.output == (if first.Raised? then 0 else first.usage.output) + (if second.Raised? then 0 else second.usage.output)
  {
  }

  /** A second opinion can only help: it never turns a released answer into a refusal. */
  lemma {:induction false} RetryOnlyHelps(answer: string, first: Call, second: Call)
    ensures Released(answer, first, Raised).Own? ==> Released(answer, first, second).Own?
    ensures Valid(first) && !InFavour(second) ==> Released(answer, first, second) == Released(answer, first, Raised)
  {
  }
}

/**
 * The local stand-in for the agent framework: decorators that return
 * what they decorate, three record classes whose constructors only
 * default their arguments, and `Crew.kickoff`, which dispatches on the
 * requested action to the task functions of the crew module and falls
 * back to fixed answers when those are missing, raise, or return
 * something unexpected.
 */
module Crewai {
  import opened Wrappers
  import opened PyJson
  import opened Scoring

  /** `@agent`. */
  function AgentDecorator<F>(fn: F): F {
    fn
  }

  /** `@task(agent=...)`: the agent argument is ignored, the decorator returns the function. */
  function TaskDecorator<A, F>(agent: A): F -> F {
    fn => fn
  }

  /** `@crew`. */
  function CrewDecorator<F>(fn: F): F {
    fn
  }

  /** Decorating changes nothing: each decorator gives back the very function it received. */
  lemma DecoratorsAreIdentities<A, F>(agent: A, fn: F)
    ensures AgentDecorator(fn) == fn
    ensures TaskDecorator<A, F>(agent)(fn) == fn
    ensures CrewDecorator(fn) == fn
  {
  }

  datatype Agent = Agent(name: Option<string>, description: Option<string>)

  datatype Task = Task(result: Json)

  datatype Crew = Crew(agents: seq<Agent>)
  {
    /**
     * `Crew.kickoff(inputs)`. `imported` says whether importing the crew
     * module succeeded; `generate` and `evaluate` are its
     * `generate_questions_task` and `evaluate_answers_task`, of which only the
     * one the action names is called.
     */
    function Kickoff(inputs: Inputs, imported: bool, generate: Inputs -> CallResult, evaluate: Inputs -> CallResult): (r: Json)
      ensures !imported ==> r == EmptyObject
      ensures inputs.action.GetOr("") !in {"generate_questions", "evaluate_answers"} ==> r == EmptyObject
    {
      if !imported then EmptyObject
      else
        var action := inputs.action.GetOr("");
        if action == "generate_questions" then
          match PassThrough(generate(inputs))
          case Some(v) => v
          case None => QuestionsPayload(FallbackQuestions(inputs.company.GetOr("Company"), inputs.role.GetOr("Role")))
        else if action == "evaluate_answers" then
          match PassThrough(evaluate(inputs))
          case Some(v) => v
          case None => ReportPayload(ReportJson(FallbackReport(inputs.answers.GetOr([]), inputs.company.GetOr("company"))))
        else EmptyObject
    }
  }

  /** `Task(result)`: `self.result = result or {}`. */
  function NewTask(result: Option<Json>): (t: Task)
    ensures t.result == EmptyObject || Truthy(t.result)
    ensures result.Some? && Truthy(result.value) ==> t.result == result.value
    ensures !(result.Some? && Truthy(result.value)) ==> t.result == EmptyObject
  {
    if result.Some? && Truthy(result.value) then Task(result.value) else Task(EmptyObject)
  }

  /** `Crew(agents)`: `self.agents = agents or []`. */
  function NewCrew(agents: Option<seq<Agent>>): (c: Crew)
    ensures agents.Some? ==> c.agents == agents.value
    ensures agents.None? ==> c.agents == []
  {
    if agents.Some? && agents.value != [] then Crew(agents.value) else Crew([])
  }

  /** The dictionary handed to `kickoff`; a key the caller left out is None. */
  datatype Inputs = Inputs(
    action: Option<string>,
    company: Option<string>,
    role: Option<string>,
    answers: Option<seq<AnswerRecord>>)

  /** What looking up and calling a task function of the crew module gave. */
  datatype CallResult =
    | Missing            // no such callable attribute
    | Raised             // the call raised
    | GotTask(task: Task)
    | GotValue(value: Json)

  /** `{"questions": qs}`. */
  function QuestionsPayload(qs: seq<Json>): (p: Json)
    ensures Truthy(p)
  {
    var m := map["questions" := List(qs)];
    assert "questions" in m;
    Object(m)
  }

  /** `{"report": r}`. */
  function ReportPayload(r: Json): (p: Json)
    ensures Truthy(p)
  {
    var m := map["report" := r];
    assert "report" in m;
    Object(m)
  }

  /** The fixed questions `kickoff` answers with when question generation gives nothing usable. */
  function FallbackQuestions(company: string, role: string): (qs: seq<Json>)
    ensures |qs| == 4
    ensures forall i :: 0 <= i < |qs| ==> AsksAbout(qs[i], company)
  {
    [ TemplatedQuestion("What are the key programming concepts for a " + role + " at ", company, "?"),
      TemplatedQuestion("How would you design a scalable web app for ", company, "?"),
      TemplatedQuestion("Which databases suit ", company, " and why?"),
      TemplatedQuestion("Describe solving a large-scale performance issue at ", company, ".") ]
  }

  /** The heuristic report `kickoff` answers with when evaluation gives nothing usable: thresholds 400/250/150. */
  function FallbackReport(answers: seq<AnswerRecord>, company: string): (r: Report)
    ensures r.overall == TierOfAverage(AverageLength(answers), 150)
    ensures DerivedFrom(r.topics, r.overall) && ScoresInRange(r)
    ensures r.strengths == ["Clear problem solving", "Good technical foundation"]
    ensures r.weaknesses == ["Add more " + company + "-specific examples"]
  {
    HeuristicReport(BaseScore(TotalChars(answers), |answers|, 150),
      ["Clear problem solving", "Good technical foundation"],
      ["Add more " + company + "-specific examples"])
  }

  /** `kickoff` returns a task's result, or a dictionary, unchanged; anything else is not passed through. */
  function PassThrough(out: CallResult): Option<Json> {
    match out
    case GotTask(t) => Some(t.result)
    case GotValue(v) => if v.Object? then Some(v) else None
    case _ => None
  }

  /** For a known action after a successful import, a task result or a dictionary is returned exactly as the task gave it. */
  lemma KickoffPassesThrough(crew: Crew, inputs: Inputs, generate: Inputs -> CallResult, evaluate: Inputs -> CallResult)
    requires inputs.action == Some("generate_questions") || inputs.action == Some("evaluate_answers")
    ensures var out := if inputs.action == Some("generate_questions") then generate(inputs) else evaluate(inputs);
            PassThrough(out).Some? ==> crew.Kickoff(inputs, true, generate, evaluate) == PassThrough(out).value
  {
  }

  /** Question generation that is missing, raises or returns a non-dictionary yields four questions about the company ("Company" when absent). */
  lemma KickoffQuestionsFallback(crew: Crew, inputs: Inputs, generate: Inputs -> CallResult, evaluate: Inputs -> CallResult)
    requires inputs.action == Some("generate_questions") && PassThrough(generate(inputs)).None?
    ensures exists qs :: crew.Kickoff(inputs, true, generate, evaluate) == QuestionsPayload(qs)
              && |qs| == 4 && forall i :: 0 <= i < |qs| ==> AsksAbout(qs[i], inputs.company.GetOr("Company"))
    ensures crew.Kickoff(inputs, true, generate, evaluate)
            == QuestionsPayload(FallbackQuestions(inputs.company.GetOr("Company"), inputs.role.GetOr("Role")))
  {
    var qs := FallbackQuestions(inputs.company.GetOr("Company"), inputs.role.GetOr("Role"));
    assert crew.Kickoff(inputs, true, generate, evaluate) == QuestionsPayload(qs);
  }

  /** Evaluation that is missing, raises or returns a non-dictionary yields a heuristic report over the given answers (none when absent). */
  lemma KickoffReportFallback(crew: Crew, inputs: Inputs, generate: Inputs -> CallResult, evaluate: Inputs -> CallResult)
    requires inputs.action == Some("evaluate_answers") && PassThrough(evaluate(inputs)).None?
    ensures var r := FallbackReport(inputs.answers.GetOr([]), inputs.company.GetOr("company"));
            crew.Kickoff(inputs, true, generate, evaluate) == ReportPayload(ReportJson(r))
            && r.overall == TierOfAverage(AverageLength(inputs.answers.GetOr([])), 150)
  {
  }
}

/**
 * The crew module: two task functions that ask a list of language models,
 * strictly in order, for questions or for a report, cut the JSON out of
 * each free-text reply between the first opening and the last closing
 * bracket, accept the first reply that qualifies, and otherwise fall back
 * to fixed questions or a length heuristic.
 *
 * A model call is the parameter `gemini`: the reply text for a model name
 * and a prompt, or None when the call raised. `json.loads` is the
 * parameter `parse`: the parsed value, or None when it raised.
 */
module CrewAgents {
  import opened Wrappers
  import opened Text
  import opened PyJson
  import opened Scoring
  import Crewai

  /** The model names, in the order they are tried. */
  const ModelNames: seq<string> := ["gemini-2.0-flash", "gemini-2.0-flash-lite", "gemini-pro-latest"]

  /** What a prompt is built from; its remaining wording is fixed text. */
  datatype Prompt =
    | QuestionsPrompt(company: string, role: string)
    | EvaluationPrompt(company: string, role: string, answers: seq<AnswerRecord>)

  /** `question_generator()` and `evaluator()`. */
  const QuestionGenerator: Crewai.Agent :=
    Crewai.Agent(Some("question_generator"), Some("Generate 6-8 technical interview questions for a role at a company."))

  const Evaluator: Crewai.Agent :=
    Crewai.Agent(Some("answer_evaluator"), Some("Evaluate candidate answers and produce a JSON report"))

  /** `interview_crew()`: a crew of the two agents. */
  function InterviewCrew(): (c: Crewai.Crew)
    ensures |c.agents| == 2
  {
    Crewai.NewCrew(Some([QuestionGenerator, Evaluator]))
  }

  /**
   * The bracketed part of a reply: from the first `open` through the last
   * `close`, as `text[text.find(open):text.rfind(close) + 1]`; None when
   * `open` is absent. The `end != -1` test of the source always passes.
   */
  function Extract(text: string, open: char, close: char): Option<string> {
    var start := Find(text, open);
    var end := RFind(text, close) + 1;
    if start != -1 && end != -1 then Some(Slice(text, start, end)) else None
  }

  /** Extraction fails only without an opening bracket; otherwise it is the inclusive span, or empty when no closing bracket follows. */
  lemma ExtractSpec(text: string, open: char, close: char)
    requires open != close
    ensures Extract(text, open, close).None? <==> open !in text
    ensures open in text && close in text && Find(text, open) < RFind(text, close)
            ==> Extract(text, open, close) == Some(text[Find(text, open)..RFind(text, close) + 1])
    ensures open in text && (close !in text || RFind(text, close) < Find(text, open))
            ==> Extract(text, open, close) == Some([])
    ensures Extract(text, open, close).Some? && Extract(text, open, close).value != []
            ==> var s := Extract(text, open, close).value;
                s[0] == open && s[|s| - 1] == close && open !in text[..Find(text, open)] && close !in text[RFind(text, close) + 1..]
  {
  }

  /** One question attempt: the reply's `[`…`]` part parses to a list of at least four entries (their shape is not checked). */
  function QuestionsAttempt(reply: Option<string>, parse: string -> Option<Json>): (r: Option<seq<Json>>)
    ensures r.Some? ==> |r.value| >= 4
    ensures r.Some? <==> reply.Some? && Extract(Strip(reply.value), '[', ']').Some?
                         && var p := parse(Extract(Strip(reply.value), '[', ']').value);
                            p.Some? && p.value.List? && |p.value.items| >= 4
    ensures r.Some? ==> r.value == parse(Extract(Strip(reply.value), '[', ']').value).value.items
  {
    if reply.None? then None
    else match Extract(Strip(reply.value), '[', ']')
      case None => None
      case Some(s) =>
        var arr := parse(s);
        if arr.Some? && arr.value.List? && |arr.value.items| >= 4 then Some(arr.value.items) else None
  }

  /** One report attempt: the reply's `{`…`}` part parses, to anything at all. */
  function ReportAttempt(reply: Option<string>, parse: string -> Option<Json>): (r: Option<Json>)
    ensures r.Some? <==> reply.Some? && Extract(Strip(reply.value), '{', '}').Some?
                         && parse(Extract(Strip(reply.value), '{', '}').value).Some?
    ensures r.Some? ==> r == parse(Extract(Strip(reply.value), '{', '}').value)
  {
    if reply.None? then None
    else match Extract(Strip(reply.value), '{', '}')
      case None => None
      case Some(s) => parse(s)
  }

  /** A reply without a closing bracket leaves an empty slice, which `json.loads` rejects: the attempt fails. */
  lemma MissingCloseFails(reply: string, parse: string -> Option<Json>)
    requires parse([]) == None
    ensures ']' !in Strip(reply) ==> QuestionsAttempt(Some(reply), parse) == None
    ensures '}' !in Strip(reply) ==> ReportAttempt(Some(reply), parse) == None
  {
    ExtractSpec(Strip(reply), '[', ']');
    ExtractSpec(Strip(reply), '{', '}');
  }

  /** The first success of `attempt` over `names`, in order. */
  function FirstSuccess<T>(names: seq<string>, attempt: string -> Option<T>): (r: Option<T>)
    ensures r.None? <==> forall i :: 0 <= i < |names| ==> attempt(names[i]).None?
    ensures r.Some? ==> exists i :: 0 <= i < |names| && attempt(names[i]) == r
    decreases |names|
  {
    if names == [] then None
    else if attempt(names[0]).Some? then attempt(names[0])
    else FirstSuccess(names[1..], attempt)
  }

  /** Names are tried strictly in order: the result is the attempt at the first name that succeeds. */
  lemma {:induction false} FirstSuccessAt<T>(names: seq<string>, attempt: string -> Option<T>, i: nat)
    requires i < |names| && attempt(names[i]).Some?
    requires forall j :: 0 <= j < i ==> attempt(names[j]).None?
    ensures FirstSuccess(names, attempt) == attempt(names[i])
    decreases i
  {
    if i > 0 {
      assert names[1..][i - 1] == names[i];
      forall j | 0 <= j < i - 1 ensures attempt(names[1..][j]).None? {
        assert names[1..][j] == names[j + 1];
      }
      FirstSuccessAt(names[1..], attempt, i - 1);
    }
  }

  /** The four fixed questions of the crew module (a slightly different wording from the other two copies). */
  function FallbackQuestions(company: string, role: string): (qs: seq<Json>)
    ensures |qs| == 4
    ensures forall i :: 0 <= i < |qs| ==> AsksAbout(qs[i], company)
  {
    [ TemplatedQuestion("What are the key programming concepts for " + role + " at ", company, "?"),
      TemplatedQuestion("How would you design a scalable web app for ", company, "?"),
      TemplatedQuestion("Which databases suit ", company, " and why?"),
      TemplatedQuestion("Describe solving a large-scale performance issue at ", company, ".") ]
  }

  /** The crew module's heuristic report: thresholds 400/250/120 and a single weakness. */
  function FallbackReport(answers: seq<AnswerRecord>, company: string): (r: Report)
    ensures r.overall == TierOfAverage(AverageLength(answers), 120)
    ensures DerivedFrom(r.topics, r.overall) && ScoresInRange(r)
    ensures r.strengths == ["Clear explanations", "Good problem solving"]
    ensures r.weaknesses == ["Could include more " + company + "-specific examples"]
  {
    HeuristicReport(BaseScore(TotalChars(answers), |answers|, 120),
      ["Clear explanations", "Good problem solving"],
      ["Could include more " + company + "-specific examples"])
  }

  /** Whatever reply is accepted holds at least four entries. */
  lemma QuestionsSearchAtLeastFour(company: string, role: string, gemini: (string, Prompt) -> Option<string>,
                                   parse: string -> Option<Json>)
    ensures var r := FirstSuccess(ModelNames, name => QuestionsAttempt(gemini(name, QuestionsPrompt(company, role)), parse));
            r.Some? ==> |r.value| >= 4
  {
    var attempt := name => QuestionsAttempt(gemini(name, QuestionsPrompt(company, role)), parse);
    var r := FirstSuccess(ModelNames, attempt);
    if r.Some? {
      var i :| 0 <= i < |ModelNames| && attempt(ModelNames[i]) == r;
      assert QuestionsAttempt(gemini(ModelNames[i], QuestionsPrompt(company, role)), parse) == r;
    }
  }

  /** The questions `generate_questions_task` settles on: the first accepted reply, else the fallback. */
  function GeneratedQuestions(company: string, role: string, gemini: (string, Prompt) -> Option<string>,
                              parse: string -> Option<Json>): (qs: seq<Json>)
    ensures |qs| >= 4
  {
    QuestionsSearchAtLeastFour(company, role, gemini, parse);
    match FirstSuccess(ModelNames, name => QuestionsAttempt(gemini(name, QuestionsPrompt(company, role)), parse))
    case Some(arr) => arr
    case None => FallbackQuestions(company, role)
  }

  /** What calling `generate_questions_task(inputs)` gives: a KeyError without company or role, else a task. */
  function GenerateQuestionsCall(inputs: Crewai.Inputs, gemini: (string, Prompt) -> Option<string>,
                                 parse: string -> Option<Json>): Crewai.CallResult
  {
    if inputs.company.None? || inputs.role.None? then Crewai.Raised
    else Crewai.GotTask(Crewai.NewTask(Some(Crewai.QuestionsPayload(
      GeneratedQuestions(inputs.company.value, inputs.role.value, gemini, parse)))))
  }

  /** The loop of `generate_questions_task`: ask each model in order and stop at the first reply holding a list of at least four entries. */
  method AskForQuestions(company: string, role: string, gemini: (string, Prompt) -> Option<string>,
                         parse: string -> Option<Json>) returns (found: Option<seq<Json>>)
    ensures found == FirstSuccess(ModelNames, name => QuestionsAttempt(gemini(name, QuestionsPrompt(company, role)), parse))
    ensures found.Some? ==> |found.value| >= 4
  {
    var prompt := QuestionsPrompt(company, role);
    ghost var attempt := name => QuestionsAttempt(gemini(name, prompt), parse);
    var i := 0;
    while i < |ModelNames|
      invariant 0 <= i <= |ModelNames|
      invariant forall j :: 0 <= j < i ==> attempt(ModelNames[j]).None?
    {
      var questions := QuestionsAttempt(gemini(ModelNames[i], prompt), parse);
      if questions.Some? {
        FirstSuccessAt(ModelNames, attempt, i);
        return questions;
      }
      i := i + 1;
    }
    return None;
  }

  /** `generate_questions_task`: a KeyError without company or role; else the first accepted reply's list, or the fallback questions. */
  method GenerateQuestionsTask(inputs: Crewai.Inputs, gemini: (string, Prompt) -> Option<string>,
                               parse: string -> Option<Json>) returns (out: Crewai.CallResult)
    ensures out == GenerateQuestionsCall(inputs, gemini, parse)
    ensures out.Raised? <==> inputs.company.None? || inputs.role.None?
    ensures out.GotTask? ==> exists qs :: out.task.result == Crewai.QuestionsPayload(qs) && |qs| >= 4
  {
    if inputs.company.None? || inputs.role.None? {
      return Crewai.Raised;
    }
    var company, role := inputs.company.value, inputs.role.value;
    var found := AskForQuestions(company, role, gemini, parse);
    var questions := if found.Some? then found.value else FallbackQuestions(company, role);
    return Crewai.GotTask(Crewai.NewTask(Some(Crewai.QuestionsPayload(questions))));
  }

  /** With company and role given, the task yields `{"questions": qs}` for the questions it settles on, which number at least four. */
  lemma GenerateQuestionsAlwaysFour(company: string, role: string, gemini: (string, Prompt) -> Option<string>,
                                    parse: string -> Option<Json>)
    ensures var out := GenerateQuestionsCall(Crewai.Inputs(Some("generate_questions"), Some(company), Some(role), None), gemini, parse);
            out.GotTask? && out.task.result == Crewai.QuestionsPayload(GeneratedQuestions(company, role, gemini, parse))
  {
  }

  /** When every model fails, the questions are exactly the four fallback ones, each naming the company. */
  lemma GenerateQuestionsAllFail(company: string, role: string, gemini: (string, Prompt) -> Option<string>,
                                 parse: string -> Option<Json>)
    requires forall i :: 0 <= i < |ModelNames| ==> QuestionsAttempt(gemini(ModelNames[i], QuestionsPrompt(company, role)), parse).None?
    ensures GeneratedQuestions(company, role, gemini, parse) == FallbackQuestions(company, role)
  {
  }

  /** The first model whose reply qualifies decides the questions, whatever the later models would reply. */
  lemma GenerateQuestionsFirstAccepted(company: string, role: string, gemini: (string, Prompt) -> Option<string>,
                                       parse: string -> Option<Json>, i: nat)
    requires i < |ModelNames|
    requires QuestionsAttempt(gemini(ModelNames[i], QuestionsPrompt(company, role)), parse).Some?
    requires forall j :: 0 <= j < i ==> QuestionsAttempt(gemini(ModelNames[j], QuestionsPrompt(company, role)), parse).None?
    ensures GeneratedQuestions(company, role, gemini, parse)
            == QuestionsAttempt(gemini(ModelNames[i], QuestionsPrompt(company, role)), parse).value
  {
    var attempt := name => QuestionsAttempt(gemini(name, QuestionsPrompt(company, role)), parse);
    FirstSuccessAt(ModelNames, attempt, i);
  }

  /** The report `evaluate_answers_task` settles on: the first reply whose `{`…`}` part parses, else the heuristic. */
  function EvaluatedReport(company: string, role: string, answers: seq<AnswerRecord>,
                           gemini: (string, Prompt) -> Option<string>, parse: string -> Option<Json>): Json
  {
    match FirstSuccess(ModelNames, name => ReportAttempt(gemini(name, EvaluationPrompt(company, role, answers)), parse))
    case Some(j) => j
    case None => ReportJson(FallbackReport(answers, company))
  }

  /** What calling `evaluate_answers_task(inputs)` gives: a KeyError without company or role, else a task. */
  function EvaluateAnswersCall(inputs: Crewai.Inputs, gemini: (string, Prompt) -> Option<string>,
                               parse: string -> Option<Json>): Crewai.CallResult
  {
    if inputs.company.None? || inputs.role.None? then Crewai.Raised
    else Crewai.GotTask(Crewai.NewTask(Some(Crewai.ReportPayload(
      EvaluatedReport(inputs.company.value, inputs.role.value, inputs.answers.GetOr([]), gemini, parse)))))
  }

  /** The loop of `evaluate_answers_task`: ask each model in order and stop at the first reply whose `{`...`}` part parses. */
  method AskForReport(company: string, role: string, answers: seq<AnswerRecord>, gemini: (string, Prompt) -> Option<string>,
                      parse: string -> Option<Json>) returns (found: Option<Json>)
    ensures found == FirstSuccess(ModelNames, name => ReportAttempt(gemini(name, EvaluationPrompt(company, role, answers)), parse))
  {
    var prompt := EvaluationPrompt(company, role, answers);
    ghost var attempt := name => ReportAttempt(gemini(name, prompt), parse);
    var i := 0;
    while i < |ModelNames|
      invariant 0 <= i <= |ModelNames|
      invariant forall j :: 0 <= j < i ==> attempt(ModelNames[j]).None?
    {
      var report := ReportAttempt(gemini(ModelNames[i], prompt), parse);
      if report.Some? {
        FirstSuccessAt(ModelNames, attempt, i);
        return report;
      }
      i := i + 1;
    }
    return None;
  }

  /** `evaluate_answers_task`: a KeyError without company or role; else `{"report": r}` for the first parsed reply, or the heuristic report. */
  method EvaluateAnswersTask(inputs: Crewai.Inputs, gemini: (string, Prompt) -> Option<string>,
                             parse: string -> Option<Json>) returns (out: Crewai.CallResult)
    ensures out == EvaluateAnswersCall(inputs, gemini, parse)
    ensures out.Raised? <==> inputs.company.None? || inputs.role.None?
  {
    if inputs.company.None? || inputs.role.None? {
      return Crewai.Raised;
    }
    var company, role := inputs.company.value, inputs.role.value;
    var answers := inputs.answers.GetOr([]);
    var found := AskForReport(company, role, answers, gemini, parse);
    var report := if found.Some? then found.value else ReportJson(FallbackReport(answers, company));
    return Crewai.GotTask(Crewai.NewTask(Some(Crewai.ReportPayload(report))));
  }

  /** One record of the prompt's answers block: `Q: question\nA: answer`; `show` is Python's `str()` of the question value. */
  function Entry(a: AnswerRecord, show: Json -> string): string {
    "Q: " + show(a.question) + "\nA: " + a.answer
  }

  function Entries(answers: seq<AnswerRecord>, show: Json -> string): seq<string> {
    seq(|answers|, i requires 0 <= i < |answers| => Entry(answers[i], show))
  }

  /** The answers block of the evaluation prompt: the records' entries, in order, separated by blank lines. */
  function AnswersBlock(answers: seq<AnswerRecord>, show: Json -> string): string {
    Join("\n\n", Entries(answers, show))
  }

  /** No records give an empty block, one record its entry alone, and each further record adds a blank line and its entry at the end. */
  lemma AnswersBlockInOrder(answers: seq<AnswerRecord>, a: AnswerRecord, show: Json -> string)
    ensures AnswersBlock([], show) == []
    ensures AnswersBlock([a], show) == Entry(a, show)
    ensures answers != [] ==> AnswersBlock(answers + [a], show) == AnswersBlock(answers, show) + "\n\n" + Entry(a, show)
  {
    if answers != [] {
      assert Entries(answers + [a], show) == Entries(answers, show) + [Entry(a, show)];
      JoinSnoc("\n\n", Entries(answers, show), Entry(a, show));
    }
  }

  /** With company and role given, the task yields `{"report": r}` for the report it settles on. */
  lemma EvaluateAnswersOutcome(company: string, role: string, answers: seq<AnswerRecord>,
                               gemini: (string, Prompt) -> Option<string>, parse: string -> Option<Json>)
    ensures var out := EvaluateAnswersCall(Crewai.Inputs(Some("evaluate_answers"), Some(company), Some(role), Some(answers)), gemini, parse);
            out.GotTask? && out.task.result == Crewai.ReportPayload(EvaluatedReport(company, role, answers, gemini, parse))
  {
  }

  /** The first model whose reply parses decides the report, whatever the later models would reply. */
  lemma EvaluateAnswersFirstParsed(company: string, role: string, answers: seq<AnswerRecord>,
                                   gemini: (string, Prompt) -> Option<string>, parse: string -> Option<Json>, i: nat)
    requires i < |ModelNames|
    requires ReportAttempt(gemini(ModelNames[i], EvaluationPrompt(company, role, answers)), parse).Some?
    requires forall j :: 0 <= j < i ==> ReportAttempt(gemini(ModelNames[j], EvaluationPrompt(company, role, answers)), parse).None?
    ensures EvaluatedReport(company, role, answers, gemini, parse)
            == ReportAttempt(gemini(ModelNames[i], EvaluationPrompt(company, role, answers)), parse).value
  {
    var attempt := name => ReportAttempt(gemini(name, EvaluationPrompt(company, role, answers)), parse);
    FirstSuccessAt(ModelNames, attempt, i);
  }

  /** When no reply parses, the report is the heuristic one with thresholds 400/250/120. */
  lemma EvaluateAnswersAllFail(company: string, role: string, answers: seq<AnswerRecord>,
                               gemini: (string, Prompt) -> Option<string>, parse: string -> Option<Json>)
    requires forall i :: 0 <= i < |ModelNames| ==> ReportAttempt(gemini(ModelNames[i], EvaluationPrompt(company, role, answers)), parse).None?
    ensures EvaluatedReport(company, role, answers, gemini, parse) == ReportJson(FallbackReport(answers, company))
  {
  }
}

/**
 * The web application: its own fallback questions and evaluator, the
 * permissive unwrapping of whatever the crew call returns, and the
 * interview session with one method per route. The crew call is the
 * parameter `crew` of the routes (None when it raised); `CallCrew` is
 * that call as wired to the local framework stand-in and the crew module.
 */
module App {
  import opened Wrappers
  import opened Text
  import opened PyJson
  import opened Scoring
  import Crewai
  import CrewAgents

  /** `fallback_generate_questions(company, role)`. */
  function FallbackGenerateQuestions(company: string, role: string): (qs: seq<Json>)
    ensures |qs| == 4
    ensures forall i :: 0 <= i < |qs| ==> AsksAbout(qs[i], company)
  {
    [ TemplatedQuestion("What are the key programming concepts for a " + role + " at ", company, "?"),
      TemplatedQuestion("How would you design a scalable web application for ", company, "?"),
      TemplatedQuestion("What database technology would you pick for ", company, " and why?"),
      TemplatedQuestion("Explain an algorithmic optimization you'd apply to a ", company, "-scale system.") ]
  }

  /** `fallback_evaluate(answers, company, role)`: thresholds 400/250/150 and two weaknesses. */
  function FallbackEvaluate(answers: seq<AnswerRecord>, company: string, role: string): (r: Report)
    ensures r.overall == TierOfAverage(AverageLength(answers), 150)
    ensures DerivedFrom(r.topics, r.overall) && ScoresInRange(r)
    ensures r.strengths == ["Clear problem solving", "Good technical foundation"]
    ensures r.weaknesses == ["Add more " + company + "-specific examples", "Give more code-level details"]
  {
    HeuristicReport(BaseScore(TotalChars(answers), |answers|, 150),
      ["Clear problem solving", "Good technical foundation"],
      ["Add more " + company + "-specific examples", "Give more code-level details"])
  }

  /** The three fallback evaluators compared: the two with threshold 150 always agree; the crew module's 120 never scores lower, and scores higher exactly on averages in (120, 150]. */
  lemma FallbackScoresCompared(answers: seq<AnswerRecord>, company: string, role: string)
    ensures FallbackEvaluate(answers, company, role).overall == Crewai.FallbackReport(answers, company).overall
    ensures CrewAgents.FallbackReport(answers, company).overall >= FallbackEvaluate(answers, company, role).overall
    ensures var d := Divisor(|answers|);
            (CrewAgents.FallbackReport(answers, company).overall != FallbackEvaluate(answers, company, role).overall)
            <==> (120 * d < TotalChars(answers) <= 150 * d)
  {
    ThirdTierComparison(TotalChars(answers), |answers|);
  }

  /** One answer of 130 characters: 5 here and in the shim, 6 in the crew module. */
  lemma ThirdTierExample(company: string, role: string)
    ensures var answers := [AnswerRecord(Null, seq(130, _ => 'x'))];
            FallbackEvaluate(answers, company, role).overall == 5
            && Crewai.FallbackReport(answers, company).overall == 5
            && CrewAgents.FallbackReport(answers, company).overall == 6
  {
    var answers := [AnswerRecord(Null, seq(130, _ => 'x'))];
    assert TotalChars(answers) == TotalChars([]) + 130;
  }

  /** The dictionary `begin` passes to the crew. */
  function GenerateInputs(company: string, role: string): Crewai.Inputs {
    Crewai.Inputs(Some("generate_questions"), Some(company), Some(role), None)
  }

  /** The dictionary `report` passes to the crew. */
  function EvaluateInputs(company: string, role: string, answers: seq<AnswerRecord>): Crewai.Inputs {
    Crewai.Inputs(Some("evaluate_answers"), Some(company), Some(role), Some(answers))
  }

  /**
   * `call_crew(inputs)` with the local framework stand-in: None (RuntimeError)
   * when the crew module could not be imported at start-up; otherwise
   * `interview_crew()` is a `Crew`, which has `kickoff`, and its result is
   * returned. `kickoffImports` says whether the import inside `kickoff` succeeds.
   */
  function CallCrew(crewImported: bool, kickoffImports: bool, gemini: (string, CrewAgents.Prompt) -> Option<string>,
                    parse: string -> Option<Json>, inputs: Crewai.Inputs): (r: Option<Json>)
    ensures r.None? <==> !crewImported
    ensures crewImported && !kickoffImports ==> r == Some(EmptyObject)
    ensures crewImported && inputs.action.GetOr("") !in {"generate_questions", "evaluate_answers"} ==> r == Some(EmptyObject)
  {
    if !crewImported then None
    else Some(CrewAgents.InterviewCrew().Kickoff(inputs, kickoffImports, GenerateTask(gemini, parse), EvaluateTask(gemini, parse)))
  }

  /** The crew module's `generate_questions_task`, as `kickoff` looks it up. */
  function GenerateTask(gemini: (string, CrewAgents.Prompt) -> Option<string>, parse: string -> Option<Json>)
    : Crewai.Inputs -> Crewai.CallResult
  {
    inputs => CrewAgents.GenerateQuestionsCall(inputs, gemini, parse)
  }

  /** The crew module's `evaluate_answers_task`, as `kickoff` looks it up. */
  function EvaluateTask(gemini: (string, CrewAgents.Prompt) -> Option<string>, parse: string -> Option<Json>)
    : Crewai.Inputs -> Crewai.CallResult
  {
    inputs => CrewAgents.EvaluateAnswersCall(inputs, gemini, parse)
  }

  /** The questions `begin` accepts from the crew's result; None when the call raised or no list came back (the ValueError path). */
  function CrewQuestions(result: Option<Json>): Option<seq<Json>> {
    match result
    case None => None
    case Some(r) =>
      var q := if r.Object? then Get(r.fields, "questions") else Null;
      var chosen := if Truthy(q) then q else r;
      if chosen.List? then Some(chosen.items) else None
  }

  /** The questions `begin` stores: those accepted from the crew, else `fallback_generate_questions`. */
  function ResolveQuestions(result: Option<Json>, company: string, role: string): (qs: seq<Json>)
    ensures CrewQuestions(result).Some? ==> qs == CrewQuestions(result).value
    ensures CrewQuestions(result).None? ==> qs == FallbackGenerateQuestions(company, role)
    ensures CrewQuestions(result).None? ==> |qs| == 4 && forall i :: 0 <= i < |qs| ==> AsksAbout(qs[i], company)
  {
    match CrewQuestions(result)
    case Some(qs) => qs
    case None => FallbackGenerateQuestions(company, role)
  }

  /**
   * The order in which `begin` picks its questions: a truthy `questions`
   * value of a dictionary, if it is a list; a bare list as it is, even an
   * empty one; nothing else (the fallback is used), including a raised call.
   */
  lemma CrewQuestionsOrder(result: Option<Json>)
    ensures result.Some? && result.value.Object? && Truthy(Get(result.value.fields, "questions"))
            ==> CrewQuestions(result) == (if result.value.fields["questions"].List?
                                          then Some(result.value.fields["questions"].items) else None)
    ensures result.Some? && result.value.List? ==> CrewQuestions(result) == Some(result.value.items)
    ensures result.None? || !(result.value.Object? || result.value.List?)
            || (result.value.Object? && !Truthy(Get(result.value.fields, "questions")))
            ==> CrewQuestions(result) == None
  {
  }

  /** Every entry has a `question` field, and there is at least one: the interview page can show each of them. */
  predicate WellFormedQuestions(qs: seq<Json>) {
    qs != [] && forall i :: 0 <= i < |qs| ==> QuestionField(qs[i]).Some?
  }

  /**
   * `begin`'s choice with the check the interview route relies on: the
   * crew's list only when it is well formed, else the fallback questions.
   * It agrees with `ResolveQuestions` whenever the crew's list is well formed.
   */
  function ResolveCheckedQuestions(result: Option<Json>, company: string, role: string): (qs: seq<Json>)
    ensures WellFormedQuestions(qs)
    ensures CrewQuestions(result).Some? && WellFormedQuestions(CrewQuestions(result).value)
            ==> qs == ResolveQuestions(result, company, role)
    ensures !(CrewQuestions(result).Some? && WellFormedQuestions(CrewQuestions(result).value))
            ==> qs == FallbackGenerateQuestions(company, role)
  {
    match CrewQuestions(result)
    case Some(qs) =>
      if WellFormedQuestions(qs) then qs else FallbackGenerateQuestions(company, role)
    case None => FallbackGenerateQuestions(company, role)
  }

  /** Wired to the stand-in and the crew module, `begin` always stores at least four questions, whatever the models reply and whichever import fails. */
  lemma BeginStoresAtLeastFour(crewImported: bool, kickoffImports: bool, gemini: (string, CrewAgents.Prompt) -> Option<string>,
                               parse: string -> Option<Json>, company: string, role: string)
    ensures |ResolveQuestions(CallCrew(crewImported, kickoffImports, gemini, parse, GenerateInputs(company, role)), company, role)| >= 4
  {
    var result := CallCrew(crewImported, kickoffImports, gemini, parse, GenerateInputs(company, role));
    CrewGivesAtLeastFour(crewImported, kickoffImports, gemini, parse, company, role);
    assert CrewQuestions(result).Some? ==> |CrewQuestions(result).value| >= 4;
  }

  /** Whatever questions `begin` accepts from the wired crew number at least four. */
  lemma CrewGivesAtLeastFour(crewImported: bool, kickoffImports: bool, gemini: (string, CrewAgents.Prompt) -> Option<string>,
                             parse: string -> Option<Json>, company: string, role: string)
    ensures var q := CrewQuestions(CallCrew(crewImported, kickoffImports, gemini, parse, GenerateInputs(company, role)));
            q.Some? ==> |q.value| >= 4
  {
    if crewImported && !kickoffImports {
      assert CallCrew(crewImported, kickoffImports, gemini, parse, GenerateInputs(company, role)) == Some(EmptyObject);
    } else if crewImported {
      WiredGeneratedFour(company, role, gemini, parse);
    }
  }

  lemma WiredGeneratedFour(company: string, role: string, gemini: (string, CrewAgents.Prompt) -> Option<string>,
                           parse: string -> Option<Json>)
    ensures var q := CrewQuestions(CallCrew(true, true, gemini, parse, GenerateInputs(company, role)));
            q.Some? && |q.value| >= 4
  {
    WiredGenerate(company, role, gemini, parse);
    CrewQuestionsOfPayload(CrewAgents.GeneratedQuestions(company, role, gemini, parse));
  }

  /** A `{"questions": qs}` result with some questions gives exactly those. */
  lemma CrewQuestionsOfPayload(qs: seq<Json>)
    requires qs != []
    ensures CrewQuestions(Some(Crewai.QuestionsPayload(qs))) == Some(qs)
  {
  }

  /** Wired up with both imports working, `begin`'s crew call returns `{"questions": qs}` for the crew module's questions. */
  lemma WiredGenerate(company: string, role: string, gemini: (string, CrewAgents.Prompt) -> Option<string>,
                      parse: string -> Option<Json>)
    ensures CallCrew(true, true, gemini, parse, GenerateInputs(company, role))
            == Some(Crewai.QuestionsPayload(CrewAgents.GeneratedQuestions(company, role, gemini, parse)))
  {
    CrewAgents.GenerateQuestionsAlwaysFour(company, role, gemini, parse);
  }

  /** The report `report` finds in what the crew returned, or None when it must fall back. */
  function UnwrapReport(result: Option<Json>): (data: Option<Json>)
    ensures data.Some? ==> Truthy(data.value)
  {
    if result.None? || !result.value.Object? then None
    else
      var m := result.value.fields;
      var found :=
        if "report" in m then m["report"]
        else if "result" in m && m["result"].Object? then Or(Get(m["result"].fields, "report"), m["result"])
        else if "overall_score" in m && "strengths" in m then result.value
        else Null;
      if Truthy(found) then Some(found) else None
  }

  /** The report `report` renders: the unwrapped one, else `fallback_evaluate`; never falsy. */
  function ReportData(result: Option<Json>, answers: seq<AnswerRecord>, company: string, role: string): (r: Json)
    ensures Truthy(r)
    ensures UnwrapReport(result).None? ==> r == ReportJson(FallbackEvaluate(answers, company, role))
  {
    match UnwrapReport(result)
    case Some(d) => d
    case None => ReportJson(FallbackEvaluate(answers, company, role))
  }

  /**
   * The unwrapping precedence: a `report` key decides alone (a falsy value
   * falls back even when `result` is present); then a dictionary `result`,
   * by its own `report` or else itself; then the result itself when it
   * carries both `overall_score` and `strengths`.
   */
  lemma ReportPrecedence(m: map<string, Json>, answers: seq<AnswerRecord>, company: string, role: string)
    ensures var fallback := ReportJson(FallbackEvaluate(answers, company, role));
            var r := ReportData(Some(Object(m)), answers, company, role);
            && ("report" in m ==> r == (if Truthy(m["report"]) then m["report"] else fallback))
            && ("report" !in m && "result" in m && m["result"].Object? ==>
                  r == (if Truthy(Get(m["result"].fields, "report")) then Get(m["result"].fields, "report")
                        else if Truthy(m["result"]) then m["result"] else fallback))
            && ("report" !in m && !("result" in m && m["result"].Object?) ==>
                  r == (if "overall_score" in m && "strengths" in m then Object(m) else fallback))
  {
    var r := ReportData(Some(Object(m)), answers, company, role);
    if "report" !in m && !("result" in m && m["result"].Object?) && "overall_score" in m && "strengths" in m {
      assert Truthy(Object(m));
    }
  }

  /** A crew call that raised, or returned something other than a dictionary, falls back. */
  lemma ReportFallsBackOnNonDict(result: Option<Json>, answers: seq<AnswerRecord>, company: string, role: string)
    requires result.None? || !result.value.Object?
    ensures ReportData(result, answers, company, role) == ReportJson(FallbackEvaluate(answers, company, role))
  {
  }

  /** Wired up with both imports working, `report`'s crew call returns `{"report": r}` for the crew module's report. */
  lemma WiredEvaluate(company: string, role: string, answers: seq<AnswerRecord>,
                      gemini: (string, CrewAgents.Prompt) -> Option<string>, parse: string -> Option<Json>)
    ensures CallCrew(true, true, gemini, parse, EvaluateInputs(company, role, answers))
            == Some(Crewai.ReportPayload(CrewAgents.EvaluatedReport(company, role, answers, gemini, parse)))
  {
    CrewAgents.EvaluateAnswersOutcome(company, role, answers, gemini, parse);
  }

  /** A `{"report": r}` result renders r when it is truthy, else `fallback_evaluate`'s report. */
  lemma ReportOfPayload(e: Json, answers: seq<AnswerRecord>, company: string, role: string)
    ensures ReportData(Some(Crewai.ReportPayload(e)), answers, company, role)
            == (if Truthy(e) then e else ReportJson(FallbackEvaluate(answers, company, role)))
  {
  }

  /**
   * Wired to the stand-in and the crew module, the rendered report is the
   * first parsed model reply when that is truthy; when every model fails it
   * is the crew module's heuristic (threshold 120), not `fallback_evaluate`'s (150).
   */
  lemma WiredReport(gemini: (string, CrewAgents.Prompt) -> Option<string>, parse: string -> Option<Json>,
                    company: string, role: string, answers: seq<AnswerRecord>)
    ensures var e := CrewAgents.EvaluatedReport(company, role, answers, gemini, parse);
            ReportData(CallCrew(true, true, gemini, parse, EvaluateInputs(company, role, answers)), answers, company, role)
            == (if Truthy(e) then e else ReportJson(FallbackEvaluate(answers, company, role)))
    ensures (forall i :: 0 <= i < |CrewAgents.ModelNames| ==>
               CrewAgents.ReportAttempt(gemini(CrewAgents.ModelNames[i], CrewAgents.EvaluationPrompt(company, role, answers)), parse).None?)
            ==> ReportData(CallCrew(true, true, gemini, parse, EvaluateInputs(company, role, answers)), answers, company, role)
                == ReportJson(CrewAgents.FallbackReport(answers, company))
  {
    WiredEvaluate(company, role, answers, gemini, parse);
    ReportOfPayload(CrewAgents.EvaluatedReport(company, role, answers, gemini, parse), answers, company, role);
    if forall i :: 0 <= i < |CrewAgents.ModelNames| ==>
         CrewAgents.ReportAttempt(gemini(CrewAgents.ModelNames[i], CrewAgents.EvaluationPrompt(company, role, answers)), parse).None? {
      CrewAgents.EvaluateAnswersAllFail(company, role, answers, gemini, parse);
    }
  }

  /** Wired up, the crew returns the empty dictionary exactly when `kickoff`'s import fails or the action is unknown. */
  lemma WiredKickoffEmptyIff(kickoffImports: bool, gemini: (string, CrewAgents.Prompt) -> Option<string>,
                             parse: string -> Option<Json>, inputs: Crewai.Inputs)
    ensures CallCrew(true, kickoffImports, gemini, parse, inputs) == Some(EmptyObject)
            <==> !kickoffImports || inputs.action.GetOr("") !in {"generate_questions", "evaluate_answers"}
  {
    var action := inputs.action.GetOr("");
    var g := GenerateTask(gemini, parse);
    var e := EvaluateTask(gemini, parse);
    if kickoffImports && action == "generate_questions" {
      var r := CrewAgents.InterviewCrew().Kickoff(inputs, true, g, e);
      if g(inputs).Raised? {
        Crewai.KickoffQuestionsFallback(CrewAgents.InterviewCrew(), inputs, g, e);
      } else {
        assert Truthy(r);
      }
      assert r != EmptyObject;
    } else if kickoffImports && action == "evaluate_answers" {
      var r := CrewAgents.InterviewCrew().Kickoff(inputs, true, g, e);
      assert Truthy(r);
    }
  }

  /** What a route answers with, in place of the rendered page or the redirect. */
  datatype Outcome =
    | RenderStart
    | RedirectIndex
    | RedirectInterview
    | RedirectReport
    | RenderQuestion(company: string, role: string, question: Json, number: nat, total: nat, blankError: bool)
    | RenderReport(report: Json, company: string, role: string)
    | Crash   // an unhandled exception: HTTP 500, session left as it was

  /** The interview page for question `idx`: a crash when `questions[idx]["question"]` raises. */
  function QuestionView(company: string, role: string, questions: seq<Json>, idx: nat, blankError: bool): (o: Outcome)
    ensures o.RenderQuestion? <==> idx < |questions| && QuestionField(questions[idx]).Some?
    ensures o.RenderQuestion? ==> o.number == idx + 1 && o.total == |questions| && o.question == QuestionField(questions[idx]).value
    ensures o.RenderQuestion? ==> o.company == company && o.role == role && o.blankError == blankError
    ensures !o.RenderQuestion? ==> o == Crash
  {
    if idx < |questions| && QuestionField(questions[idx]).Some? then
      RenderQuestion(company, role, QuestionField(questions[idx]).value, idx + 1, |questions|, blankError)
    else Crash
  }

  /** The per-client session store; `active` is false once it has been cleared. */
  class Session {
    var active: bool
    var company: string
    var role: string
    var questions: seq<Json>
    var currentQuestion: nat
    var answers: seq<AnswerRecord>

    /**
     * A started session has non-blank stripped company and role, one answer
     * per question answered so far, each answer non-blank and paired with its
     * own question's text in order; a cleared session holds nothing.
     */
    ghost predicate Valid()
      reads this
    {
      if active then
        company != [] && role != [] && Trimmed(company) && Trimmed(role)
        && currentQuestion == |answers| <= |questions|
        && forall i :: 0 <= i < |answers| ==>
             QuestionField(questions[i]) == Some(answers[i].question)
             && answers[i].answer != [] && Trimmed(answers[i].answer)
      else
        company == [] && role == [] && questions == [] && currentQuestion == 0 && answers == []
    }

    constructor ()
      ensures Valid() && !active
    {
      active, company, role, questions, currentQuestion, answers := false, [], [], [], 0, [];
    }

    /** `session.clear()`. */
    method Clear()
      modifies this
      ensures Valid() && !active
    {
      active, company, role, questions, currentQuestion, answers := false, [], [], [], 0, [];
    }

    /** `GET /`: clear the session and show the start form. */
    method Index() returns (o: Outcome)
      modifies this
      ensures Valid() && !active && o == RenderStart
    {
      Clear();
      return RenderStart;
    }

    /** `GET /restart`: clear the session and go back to the start. */
    method Restart() returns (o: Outcome)
      modifies this
      ensures Valid() && !active && o == RedirectIndex
    {
      Clear();
      return RedirectIndex;
    }

    /** `POST /begin`: with both stripped fields non-blank, start a fresh interview on the resolved questions; otherwise write nothing. */
    method Begin(companyField: Option<string>, roleField: Option<string>, crew: Crewai.Inputs -> Option<Json>)
      returns (o: Outcome)
      requires Valid()
      modifies this
      ensures Valid()
      ensures var c, r := Strip(companyField.GetOr("")), Strip(roleField.GetOr(""));
              if c == [] || r == [] then o == RedirectIndex && unchanged(this)
              else o == RedirectInterview && active && company == c && role == r
                   && questions == ResolveQuestions(crew(GenerateInputs(c, r)), c, r)
                   && currentQuestion == 0 && answers == []
    {
      var c := Strip(companyField.GetOr(""));
      var r := Strip(roleField.GetOr(""));
      if c == [] || r == [] {
        return RedirectIndex;
      }
      var result := crew(GenerateInputs(c, r));
      var qs := ResolveQuestions(result, c, r);
      StripSpec(companyField.GetOr(""));
      StripSpec(roleField.GetOr(""));
      active, company, role, questions, currentQuestion, answers := true, c, r, qs, 0, [];
      return RedirectInterview;
    }

    /**
     * `GET|POST /interview`. Without questions, back to the start. A GET shows
     * the current question, or moves on to the report once all are answered.
     * A POST with a blank answer shows the question again with an error; a
     * non-blank one records it against the current question and advances.
     */
    method Interview(post: bool, answerField: Option<string>) returns (o: Outcome)
      requires Valid()
      modifies this
      ensures Valid()
      ensures !old(active) || old(questions) == [] ==> o == RedirectIndex && unchanged(this)
      ensures old(active) && old(questions) != [] && !post ==>
                unchanged(this)
                && o == (if old(currentQuestion) >= |old(questions)| then RedirectReport
                         else QuestionView(company, role, questions, currentQuestion, false))
      ensures old(active) && old(questions) != [] && post && Strip(answerField.GetOr("")) == [] ==>
                unchanged(this) && o == QuestionView(company, role, questions, currentQuestion, true)
      ensures old(active) && old(questions) != [] && post && Strip(answerField.GetOr("")) != [] ==>
                var idx := old(currentQuestion);
                if idx < |old(questions)| && QuestionField(old(questions)[idx]).Some? then
                  answers == old(answers) + [AnswerRecord(QuestionField(old(questions)[idx]).value, Strip(answerField.GetOr("")))]
                  && currentQuestion == idx + 1
                  && active && company == old(company) && role == old(role) && questions == old(questions)
                  && (o == RedirectReport <==> idx + 1 >= |questions|)
                  && (o != RedirectReport ==> o == RedirectInterview)
                else unchanged(this) && o == Crash
    {
      if !active || questions == [] {
        return RedirectIndex;
      }
      var idx := currentQuestion;
      if post {
        var text := Strip(answerField.GetOr(""));
        if text == [] {
          return QuestionView(company, role, questions, idx, true);
        }
        if idx >= |questions| || QuestionField(questions[idx]).None? {
          return Crash;
        }
        StripSpec(answerField.GetOr(""));
        answers := answers + [AnswerRecord(QuestionField(questions[idx]).value, text)];
        currentQuestion := idx + 1;
        if currentQuestion >= |questions| {
          return RedirectReport;
        }
        return RedirectInterview;
      }
      if idx >= |questions| {
        return RedirectReport;
      }
      return QuestionView(company, role, questions, idx, false);
    }

    /** Viewing the interview page twice without answering shows the same thing and changes nothing. */
    method ViewTwice() returns (first: Outcome, second: Outcome)
      requires Valid()
      modifies this
      ensures Valid() && unchanged(this) && first == second
    {
      first := Interview(false, None);
      second := Interview(false, None);
    }

    /** A non-blank answer to a question that has its `question` field is recorded, and the client moves on. */
    method AnswerOne(reply: string) returns (o: Outcome)
      requires Valid() && active && currentQuestion < |questions| && QuestionField(questions[currentQuestion]).Some?
      requires Strip(reply) != []
      modifies this
      ensures Valid() && active && company == old(company) && role == old(role) && questions == old(questions)
      ensures answers == old(answers) + [AnswerRecord(QuestionField(questions[old(currentQuestion)]).value, Strip(reply))]
      ensures currentQuestion == old(currentQuestion) + 1
      ensures o == (if currentQuestion >= |questions| then RedirectReport else RedirectInterview)
    {
      o := Interview(true, Some(reply));
    }

    /**
     * Answering every remaining question with a non-blank reply, `replies[k]`
     * for the k-th question still open: each POST records its answer against
     * the current question and redirects to the next one, and the last
     * redirects to the report. It needs every question to have a `question`.
     */
    method AnswerRemaining(replies: seq<string>) returns (steps: seq<Outcome>)
      requires Valid() && active && WellFormedQuestions(questions)
      requires |replies| == |questions| - currentQuestion
      requires forall k :: 0 <= k < |replies| ==> Strip(replies[k]) != []
      modifies this
      ensures Valid() && active && company == old(company) && role == old(role) && questions == old(questions)
      ensures currentQuestion == |answers| == |questions|
      ensures answers[..|old(answers)|] == old(answers)
      ensures forall k :: 0 <= k < |replies| ==> answers[old(currentQuestion) + k].answer == Strip(replies[k])
      ensures |steps| == |replies|
      ensures forall k :: 0 <= k < |steps| ==>
                steps[k] == (if k + 1 == |replies| then RedirectReport else RedirectInterview)
    {
      var start := currentQuestion;
      var n := 0;
      steps := [];
      while n < |replies|
        invariant Valid() && active && WellFormedQuestions(questions)
        invariant company == old(company) && role == old(role) && questions == old(questions)
        invariant 0 <= n <= |replies| && currentQuestion == start + n && |steps| == n
        invariant answers[..start] == old(answers)
        invariant forall k :: 0 <= k < n ==> answers[start + k].answer == Strip(replies[k])
        invariant forall k :: 0 <= k < n ==>
                    steps[k] == (if k + 1 == |replies| then RedirectReport else RedirectInterview)
      {
        var step := AnswerOne(replies[n]);
        steps := steps + [step];
        n := n + 1;
      }
    }

    /** After every remaining question has a non-blank answer, the report page renders, for the session's company and role. */
    method AnswerAll(replies: seq<string>, crew: Crewai.Inputs -> Option<Json>)
      returns (steps: seq<Outcome>, o: Outcome)
      requires Valid() && active && WellFormedQuestions(questions)
      requires |replies| == |questions| - currentQuestion
      requires forall k :: 0 <= k < |replies| ==> Strip(replies[k]) != []
      modifies this
      ensures Valid() && active && company == old(company) && role == old(role) && questions == old(questions)
      ensures currentQuestion == |answers| == |questions| && answers != []
      ensures |old(answers)| <= |answers| && answers[..|old(answers)|] == old(answers)
      ensures forall k :: 0 <= k < |replies| ==>
                answers[old(currentQuestion) + k]
                == AnswerRecord(QuestionField(questions[old(currentQuestion) + k]).value, Strip(replies[k]))
      ensures forall k :: 0 <= k < |steps| ==> steps[k] in {RedirectInterview, RedirectReport}
      ensures o.RenderReport? && Truthy(o.report) && o.company == company && o.role == role
      ensures o.report == ReportData(crew(EvaluateInputs(company, role, answers)), answers, company, role)
    {
      steps := AnswerRemaining(replies);
      o := Report(crew);
    }

    /** `GET /report`: without answers, back to the start; otherwise the unwrapped or fallback report. */
    method Report(crew: Crewai.Inputs -> Option<Json>) returns (o: Outcome)
      requires Valid()
      ensures !active || answers == [] ==> o == RedirectIndex
      ensures active && answers != [] ==>
                o.RenderReport? && Truthy(o.report) && o.company == company && o.role == role
                && o.report == ReportData(crew(EvaluateInputs(company, role, answers)), answers, company, role)
    {
      if !active || answers == [] {
        return RedirectIndex;
      }
      var result := crew(EvaluateInputs(company, role, answers));
      return RenderReport(ReportData(result, answers, company, role), company, role);
    }
  }

  /**
   * A model reply whose list has four entries or more passes the crew
   * module's check whatever the entries are; when the first entry has no
   * `question` (a bare string, say), `begin` stores the list and the first
   * view of the interview page raises.
   */
  method BareListCrashes(company: string, role: string, gemini: (string, CrewAgents.Prompt) -> Option<string>,
                         parse: string -> Option<Json>) returns (o: Outcome)
    requires Strip(company) != [] && Strip(role) != []
    requires var qs := CrewAgents.QuestionsAttempt(gemini(CrewAgents.ModelNames[0], CrewAgents.QuestionsPrompt(Strip(company), Strip(role))), parse);
             qs.Some? && QuestionField(qs.value[0]).None?
    ensures o == Crash
  {
    var c, r := Strip(company), Strip(role);
    var qs := CrewAgents.QuestionsAttempt(gemini(CrewAgents.ModelNames[0], CrewAgents.QuestionsPrompt(c, r)), parse).value;
    CrewAgents.GenerateQuestionsFirstAccepted(c, r, gemini, parse, 0);
    WiredGenerate(c, r, gemini, parse);
    CrewQuestionsOfPayload(qs);
    var s := new Session();
    var started := s.Begin(Some(company), Some(role), inputs => CallCrew(true, true, gemini, parse, inputs));
    assert s.questions == qs;
    o := s.Interview(false, None);
  }

  /** A reply that is a bracketed list text, parsed to four entries or more, is accepted as exactly those entries. */
  lemma BracketedReplyAccepted(t: string, parse: string -> Option<Json>, items: seq<Json>)
    requires |t| >= 2 && t[0] == '[' && t[|t| - 1] == ']'
    requires parse(t) == Some(List(items)) && |items| >= 4
    ensures CrewAgents.QuestionsAttempt(Some(t), parse) == Some(items)
  {
    assert TrimStart(t) == t;
    assert TrimEnd(t) == t;
    assert Find(t, '[') == 0;
    assert RFind(t, ']') == |t| - 1;
    assert t[0..|t|] == t;
  }

  /** The reply `["a", "b", "c", "d"]`: four strings, accepted by the crew module's question check, the first with no `question`. */
  lemma FourStringsAccepted(parse: string -> Option<Json>)
    requires parse(FourStrings) == Some(List([Str("a"), Str("b"), Str("c"), Str("d")]))
    ensures CrewAgents.QuestionsAttempt(Some(FourStrings), parse) == Some([Str("a"), Str("b"), Str("c"), Str("d")])
    ensures QuestionField(Str("a")).None?
  {
    BracketedReplyAccepted(FourStrings, parse, [Str("a"), Str("b"), Str("c"), Str("d")]);
  }

  /** Every model replying `["a", "b", "c", "d"]`: `begin` stores the four strings and the interview page then raises. */
  method FourStringsCrash(company: string, role: string, parse: string -> Option<Json>) returns (o: Outcome)
    requires Strip(company) != [] && Strip(role) != []
    requires parse(FourStrings) == Some(List([Str("a"), Str("b"), Str("c"), Str("d")]))
    ensures o == Crash
  {
    FourStringsAccepted(parse);
    o := BareListCrashes(company, role, (name, prompt) => Some(FourStrings), parse);
  }

  const FourStrings: string := "[\"a\", \"b\", \"c\", \"d\"]"
}

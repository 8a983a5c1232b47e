# Mock interview: a verified model of the interview flow

This project models the decision logic of a small Flask mock-interview
application in Dafny and proves what it promises. A candidate names a
company and a role. The application asks an agent "crew" for interview
questions, walks the candidate through them one at a time, collects the
answers, and asks the crew for a scored report. Whenever the crew or the
language models behind it fail, fixed fallbacks answer instead.

The model has seven modules, one file each:

- `Wrappers`: `Option`.
- `PyJson`: the JSON values that travel between the pieces, and Python's truthiness on them.
- `Text`: `str.strip()` over Python's whitespace set, `find`, `rfind`, clamped slicing, containment and `join`.
- `Scoring`: answer records, the report, and the answer-length heuristic that all three fallback evaluators share.
- `Crewai`: the local stand-in for the agent framework. This is its decorators, `Task`/`Crew` defaulting, and `Crew.kickoff`'s dispatch on the requested action.
- `CrewAgents`: the two task functions. Each tries the models strictly in order, cuts the JSON out of each reply between the first opening and the last closing bracket, and takes the first reply that qualifies. The search loops are methods, proved equal to a first-success specification function.
- `App`: the application's own fallbacks, and the permissive unwrapping of whatever the crew returns. It also holds the interview session as a class with one method per route; each method returns an `Outcome` in place of a rendered page or a redirect.

The things the model does not compute itself are parameters:

- `gemini(model, prompt)` is the model call. It gives the reply text, or None when the call raised.
- `parse(text)` is `json.loads`. It gives the parsed value, or None when it raised.
- The routes take the crew call `crew(inputs)`. `App.CallCrew` is that call as actually wired: through `interview_crew()`, `Crew.kickoff` and the crew module.

Because of that wiring, the lemmas can prove end-to-end facts. For example, `begin` always stores at least four questions, whatever the models reply and whichever import fails.

One behaviour of the wired system deserves mention. When every model fails during evaluation, the report shown is the crew module's heuristic, which uses a third threshold of 120, not `fallback_evaluate`'s 150. The crew module always returns a report, so `fallback_evaluate` is reached only when the crew itself is unavailable or returns something unusable (`App.WiredReport`, `App.FallbackScoresCompared`).

## Model

| member | source | states |
|---|---|---|
| App.FallbackGenerateQuestions | app.py:64-70 | exactly four entries, each an object whose `question` string contains the company |
| App.FallbackEvaluate | app.py:73-97 | overall score is the 400/250/150 threshold chain over the exact average answer length; topic scores are base, base+1, max(base-1,1), base, base, all within 4..9; the two fixed strengths and the two weaknesses naming the company |
| App.FallbackScoresCompared | app.py:77-84 | the app's and the framework stand-in's scorers (both 150) always agree; the crew module's (120) never scores lower, and scores differently exactly when 120·n < total ≤ 150·n |
| App.ThirdTierExample | app.py:81-82 | one 130-character answer scores 5 under both 150-threshold scorers and 6 under the 120-threshold one |
| App.CallCrew | app.py:25-60 | the crew call gives nothing (the RuntimeError) exactly when the start-up import failed; otherwise it is `interview_crew().kickoff(inputs)`, which is `{}` when `kickoff`'s own import fails or the action is neither known one |
| App.ResolveQuestions | app.py:116-128 | `begin` stores the crew's accepted list when there is one; otherwise `fallback_generate_questions`, four questions each naming the company |
| App.ResolveCheckedQuestions | app.py:116-128 | the corrected choice: the crew's list only when it is non-empty and every entry has a `question`, else the fallback; the result is always such a list, and it equals `begin`'s choice whenever the crew's list is one |
| App.CrewQuestionsOrder | app.py:116-125 | `begin` takes a truthy `questions` value of a dict if it is a list, else a bare list as it is (even empty), else nothing (the fallback path), including when the call raised |
| App.CrewQuestionsOfPayload | app.py:119-124 | a non-empty `{"questions": qs}` result yields exactly qs |
| App.WiredGenerate | app.py:49-50 | wired through `kickoff`, the generation call returns `{"questions": qs}` for the crew module's questions |
| App.WiredGeneratedFour | app.py:117-124 | wired with both imports working, `begin` accepts the crew's questions, at least four of them |
| App.CrewGivesAtLeastFour | app.py:116-128 | wired, any questions `begin` accepts from the crew number at least four, whichever import fails |
| App.BeginStoresAtLeastFour | app.py:116-133 | wired, `begin` always stores at least four questions, whatever the models reply and whichever import fails |
| App.UnwrapReport | app.py:202-212 | the unwrapped report, when there is one, is truthy (a falsy one is rejected) |
| App.ReportData | app.py:199-215 | the rendered report is never falsy; when unwrapping finds nothing it is `fallback_evaluate`'s report |
| App.ReportPrecedence | app.py:203-211 | a `report` key decides alone (falsy means fallback, even when `result` exists); then a dict `result`, by its own `report` or else itself; then the result itself if it holds `overall_score` and `strengths`; otherwise fallback |
| App.ReportFallsBackOnNonDict | app.py:203-215 | a raised call or a non-dictionary result renders `fallback_evaluate`'s report |
| App.ReportOfPayload | app.py:204-205 | a `{"report": r}` result renders r when truthy, else the fallback |
| App.WiredEvaluate | app.py:49-50 | wired through `kickoff`, the evaluation call returns `{"report": r}` for the crew module's report |
| App.WiredReport | app.py:199-215 | wired, the rendered report is the first parsed model reply when truthy, else `fallback_evaluate`'s; when every model fails it is the crew module's 120-threshold heuristic |
| App.WiredKickoffEmptyIff | crewai.py:39-96 | wired, the crew returns `{}` exactly when `kickoff`'s import fails or the action is neither `generate_questions` nor `evaluate_answers` |
| App.QuestionView | app.py:178-186 | the question page is shown iff `questions[idx]["question"]` exists, with the session's company and role, number idx+1, total len(questions), that question and the given error flag; otherwise the request crashes |
| App.Session.Clear | app.py:103 | `session.clear()` empties the session and keeps its invariant |
| App.Session.Index | app.py:101-104 | the start page is shown and the session is cleared |
| App.Session.Restart | app.py:220-223 | the session is cleared and the client is sent to the start page |
| App.Session.Begin | app.py:107-138 | a company or role that is blank after stripping redirects to the start and writes nothing; otherwise the stripped names, the resolved questions, index 0 and no answers are stored; the session invariant is kept |
| App.Session.Interview | app.py:141-186 | no questions: back to the start, state unchanged; GET changes nothing and shows the current question or moves on to the report once idx ≥ len; a blank POST changes nothing and re-shows the question with the error; a non-blank POST appends exactly one record pairing the current question's text with the stripped answer, advances the index by one, and redirects to the report iff the new index ≥ len; a missing question crashes and changes nothing; `answers` stays in step with `current_question` |
| App.Session.AnswerOne | app.py:148-171 | a non-blank answer to a question that has its `question` appends exactly its record, advances the index by one and redirects to the report iff that was the last question, else to the next one; company, role and questions are kept |
| App.Session.AnswerRemaining | app.py:141-171 | answering every remaining question with non-blank text, one reply per open question in order, appends one record per question, holding its reply stripped, and redirects to the next question each time except after the last, which redirects to the report; it needs every question to have a `question` |
| App.Session.AnswerAll | app.py:141-217 | after those answers the report page renders, truthy, for the session's company and role, from the crew's evaluation of exactly the recorded answers; no step crashes |
| App.Session.ViewTwice | app.py:173-186 | viewing the interview page twice shows the same outcome and changes nothing |
| App.Session.Report | app.py:189-217 | no answers: back to the start; otherwise the unwrapped-or-fallback report, truthy, with the session's company and role; the session is not modified |
| App.BracketedReplyAccepted | crew_agents.py:42-48 | a reply that is a bracketed list text parsing to four entries or more is accepted as exactly those entries, whatever they are |
| App.FourStringsAccepted | crew_agents.py:42-48 | the reply `["a", "b", "c", "d"]` is accepted as four strings, none of which has a `question` |
| App.BareListCrashes | app.py:116-186 | when the first model's accepted list starts with an entry that has no `question`, `begin` stores that list and the first view of the interview page crashes |
| App.FourStringsCrash | app.py:116-186 | when the models reply `["a", "b", "c", "d"]`, the interview page crashes right after `begin` |
| CrewAgents.InterviewCrew | crew_agents.py:143-151 | `interview_crew()` is a crew of two agents; it is the crew whose `kickoff` the wired crew call runs |
| CrewAgents.ExtractSpec | crew_agents.py:42-46 | extraction fails only when the opening bracket is absent; otherwise it is the inclusive span from the first opening to the last closing bracket, or empty when no closing bracket follows the first opening one |
| CrewAgents.QuestionsAttempt | crew_agents.py:42-48 | a reply is accepted iff its `[`…`]` part parses to a list of at least four entries, with no check on the entries; the accepted questions are exactly that parsed list |
| CrewAgents.ReportAttempt | crew_agents.py:104-108 | a reply is accepted iff its `{`…`}` part parses, to anything; the accepted report is exactly the parsed value |
| CrewAgents.MissingCloseFails | crew_agents.py:43-50 | with no closing bracket the slice is empty, its parse fails, and the attempt is skipped |
| CrewAgents.FirstSuccess | crew_agents.py:38-50 | the search fails iff every model's attempt fails; a success is some model's attempt |
| CrewAgents.FirstSuccessAt | crew_agents.py:38-50 | models are tried strictly in order: the first model whose attempt succeeds decides the result |
| CrewAgents.AskForQuestions | crew_agents.py:38-50 | the question loop returns exactly the first-success result over the model list, and any accepted list has at least four entries |
| CrewAgents.QuestionsSearchAtLeastFour | crew_agents.py:47-48 | whatever reply the question search accepts holds at least four entries |
| CrewAgents.FallbackQuestions | crew_agents.py:52-57 | exactly four entries, each an object whose `question` string contains the company |
| CrewAgents.GeneratedQuestions | crew_agents.py:38-58 | the settled questions number at least four |
| CrewAgents.GenerateQuestionsTask | crew_agents.py:21-58 | a KeyError iff company or role is missing; otherwise a task holding `{"questions": qs}` with at least four questions: the first accepted reply's, else the fallback |
| CrewAgents.GenerateQuestionsAlwaysFour | crew_agents.py:21-58 | given company and role, the task yields `{"questions": qs}` for the settled questions |
| CrewAgents.GenerateQuestionsAllFail | crew_agents.py:52-58 | when every model fails, the questions are exactly the four fallback ones |
| CrewAgents.GenerateQuestionsFirstAccepted | crew_agents.py:38-48 | the first model whose reply is accepted decides the questions, whatever later models would reply |
| CrewAgents.FallbackReport | crew_agents.py:113-136 | overall score is the 400/250/120 chain over the average length; same topic offsets, all within 4..9; its two fixed strengths and the single weakness naming the company |
| CrewAgents.AskForReport | crew_agents.py:100-111 | the evaluation loop returns exactly the first-success result over the model list |
| CrewAgents.EvaluateAnswersTask | crew_agents.py:70-137 | a KeyError iff company or role is missing; otherwise a task holding `{"report": r}` for the first parsed reply, else the heuristic report |
| CrewAgents.EvaluateAnswersOutcome | crew_agents.py:100-137 | given company and role, the task yields `{"report": r}` for the settled report |
| CrewAgents.EvaluateAnswersFirstParsed | crew_agents.py:100-109 | the first model whose reply parses decides the report, whatever later models would reply |
| CrewAgents.EvaluateAnswersAllFail | crew_agents.py:113-137 | when no reply parses, the report is the 120-threshold heuristic one |
| CrewAgents.AnswersBlockInOrder | crew_agents.py:80 | the answers block is empty for no records and one entry for one; each further record adds a blank line and its `Q: …\nA: …` entry at the end, so entries appear in record order |
| Crewai.DecoratorsAreIdentities | crewai.py:4-13 | `agent(f)`, `task(a)(f)` and `crew(f)` are all `f` |
| Crewai.NewTask | crewai.py:22-24 | `Task.result` is the given value when it is truthy, and `{}` when it is absent or falsy |
| Crewai.NewCrew | crewai.py:28-30 | `Crew.agents` is the given list, or `[]` when none is given |
| Crewai.QuestionsPayload | crewai.py:60 | `{"questions": qs}` is truthy, even for an empty list |
| Crewai.ReportPayload | crewai.py:83 | `{"report": r}` is truthy, whatever r is |
| Crewai.FallbackQuestions | crewai.py:58-65 | exactly four entries, each an object whose `question` string contains the company |
| Crewai.FallbackReport | crewai.py:79-94 | overall score is the 400/250/150 chain over the average length; same topic offsets, all within 4..9; the two fixed strengths and the single weakness naming the company |
| Crewai.Crew.Kickoff | crewai.py:32-96 | a failed import gives `{}`; an action other than the two known ones gives `{}` |
| Crewai.KickoffPassesThrough | crewai.py:46-54 | for a known action, a task's result or a dictionary is returned exactly as the task gave it |
| Crewai.KickoffQuestionsFallback | crewai.py:57-65 | generation that is missing, raises or returns anything else yields `{"questions": qs}` for exactly the framework stand-in's four fallback questions, built from the company and role with the defaults `"Company"` and `"Role"` when absent; each names the company |
| Crewai.KickoffReportFallback | crewai.py:78-94 | evaluation that is missing, raises or returns anything else yields `{"report": r}` for the 150-threshold heuristic over the given answers (none when absent) |
| PyJson.TemplatedQuestion | app.py:66-69 | a question templated around the company names the company |
| Scoring.Divisor | app.py:76 | `len(answers) or 1` is at least 1 and equals the count when there are answers: no division by zero |
| Scoring.AboveIffScaled | app.py:77-82 | `avg > k` holds exactly when `total > k·divisor`, so the real-valued chain can be decided on integers |
| Scoring.BaseScore | app.py:75-84 | the integer-only base score equals the threshold chain over the exact real average and lies in 5..8 |
| Scoring.BaseScoreMonotone | app.py:77-84 | for a fixed number of answers, more characters never lower the base score |
| Scoring.NoAnswersScoreFive | app.py:75-84 | with no answers the divisor is 1 and the base score is 5 |
| Scoring.ThirdTierComparison | crew_agents.py:120 | the 120 threshold never gives a lower base than 150, and gives a different one exactly when 120·n < total ≤ 150·n |
| Scoring.HeuristicReport | app.py:86-96 | overall is the base; technical knowledge, code quality and system design equal it, problem solving is one above, communication is max(base-1, 1); every score lies in 4..9 |
| Scoring.ReportJson | app.py:86-96 | the report dictionary is truthy and carries `overall_score` (the base) and `strengths`, so `report`'s direct-report check accepts it |
| Text.TrimStartSpec | app.py:109 | stripping the front removes exactly a whitespace prefix and leaves no leading whitespace |
| Text.TrimEndSpec | app.py:109 | stripping the end removes exactly a whitespace suffix and leaves no trailing whitespace |
| Text.StripSpec | app.py:109-110 | `strip()` returns a contiguous middle part of the string; everything removed is whitespace, and the result neither starts nor ends with whitespace |
| Text.TrimmedIffFixed | app.py:109-110 | a string is its own `strip()` exactly when it neither starts nor ends with whitespace, which is what the session keeps for every stored field |
| Text.StripEmptyIff | app.py:112 | a stripped field is empty exactly when the field is all whitespace |
| Text.Find | crew_agents.py:43 | `find` gives -1 iff the character is absent, else the index of its first occurrence |
| Text.RFind | crew_agents.py:44 | `rfind` gives -1 iff the character is absent, else the index of its last occurrence |
| Text.JoinSnoc | crew_agents.py:80 | `sep.join` of one more part is the previous join, the separator and that part |

## Left out

- Flask itself is out of scope: routing, `render_template`, `redirect`/`url_for`, the signed-cookie session and its lifetime, and the secret key. The session is a `Session` object, and each route returns an `Outcome`.
- App.Session.Interview: the progress percentage `int((idx / len) * 100)` is not computed. It is float arithmetic, and the model has no floats.
- App.Session.Report: `session.get`'s "Unknown Company" and "Unknown Role" defaults are not modelled. A session holding answers always holds company and role here.
- App.CallCrew: only the path the repository takes is modelled, where `interview_crew()` returns a `Crew` that has `kickoff`. The duck-typed `run`, plain-callable and exception-type probing is not.
- Import success is a boolean parameter, for both the application's start-up import and `kickoff`'s `importlib` call.
- The Gemini client, `load_dotenv`, the API key check and its ValueError are left out. A model call is the parameter `gemini`, with None for a call that raised.
- CrewAgents.Prompt: a prompt carries the company, role and answer records, not the rendered text. Its wording beyond the answers block is not modelled, so the model assumes nothing about what a model replies to it.
- CrewAgents.AskForQuestions: each loop step calls the attempt function, which models the strip, slice and parse statements inside the `try`. The loop itself models the iteration, the skip on failure and the early return.
- `json.loads` is the parameter `parse`, so nothing is assumed about what it accepts. `CrewAgents.MissingCloseFails` states its one needed property, rejecting the empty string, as a precondition.
- JSON numbers are integers: scores, and whatever a model reply holds, like the 8.5 of the prompt's example, are not floats.
- Scoring.AverageLength: the average answer length is an exact real, where Python computes a float by true division. The threshold comparisons agree for every answer count below about 3·10^13, because a total that differs from k·n differs from it by at least 1/n after dividing, which is more than the float's rounding error at 400. Beyond that count the model does not follow float rounding.
- An answer record always has both keys, because the application builds every record with both. `a.get("answer", "")` is therefore a field read.
- `show`, Python's `str()` of a question value in the answers block, is a parameter.
- A crew input value is either present with the right type or absent.
- Logging (`print`, `traceback`), the `__repr__` methods and the `__main__` block are not modelled.
- Text.IsSpace: case folding, normalisation and encodings are not modelled. Strings are sequences of characters, and whitespace is the fixed set Python's `str.isspace()` accepts.
- The session invariant `Valid()`, which every `Session` method requires, holds only if the session cookie is written by these routes alone. A client who knows the fallback secret key (app.py:13) can forge a session that breaks it, for example one whose answers do not match its questions. That is not modelled.
- App.Session.Begin: the route stores the questions exactly as the application does, through `ResolveQuestions`. The corrected `ResolveCheckedQuestions` is proved beside it but not wired in, so the routes keep the crash listed under Findings.

## Findings

| source | as written | input that shows it | evidently intended | confidence | as-written member | corrected member |
|---|---|---|---|---|---|---|
| crew_agents.py:47; app.py:119-133; app.py:182 | the crew module accepts any list of four or more values; `begin` stores it; the interview page then reads `questions[idx]["question"]`, which raises for a string entry | every model replying `["a", "b", "c", "d"]` | accept a list only when every entry is an object with a `question`, else use the fallback questions, so that a complete set of answers always reaches the report | not executed | App.FourStringsCrash, App.BareListCrashes | App.ResolveCheckedQuestions, App.Session.AnswerAll |

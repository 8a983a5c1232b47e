/**
 * The JSON values that flow between the routes, the crew shim and the
 * model replies, with Python's notion of truthiness over them.
 * Numbers are integers: every number the system itself produces is one.
 */
module PyJson {
  import opened Wrappers
  import opened Text

  datatype Json =
    | Null
    | Bool(b: bool)
    | Num(n: int)
    | Str(text: string)
    | List(items: seq<Json>)
    | Object(fields: map<string, Json>)

  const EmptyObject: Json := Object(map[])

  /** `bool(v)` in Python: None, False, 0, "", [] and {} are falsy. */
  predicate Truthy(j: Json) {
    match j
    case Null => false
    case Bool(b) => b
    case Num(n) => n != 0
    case Str(t) => t != ""
    case List(xs) => xs != []
    case Object(m) => m != map[]
  }

  /** `d.get(key)`: the value under `key`, or None (JSON null) when absent. */
  function Get(m: map<string, Json>, key: string): Json
  {
    if key in m then m[key] else Null
  }

  /** Python's `a or b`. */
  function Or(a: Json, b: Json): Json
  {
    if Truthy(a) then a else b
  }

  /** `obj["question"]` on one entry of the questions list: present only on an object holding that key. */
  function QuestionField(q: Json): Option<Json>
  {
    if q.Object? && "question" in q.fields then Some(q.fields["question"]) else None
  }

  /** A list of strings as a JSON array. */
  function StrList(xs: seq<string>): Json
  {
    List(seq(|xs|, i requires 0 <= i < |xs| => Str(xs[i])))
  }

  /** `{"question": text}`: one entry of a questions list. */
  function QuestionObject(text: string): Json {
    Object(map["question" := Str(text)])
  }

  /** The entry is an object whose `question` is a string mentioning `word`. */
  predicate AsksAbout(q: Json, word: string) {
    q.Object? && "question" in q.fields && q.fields["question"].Str?
    && Contains(q.fields["question"].text, word)
  }

  /** `{"question": before + word + after}`: a question templated around `word` asks about it. */
  function TemplatedQuestion(before: string, word: string, after: string): (q: Json)
    ensures AsksAbout(q, word)
  {
    ContainsSpliced(before, word, after);
    QuestionObject(before + word + after)
  }
}

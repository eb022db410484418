/** A JSON value as `json.loads` hands it to Python, and the lookup
    `j["choices"][0]["message"]["content"]` that every node applies to a
    parsed response, with Python's own subscript rules for each step. */
module Json {
  import opened Base

  /** Objects are Python dicts: one value per key. Key order only matters to
      the serialiser, which is not modelled. Numbers are carried through
      unchanged and never computed with. */
  datatype Json =
    | Null
    | Bool(b: bool)
    | Int(i: int)
    | Float(f: real)
    | Str(s: string)
    | Arr(items: seq<Json>)
    | Obj(fields: map<string, Json>)

  /** The name Python gives the type of the decoded value. */
  function TypeName(v: Json): string {
    match v
    case Null => "NoneType"
    case Bool(_) => "bool"
    case Int(_) => "int"
    case Float(_) => "float"
    case Str(_) => "str"
    case Arr(_) => "list"
    case Obj(_) => "dict"
  }

  /** `v[k]` for a string key `k` (one without quotes or backslashes, so
      that `repr(k)` is `'k'`): a dict lookup, or the exception Python raises. */
  function Key(v: Json, k: string): (r: Result<Json>)
    ensures r.Ok? <==> v.Obj? && k in v.fields
    ensures r.Ok? ==> r.value == v.fields[k]
    ensures v.Obj? && k !in v.fields ==> r == Err("'" + k + "'")
    ensures v.Arr? ==> r == Err("list indices must be integers or slices, not str")
    ensures v.Str? ==> r == Err("string indices must be integers, not 'str'")
    ensures !v.Obj? && !v.Arr? && !v.Str? ==> r == Err("'" + TypeName(v) + "' object is not subscriptable")
  {
    match v
    case Obj(m) => if k in m then Ok(m[k]) else Err("'" + k + "'")
    case Arr(_) => Err("list indices must be integers or slices, not str")
    case Str(_) => Err("string indices must be integers, not 'str'")
    case _ => Err("'" + TypeName(v) + "' object is not subscriptable")
  }

  /** `v[0]`: the first element of a list, the first character of a string,
      a `KeyError` on a dict (decoded keys are strings, never `0`). */
  function First(v: Json): (r: Result<Json>)
    ensures r.Ok? <==> (v.Arr? && |v.items| > 0) || (v.Str? && |v.s| > 0)
    ensures r.Ok? && v.Arr? ==> r.value == v.items[0]
    ensures r.Ok? && v.Str? ==> r.value == Str([v.s[0]])
    ensures v.Arr? && |v.items| == 0 ==> r == Err("list index out of range")
    ensures v.Str? && |v.s| == 0 ==> r == Err("string index out of range")
    ensures v.Obj? ==> r == Err("0")
    ensures !v.Obj? && !v.Arr? && !v.Str? ==> r == Err("'" + TypeName(v) + "' object is not subscriptable")
  {
    match v
    case Arr(xs) => if |xs| > 0 then Ok(xs[0]) else Err("list index out of range")
    case Str(s) => if |s| > 0 then Ok(Str([s[0]])) else Err("string index out of range")
    case Obj(_) => Err("0")
    case _ => Err("'" + TypeName(v) + "' object is not subscriptable")
  }

  /** `j["choices"][0]["message"]["content"]`, evaluated left to right; the
      first step that raises decides the error text. The lookup succeeds
      exactly when every key and the index exist along the path: `choices`
      is a non-empty list whose first element is a dict with a `message`
      dict holding `content`. */
  function ChoiceContent(j: Json): (r: Result<Json>)
    ensures r.Ok? <==>
      && j.Obj? && "choices" in j.fields
      && j.fields["choices"].Arr? && |j.fields["choices"].items| > 0
      && j.fields["choices"].items[0].Obj? && "message" in j.fields["choices"].items[0].fields
      && j.fields["choices"].items[0].fields["message"].Obj?
      && "content" in j.fields["choices"].items[0].fields["message"].fields
    ensures r.Ok? ==> r.value == j.fields["choices"].items[0].fields["message"].fields["content"]
    ensures Key(j, "choices").Err? ==> r == Err(Key(j, "choices").message)
    ensures Key(j, "choices").Ok? && First(Key(j, "choices").value).Err? ==>
      r == Err(First(Key(j, "choices").value).message)
    ensures Key(j, "choices").Ok? && First(Key(j, "choices").value).Ok?
            && Key(First(Key(j, "choices").value).value, "message").Err? ==>
      r == Err(Key(First(Key(j, "choices").value).value, "message").message)
    ensures Key(j, "choices").Ok? && First(Key(j, "choices").value).Ok?
            && Key(First(Key(j, "choices").value).value, "message").Ok? ==>
      r == Key(Key(First(Key(j, "choices").value).value, "message").value, "content")
  {
    var choices :- Key(j, "choices");
    var choice :- First(choices);
    var message :- Key(choice, "message");
    Key(message, "content")
  }

  /** `len(v)` is defined: a string, a list or a dict. */
  predicate HasLen(v: Json) {
    v.Str? || v.Arr? || v.Obj?
  }

  /** The text of the `TypeError` that `len(v)` raises for a value without a length. */
  function NoLenText(v: Json): string {
    "object of type '" + TypeName(v) + "' has no len()"
  }

  /** The response shape the nodes expect, with `c` as the reply text. */
  function Completion(c: Json): (j: Json)
    ensures ChoiceContent(j) == Ok(c)
  {
    Obj(map["choices" := Arr([Obj(map["message" := Obj(map["content" := c])])])])
  }

  /** A response without `choices` fails with Python's `KeyError: 'choices'`. */
  lemma MissingChoices(fields: map<string, Json>)
    requires "choices" !in fields
    ensures ChoiceContent(Obj(fields)) == Err("'choices'")
  {
  }

  /** A non-empty string under `choices` passes `[0]` and then fails at
      `["message"]`, since a one-character string cannot take a string key. */
  lemma StringChoices(fields: map<string, Json>, s: string)
    requires "choices" in fields && fields["choices"] == Str(s) && s != ""
    ensures ChoiceContent(Obj(fields)) == Err("string indices must be integers, not 'str'")
  {
  }

  /** An empty `choices` list fails at the index step. */
  lemma EmptyChoices(fields: map<string, Json>)
    requires "choices" in fields && fields["choices"] == Arr([])
    ensures ChoiceContent(Obj(fields)) == Err("list index out of range")
  {
  }
}

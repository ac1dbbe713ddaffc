/** The values `json.loads` can return, and Python's `dict.get` on them. */
module JsonValues {
  import opened Wrappers

  /** A decoded JSON document: `null`, a boolean, an integer, a string, a
      list or an object (a `dict` from keys to values). */
  datatype Json =
    | Null
    | Bool(b: bool)
    | Number(n: int)
    | Str(s: string)
    | Arr(items: seq<Json>)
    | Obj(fields: map<string, Json>)

  /** The exceptions Python raises when the page reads a value of the wrong
      type: `AttributeError` for `.get` on a value that is not a `dict`, and
      `TypeError` for iterating a value that is not iterable or adding a
      string to a value that is not one. */
  datatype PyError = AttributeError | TypeError

  /** `v.get(key, default)`: the bound value or the default for an object;
      any other value has no `.get` method. */
  function DictGet(v: Json, key: string, default: Json): (r: Result<Json, PyError>)
    ensures r.Ok? <==> v.Obj?
    ensures v.Obj? && key in v.fields ==> r == Ok(v.fields[key])
    ensures v.Obj? && key !in v.fields ==> r == Ok(default)
  {
    match v
    case Obj(fields) => Ok(if key in fields then fields[key] else default)
    case _ => Err(AttributeError)
  }

  /** A list of strings as a JSON list. */
  function Strings(items: seq<string>): (r: Json)
    ensures r.Arr? && |r.items| == |items|
    ensures forall i :: 0 <= i < |items| ==> r.items[i] == Str(items[i])
  {
    Arr(seq(|items|, i requires 0 <= i < |items| => Str(items[i])))
  }

  /** The strings of a JSON list whose every element is a string. */
  function AsStrings(v: Json): (r: Option<seq<string>>)
    ensures r.Some? <==> v.Arr? && forall i :: 0 <= i < |v.items| ==> v.items[i].Str?
    ensures r.Some? ==> |r.value| == |v.items| && forall i :: 0 <= i < |v.items| ==> v.items[i] == Str(r.value[i])
  {
    if v.Arr? && forall i :: 0 <= i < |v.items| ==> v.items[i].Str? then
      Some(seq(|v.items|, i requires 0 <= i < |v.items| => v.items[i].s))
    else None
  }

  /** Reading back a list built from strings gives those strings. */
  lemma {:induction false} AsStringsOfStrings(items: seq<string>)
    ensures AsStrings(Strings(items)) == Some(items)
  {
    var r := AsStrings(Strings(items));
    assert r.Some?;
    assert r.value == items;
  }
}

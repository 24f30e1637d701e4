/** The untyped webhook payload: a JSON value, and the permissive nested
    field lookup the event context uses to read it. */
module Json {
  import opened Wrappers

  /** A JSON value. `Undefined` is the value a JavaScript property read yields
      for a missing field; it never occurs in a parsed payload, but it can
      appear in a derived coordinates mapping. */
  datatype Value =
    | Undefined
    | Null
    | Bool(b: bool)
    | Num(n: int)
    | Str(s: string)
    | Arr(items: seq<Value>)
    | Obj(fields: map<string, Value>)

  /** The empty object `{}`. */
  const EmptyObject: Value := Obj(map[])

  /** Follows `path` field by field from `v`. A field that is missing, or a
      step through something that is not an object, yields `None`: the
      lookup never fails, it only finds nothing. */
  function Get(v: Value, path: seq<string>): (r: Option<Value>)
    ensures path == [] ==> r == Some(v)
    ensures |path| == 1 ==> (r.Some? <==> v.Obj? && path[0] in v.fields)
    ensures |path| == 1 && r.Some? ==> r.value == v.fields[path[0]]
    decreases |path|
  {
    if path == [] then Some(v)
    else if v.Obj? && path[0] in v.fields then Get(v.fields[path[0]], path[1..])
    else None
  }

  /** The value at `path` as a property read sees it: `Undefined` when absent. */
  function Read(v: Value, path: seq<string>): Value
  {
    Get(v, path).GetOr(Undefined)
  }

  /** Looking up a path in two steps is looking it up in one: first the
      prefix, then the rest from wherever the prefix led. */
  lemma {:induction false} GetAppend(v: Value, prefix: seq<string>, rest: seq<string>)
    ensures Get(v, prefix + rest) ==
      (match Get(v, prefix)
       case None => None
       case Some(w) => Get(w, rest))
    decreases |prefix|
  {
    if prefix != [] {
      assert (prefix + rest)[0] == prefix[0];
      assert (prefix + rest)[1..] == prefix[1..] + rest;
      if v.Obj? && prefix[0] in v.fields {
        GetAppend(v.fields[prefix[0]], prefix[1..], rest);
      }
    } else {
      assert prefix + rest == rest;
    }
  }

  /** An absent intermediate field makes every field below it absent too
      (rather than an error). */
  lemma AbsentBelowAbsent(v: Value, prefix: seq<string>, rest: seq<string>)
    requires Get(v, prefix).None?
    ensures Get(v, prefix + rest).None?
  {
    GetAppend(v, prefix, rest);
  }

  /** A property read along `prefix + rest` reads `rest` from the object
      `prefix` leads to, and is `Undefined` when `prefix` leads nowhere. */
  lemma ReadAppend(v: Value, prefix: seq<string>, rest: seq<string>)
    ensures Read(v, prefix + rest) ==
      if Get(v, prefix).Some? then Read(Get(v, prefix).value, rest) else Undefined
  {
    GetAppend(v, prefix, rest);
  }

  /** The first present value among `candidates`, in order: a chain of
      fallbacks in which the first match wins. */
  function FirstPresent<T>(candidates: seq<Option<T>>): (r: Option<T>)
    ensures r.None? <==> forall i :: 0 <= i < |candidates| ==> candidates[i].None?
    ensures r.Some? ==>
      exists i :: 0 <= i < |candidates| && candidates[i] == r &&
        forall j :: 0 <= j < i ==> candidates[j].None?
  {
    if |candidates| == 0 then None
    else if candidates[0].Some? then candidates[0]
    else
      var r := FirstPresent(candidates[1..]);
      assert forall i :: 1 <= i < |candidates| ==> candidates[i] == candidates[1..][i - 1];
      r
  }
}

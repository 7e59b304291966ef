/** JSON values as Python's `json` module hands them to the bot, with the parts of
    Python's evaluation rules that the bot's payload handling depends on: truthiness,
    `or` chains, `dict.get` (which raises on anything that is not a dict) and a
    `for` loop that returns early. */
module Json {

  /** A decoded JSON document. Floating-point numbers are not modelled. */
  datatype Json =
    | JNull
    | JBool(b: bool)
    | JInt(i: int)
    | JStr(s: string)
    | JArr(items: seq<Json>)
    | JObj(fields: map<string, Json>)

  datatype Option<+T> = None | Some(value: T)

  /** The outcome of evaluating a Python expression: a value, or an exception
      (an AttributeError from `.get` on a non-dict, a transport error, ...). */
  datatype Py<+T> = Ok(value: T) | Raise {
    predicate IsFailure() {
      Raise?
    }

    function PropagateFailure<U>(): Py<U>
      requires Raise?
    {
      Raise
    }

    function Extract(): T
      requires Ok?
    {
      value
    }
  }

  /** The literal `{}` that the source passes as a default to `get`. */
  const EmptyObj: Json := JObj(map[])

  /** Python's `bool(x)` for a JSON value: None, False, 0, "", [] and {} are false. */
  predicate Truthy(j: Json) {
    match j
    case JNull => false
    case JBool(b) => b
    case JInt(i) => i != 0
    case JStr(s) => s != ""
    case JArr(a) => a != []
    case JObj(m) => m != map[]
  }

  /** A value a caller can use: computing it did not raise and it is truthy. */
  predicate Usable(r: Py<Json>) {
    r.Ok? && Truthy(r.value)
  }

  /** Python's `x or y` when evaluating `y` cannot raise. */
  function Or(x: Json, y: Json): (r: Json)
    ensures Truthy(x) ==> r == x
    ensures !Truthy(x) ==> r == y
    ensures Truthy(r) <==> Truthy(x) || Truthy(y)
  {
    if Truthy(x) then x else y
  }

  /** `d.get(key, default)`: raises when `d` is not a dict. */
  function GetOr(d: Json, key: string, default: Json): Py<Json> {
    if !d.JObj? then Raise
    else if key in d.fields then Ok(d.fields[key])
    else Ok(default)
  }

  /** `d.get(key)`. */
  function Get(d: Json, key: string): Py<Json> {
    GetOr(d, key, JNull)
  }

  /** `d.get(key)` on a value already known to be a dict. */
  function Lookup(d: Json, key: string): Json
    requires d.JObj?
  {
    if key in d.fields then d.fields[key] else JNull
  }

  /** `d.get(k1, {}).get(k2, {}) ... .get(kn)`: follow a path of keys, reading a
      missing intermediate key as `{}` and a missing last key as None; raises as
      soon as an intermediate value is not a dict. */
  function Path(d: Json, keys: seq<string>): Py<Json>
    requires keys != []
    decreases |keys|
  {
    if |keys| == 1 then Get(d, keys[0])
    else
      var next :- GetOr(d, keys[0], EmptyObj);
      Path(next, keys[1..])
  }

  /** Python's `v1 or v2 or ... or vn` over values already computed: the first
      truthy one, or the last one when none is truthy. */
  function FirstTruthy(vs: seq<Json>): (r: Json)
    requires vs != []
    ensures r in vs
    ensures Truthy(r) <==> exists i :: 0 <= i < |vs| && Truthy(vs[i])
    decreases |vs|
  {
    if |vs| == 1 || Truthy(vs[0]) then vs[0] else FirstTruthy(vs[1..])
  }

  /** The `or` chain stops at its first truthy operand and falls through to its
      last operand when none is truthy. */
  lemma {:induction false} FirstTruthyIsFirst(vs: seq<Json>)
    requires vs != []
    ensures forall i :: 0 <= i < |vs| && Truthy(vs[i]) && (forall j :: 0 <= j < i ==> !Truthy(vs[j])) ==>
              FirstTruthy(vs) == vs[i]
    ensures (forall i :: 0 <= i < |vs| ==> !Truthy(vs[i])) ==> FirstTruthy(vs) == vs[|vs| - 1]
    decreases |vs|
  {
    if |vs| > 1 && !Truthy(vs[0]) {
      var rest := vs[1..];
      FirstTruthyIsFirst(rest);
      forall i | 0 <= i < |vs| && Truthy(vs[i]) && (forall j :: 0 <= j < i ==> !Truthy(vs[j]))
        ensures FirstTruthy(vs) == vs[i]
      {
        forall j | 0 <= j < i - 1 ensures !Truthy(rest[j]) {
          assert rest[j] == vs[j + 1];
        }
        assert rest[i - 1] == vs[i];
      }
      if forall i :: 0 <= i < |vs| ==> !Truthy(vs[i]) {
        forall j | 0 <= j < |rest| ensures !Truthy(rest[j]) {
          assert rest[j] == vs[j + 1];
        }
      }
    }
  }

  /** `for x in xs: <probe x>`: the loop body either raises, says "keep going"
      (`Ok(None)`) or returns a value (`Ok(Some(v))`). The result is the outcome of
      the first body that does not keep going, and `Ok(None)` when every body does. */
  function FirstMatch<T>(xs: seq<Json>, probe: Json -> Py<Option<T>>): Py<Option<T>>
    decreases |xs|
  {
    if xs == [] then Ok(None)
    else
      var h :- probe(xs[0]);
      if h.Some? then Ok(h) else FirstMatch(xs[1..], probe)
  }

  /** The loop over `xs` stops at index `i`: every earlier body kept going and
      the body for `xs[i]` did not. */
  ghost predicate StopsAt<T>(xs: seq<Json>, probe: Json -> Py<Option<T>>, i: int) {
    && 0 <= i < |xs|
    && probe(xs[i]) != Ok(None)
    && forall j :: 0 <= j < i ==> probe(xs[j]) == Ok(None)
  }

  /** The early-return loop yields the outcome at the first index where it stops,
      and runs to completion with `Ok(None)` exactly when no index stops it. */
  lemma {:induction false} FirstMatchSpec<T>(xs: seq<Json>, probe: Json -> Py<Option<T>>)
    ensures forall i :: StopsAt(xs, probe, i) ==> FirstMatch(xs, probe) == probe(xs[i])
    ensures FirstMatch(xs, probe) == Ok(None) <==>
              forall j :: 0 <= j < |xs| ==> probe(xs[j]) == Ok(None)
    ensures FirstMatch(xs, probe) != Ok(None) ==> exists i :: StopsAt(xs, probe, i)
    decreases |xs|
  {
    if xs != [] {
      var tail := xs[1..];
      FirstMatchSpec(tail, probe);
      if probe(xs[0]) == Ok(None) {
        assert FirstMatch(xs, probe) == FirstMatch(tail, probe);
        forall i | StopsAt(xs, probe, i)
          ensures FirstMatch(xs, probe) == probe(xs[i])
        {
          assert i > 0;
          assert StopsAt(tail, probe, i - 1);
        }
        if FirstMatch(xs, probe) != Ok(None) {
          var k :| StopsAt(tail, probe, k);
          assert StopsAt(xs, probe, k + 1);
        } else {
          forall j | 0 <= j < |xs| ensures probe(xs[j]) == Ok(None) {
            if j > 0 { assert xs[j] == tail[j - 1]; }
          }
        }
      } else {
        assert StopsAt(xs, probe, 0);
        forall i | StopsAt(xs, probe, i)
          ensures FirstMatch(xs, probe) == probe(xs[i])
        {
          assert i == 0;
        }
      }
    }
  }
}

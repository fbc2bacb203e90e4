/**
 * The dynamically typed payloads that flow through the pipeline: entity maps,
 * response metadata, tool arguments and context dictionaries. A Python dict
 * with string keys is `map<string, Value>`; `{**a, **b}` and `a.update(b)`
 * are the right-biased union `a + b`.
 */
module Values {
  import opened Text

  datatype Value =
    | Null
    | Str(s: string)
    | Int(i: int)
    | Num(r: real)
    | Bool(b: bool)
    | List(items: seq<Value>)
    | Dict(fields: map<string, Value>)

  type Dict = map<string, Value>

  /** Python truthiness. */
  predicate Truthy(v: Value)
  {
    match v
    case Null => false
    case Str(s) => s != ""
    case Int(i) => i != 0
    case Num(r) => r != 0.0
    case Bool(b) => b
    case List(xs) => xs != []
    case Dict(m) => m != map[]
  }

  /** `value in (None, "", [], {})`. */
  predicate IsEmptyValue(v: Value)
  {
    v == Null || v == Str("") || v == List([]) || v == Dict(map[])
  }

  lemma EmptyValuesAreFalsy(v: Value)
    ensures IsEmptyValue(v) ==> !Truthy(v)
  {}

  /** `d.get(k, default)`. */
  function Get(d: Dict, k: string, default: Value): (v: Value)
    ensures k in d ==> v == d[k]
    ensures k !in d ==> v == default
  {
    if k in d then d[k] else default
  }

  /** `str(v)`: exact for None, strings, booleans and integers; floats and containers get a fixed placeholder. */
  function PyStr(v: Value): (r: string)
    ensures v.Str? ==> r == v.s
  {
    match v
    case Null => "None"
    case Str(s) => s
    case Int(i) => IntToString(i)
    case Num(_) => "0.0"
    case Bool(b) => if b then "True" else "False"
    case List(_) => "[...]"
    case Dict(_) => "{...}"
  }

  /** `str(v or "")`. */
  function OrEmpty(v: Value): (r: string)
    ensures !Truthy(v) ==> r == ""
    ensures v.Str? ==> r == v.s
  {
    if Truthy(v) then PyStr(v) else ""
  }

  /** The string payload of `v` when it is a string, for `isinstance(v, str)` guards. */
  function StrOr(v: Value, default: string): (r: string)
    ensures v.Str? ==> r == v.s
    ensures !v.Str? ==> r == default
  {
    if v.Str? then v.s else default
  }

  /**
   * `list(v)` for a list (its items) or a string (its characters); any
   * other value gives [] (a dict's keys are not modelled).
   */
  function ListItems(v: Value): (r: seq<Value>)
    ensures v.List? ==> r == v.items
    ensures v.Str? ==> |r| == |v.s|
    ensures !v.List? && !v.Str? ==> r == []
  {
    match v
    case List(xs) => xs
    case Str(s) => seq(|s|, i requires 0 <= i < |s| => Str([s[i]]))
    case _ => []
  }



  /** `[str(x) for x in v]` when `v` is a list, otherwise []. */
  function StrList(v: Value): (r: seq<string>)
    ensures v.List? ==> |r| == |v.items|
    ensures !v.List? ==> r == []
  {
    if v.List? then StrItems(v.items) else []
  }

  function StrItems(xs: seq<Value>): (r: seq<string>)
    ensures |r| == |xs|
    ensures forall k :: 0 <= k < |xs| ==> r[k] == PyStr(xs[k])
  {
    if xs == [] then [] else [PyStr(xs[0])] + StrItems(xs[1..])
  }

  function StrValues(xs: seq<string>): (r: seq<Value>)
    ensures |r| == |xs|
    ensures forall k :: 0 <= k < |xs| ==> r[k] == Str(xs[k])
  {
    if xs == [] then [] else [Str(xs[0])] + StrValues(xs[1..])
  }

  lemma {:induction false} StrItemsOfStrValues(xs: seq<string>)
    ensures StrItems(StrValues(xs)) == xs
  {
    if xs != [] {
      StrItemsOfStrValues(xs[1..]);
      assert StrValues(xs)[1..] == StrValues(xs[1..]);
    }
  }

  /** `dict.setdefault(k, v)` on a dict that is then kept. */
  function SetDefault(d: Dict, k: string, v: Value): (r: Dict)
    ensures k in r && r[k] == (if k in d then d[k] else v)
    ensures forall j :: j in d ==> j in r && r[j] == d[j]
    ensures r.Keys == d.Keys + {k}
  {
    if k in d then d else d[k := v]
  }
}

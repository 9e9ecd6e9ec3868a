/** The plain JavaScript objects of the API-backed pages: records whose
    fields may be missing, modelled as maps from property names to values;
    a missing property reads as `undefined`. */
module Js {
  import opened Wrappers
  import opened Text

  /** A property value. Numbers are integers in this model. */
  datatype Scalar = Undefined | Null | Bool(b: bool) | Number(n: int) | Str(s: string)

  /** A JavaScript object. */
  type Object = map<string, Scalar>

  /** `o[key]`. */
  function Get(o: Object, key: string): (v: Scalar)
    ensures key !in o ==> v == Undefined
  {
    if key in o then o[key] else Undefined
  }

  /** JavaScript truthiness. */
  predicate Truthy(v: Scalar) {
    match v
    case Undefined => false
    case Null => false
    case Bool(b) => b
    case Number(n) => n != 0
    case Str(s) => s != ""
  }

  /** `{...o, [key]: v}`: the key takes the value, every other property
      keeps its own. */
  function Assign(o: Object, key: string, v: Scalar): (r: Object)
    ensures r.Keys == o.Keys + {key}
    ensures Get(r, key) == v
    ensures forall k :: k != key ==> Get(r, k) == Get(o, k)
  {
    o[key := v]
  }

  /** `x || d`. */
  function OrElse(v: Scalar, d: Scalar): (r: Scalar)
    ensures Truthy(v) ==> r == v
    ensures !Truthy(v) ==> r == d
  {
    if Truthy(v) then v else d
  }

  /** `v?.toString()`: `None` for `undefined` and `null`. */
  function ToStringOf(v: Scalar): (r: Option<string>)
    ensures r.None? <==> v == Undefined || v == Null
  {
    match v
    case Undefined => None
    case Null => None
    case Bool(b) => Some(if b then "true" else "false")
    case Number(n) => Some(IntToString(n))
    case Str(s) => Some(s)
  }

  /** `v?.toLowerCase().includes(term.toLowerCase())`, true only for a
      string value. */
  predicate TextIncludes(v: Scalar, term: string) {
    v.Str? && Includes(Lower(v.s), Lower(term))
  }

  /** `v?.includes(term)`: case-sensitive, true only for a string value. */
  predicate ExactIncludes(v: Scalar, term: string) {
    v.Str? && Includes(v.s, term)
  }

  /** `v?.toString().includes(term)`. */
  predicate ShownIncludes(v: Scalar, term: string) {
    ToStringOf(v).Some? && Includes(ToStringOf(v).value, term)
  }

  /** A number matches a search term that is a run of its decimal digits. */
  lemma NumberMatchesItsDigits(n: int)
    ensures ShownIncludes(Number(n), IntToString(n))
  {
    var s := IntToString(n);
    assert s[..|s|] == s;
  }
}

/** JSON values as the configuration service sees them once a response body has been parsed. */
module JsonValues {

  datatype Option<+T> = None | Some(value: T)

  /** A parsed JSON document. Objects keep their members in enumeration order;
      numbers are opaque leaves. */
  datatype Json =
    | Obj(members: seq<(string, Json)>)
    | Arr(items: seq<Json>)
    | Str(s: string)
    | Num(n: int)
    | Bool(b: bool)
    | Null

  /** Objects and arrays: the values jsonpath accepts as a root (`instanceof Object`). */
  predicate IsContainer(j: Json) {
    j.Obj? || j.Arr?
  }

  /** Number of nodes in a document; the measure that makes the walker terminate. */
  function Size(j: Json): (n: nat)
    ensures n >= 1
    decreases j, 1
  {
    match j
    case Obj(ms) => 1 + MembersSize(ms)
    case Arr(xs) => 1 + ItemsSize(xs)
    case _ => 1
  }

  function MembersSize(ms: seq<(string, Json)>): nat
    decreases ms, 0
  {
    if ms == [] then 0
    else
      var (_, v) := ms[0];
      assert v < ms[0];
      Size(v) + MembersSize(ms[1..])
  }

  function ItemsSize(xs: seq<Json>): nat
    decreases xs, 0
  {
    if xs == [] then 0 else Size(xs[0]) + ItemsSize(xs[1..])
  }

  lemma {:induction false} MemberSmaller(ms: seq<(string, Json)>, i: nat)
    requires i < |ms|
    ensures Size(ms[i].1) <= MembersSize(ms)
    decreases i
  {
    if i > 0 {
      MemberSmaller(ms[1..], i - 1);
    }
  }

  lemma {:induction false} ItemSmaller(xs: seq<Json>, i: nat)
    requires i < |xs|
    ensures Size(xs[i]) <= ItemsSize(xs)
    decreases i
  {
    if i > 0 {
      ItemSmaller(xs[1..], i - 1);
    }
  }

  /** Names are distinct within every object, as in any value `JSON.parse` returns. */
  predicate WellFormed(j: Json)
    decreases j
  {
    match j
    case Obj(ms) =>
      && (forall a, b :: 0 <= a < b < |ms| ==> ms[a].0 != ms[b].0)
      && (forall i :: 0 <= i < |ms| ==> var (_, v) := ms[i]; assert v < ms[i]; WellFormed(v))
    case Arr(xs) => forall i :: 0 <= i < |xs| ==> WellFormed(xs[i])
    case _ => true
  }
}

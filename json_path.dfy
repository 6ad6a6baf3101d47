/** The part of jsonpath the service relies on: the `$`, `.name` and `[index]` path forms,
    `stringify`, one-level `.*` expansion, and `value` as a read and as a write. */
module JsonPath {
  import opened JsonValues
  import opened SeqUtil

  datatype Seg = Key(name: string) | Idx(index: nat)

  /** A location in a document: the empty path is the root `$`. */
  type Path = seq<Seg>

  // ---------------------------------------------------------------- decimal numbers

  predicate IsDigit(c: char) {
    '0' <= c <= '9'
  }

  predicate AllDigits(s: string) {
    forall i :: 0 <= i < |s| ==> IsDigit(s[i])
  }

  function DigitsValue(s: string): nat
    requires AllDigits(s)
    decreases |s|
  {
    if s == [] then 0 else DigitsValue(s[..|s| - 1]) * 10 + (s[|s| - 1] as int - '0' as int)
  }

  /** Decimal rendering of a non-negative integer, as JavaScript's template literals produce it. */
  function NatToString(n: nat): string
    decreases n
  {
    if n < 10 then [('0' as int + n) as char]
    else NatToString(n / 10) + [('0' as int + n % 10) as char]
  }

  /** The rendering is a non-empty run of digits that reads back as `n`, with no leading zero. */
  lemma {:induction false} NatToStringDigits(n: nat)
    ensures var s := NatToString(n);
            |s| >= 1 && AllDigits(s) && DigitsValue(s) == n && (s[0] == '0' <==> n == 0)
    decreases n
  {
    if n >= 10 {
      NatToStringDigits(n / 10);
      var s := NatToString(n);
      var front := NatToString(n / 10);
      assert s == front + [('0' as int + n % 10) as char];
      assert s[..|s| - 1] == front;
      assert s[0] == front[0];
    }
  }

  // ---------------------------------------------------------------- stringify and parse

  function SegString(seg: Seg): string {
    match seg
    case Key(k) => "." + k
    case Idx(i) => "[" + NatToString(i) + "]"
  }

  function SegsString(p: Path): string
    decreases |p|
  {
    if p == [] then "" else SegString(p[0]) + SegsString(p[1..])
  }

  /** `JsonPath.stringify`: `$` followed by `.name` for a member and `[i]` for an element. */
  function Stringify(p: Path): string {
    "$" + SegsString(p)
  }

  /** The stringified form of each path, in order. */
  function PathStrings(ps: seq<Path>): (r: seq<string>)
    ensures |r| == |ps| && forall i :: 0 <= i < |ps| ==> r[i] == Stringify(ps[i])
  {
    seq(|ps|, i requires 0 <= i < |ps| => Stringify(ps[i]))
  }

  lemma PathStringsConcat(ps: seq<Path>, qs: seq<Path>)
    ensures PathStrings(ps + qs) == PathStrings(ps) + PathStrings(qs)
  {
  }

  predicate KeyChar(c: char) {
    c != '.' && c != '['
  }

  /** Names that stringify in dot form and read back unchanged. */
  predicate DotKey(k: string) {
    k != [] && forall i :: 0 <= i < |k| ==> KeyChar(k[i])
  }

  predicate DotPath(p: Path) {
    forall i :: 0 <= i < |p| ==> p[i].Key? ==> DotKey(p[i].name)
  }

  /** Every member name anywhere in the document is in dot form. */
  predicate DotNames(j: Json)
    decreases j
  {
    match j
    case Obj(ms) =>
      forall i :: 0 <= i < |ms| ==> DotKey(ms[i].0) && var (_, v) := ms[i]; assert v < ms[i]; DotNames(v)
    case Arr(xs) => forall i :: 0 <= i < |xs| ==> DotNames(xs[i])
    case _ => true
  }

  function KeyRun(s: string): (n: nat)
    ensures n <= |s|
    ensures forall i :: 0 <= i < n ==> KeyChar(s[i])
    ensures n < |s| ==> !KeyChar(s[n])
    decreases |s|
  {
    if s != [] && KeyChar(s[0]) then 1 + KeyRun(s[1..]) else 0
  }

  function DigitRun(s: string): (n: nat)
    ensures n <= |s|
    ensures AllDigits(s[..n])
    ensures n < |s| ==> !IsDigit(s[n])
    decreases |s|
  {
    if s != [] && IsDigit(s[0]) then
      var n := 1 + DigitRun(s[1..]);
      assert s[..n] == [s[0]] + s[1..][..n - 1];
      n
    else 0
  }

  function ParseSegs(s: string): Option<Path>
    decreases |s|
  {
    if s == [] then Some([])
    else if s[0] == '.' then
      var n := KeyRun(s[1..]);
      if n == 0 then None
      else
        match ParseSegs(s[1 + n..])
        case None => None
        case Some(rest) => Some([Key(s[1..1 + n])] + rest)
    else if s[0] == '[' then
      var n := DigitRun(s[1..]);
      if n == 0 || 1 + n == |s| || s[1 + n] != ']' then None
      else
        assert s[1..1 + n] == s[1..][..n];
        match ParseSegs(s[2 + n..])
        case None => None
        case Some(rest) => Some([Idx(DigitsValue(s[1..1 + n]))] + rest)
    else None
  }

  /** Reads a path expression in the `$`, `.name`, `[index]` forms; anything else is a syntax error. */
  function Parse(s: string): Option<Path> {
    if s != [] && s[0] == '$' then ParseSegs(s[1..]) else None
  }

  lemma SegsStringStart(p: Path)
    ensures SegsString(p) == [] || SegsString(p)[0] == '.' || SegsString(p)[0] == '['
  {
  }

  lemma {:induction false} KeyRunOf(k: string, rest: string)
    requires forall i :: 0 <= i < |k| ==> KeyChar(k[i])
    requires rest == [] || !KeyChar(rest[0])
    ensures KeyRun(k + rest) == |k|
    decreases |k|
  {
    if k != [] {
      assert (k + rest)[1..] == k[1..] + rest;
      KeyRunOf(k[1..], rest);
    }
  }

  lemma {:induction false} DigitRunOf(d: string, rest: string)
    requires AllDigits(d)
    requires rest == [] || !IsDigit(rest[0])
    ensures DigitRun(d + rest) == |d|
    decreases |d|
  {
    if d != [] {
      assert (d + rest)[1..] == d[1..] + rest;
      DigitRunOf(d[1..], rest);
    }
  }

  /** One member segment followed by the rendering of the rest of a path reads back as that member. */
  lemma KeySegRoundTrip(k: string, rest: string)
    requires DotKey(k)
    requires rest == [] || rest[0] == '.' || rest[0] == '['
    ensures ParseSegs("." + k + rest) == match ParseSegs(rest) case None => None case Some(r) => Some([Key(k)] + r)
  {
    var s := "." + k + rest;
    assert s[1..] == k + rest;
    KeyRunOf(k, rest);
    assert s[1 + |k|..] == rest;
    assert s[1..1 + |k|] == k;
  }

  /** One index segment followed by the rendering of the rest of a path reads back as that index. */
  lemma IdxSegRoundTrip(i: nat, rest: string)
    ensures ParseSegs("[" + NatToString(i) + "]" + rest) ==
            match ParseSegs(rest) case None => None case Some(r) => Some([Idx(i)] + r)
  {
    var d := NatToString(i);
    NatToStringDigits(i);
    var s := "[" + d + "]" + rest;
    assert s[1..] == d + ("]" + rest);
    DigitRunOf(d, "]" + rest);
    assert s[1 + |d|] == ']';
    assert s[2 + |d|..] == rest;
    assert s[1..1 + |d|] == d;
  }

  lemma {:induction false} SegsRoundTrip(p: Path)
    requires DotPath(p)
    ensures ParseSegs(SegsString(p)) == Some(p)
    decreases |p|
  {
    if p != [] {
      assert DotPath(p[1..]) by {
        forall i | 0 <= i < |p[1..]| ensures p[1..][i].Key? ==> DotKey(p[1..][i].name) {
          assert p[1..][i] == p[i + 1];
        }
      }
      var rest := SegsString(p[1..]);
      SegsRoundTrip(p[1..]);
      SegsStringStart(p[1..]);
      assert [p[0]] + p[1..] == p;
      match p[0]
      case Key(k) =>
        assert DotKey(k) by { assert p[0].Key?; }
        KeySegRoundTrip(k, rest);
      case Idx(i) =>
        IdxSegRoundTrip(i, rest);
    }
  }

  /** Reading a stringified path back gives the path: jsonpath's `stringify` and its parser are
      inverse on dot-form names, so the walker may hand the structured path around instead. */
  lemma ParseStringify(p: Path)
    requires DotPath(p)
    ensures Parse(Stringify(p)) == Some(p)
  {
    SegsRoundTrip(p);
    assert Stringify(p)[1..] == SegsString(p);
  }

  lemma StringifyInjective(p: Path, q: Path)
    requires DotPath(p) && DotPath(q)
    requires Stringify(p) == Stringify(q)
    ensures p == q
  {
    ParseStringify(p);
    ParseStringify(q);
  }

  lemma {:induction false} SegsStringAppend(p: Path, seg: Seg)
    ensures SegsString(p + [seg]) == SegsString(p) + SegString(seg)
    decreases |p|
  {
    if p == [] {
      assert [] + [seg] == [seg];
    } else {
      assert (p + [seg])[1..] == p[1..] + [seg];
      SegsStringAppend(p[1..], seg);
    }
  }

  /** The `endsWith("Fetch")` test on a stringified path holds exactly when the path ends in a
      member whose name ends in `Fetch`: an element index renders as `]`, and the `.` before a
      short name is not part of `Fetch`. */
  lemma FetchSuffix(p: Path)
    ensures EndsWith(Stringify(p), "Fetch") <==>
            p != [] && p[|p| - 1].Key? && EndsWith(p[|p| - 1].name, "Fetch")
  {
    if p != [] {
      var init, last := p[..|p| - 1], p[|p| - 1];
      assert p == init + [last];
      SegsStringAppend(init, last);
      var front := "$" + SegsString(init);
      assert Stringify(p) == front + SegString(last);
      match last
      case Idx(i) => IndexNotFetch(front, NatToString(i));
      case Key(k) => KeyFetch(front, k);
    }
  }

  lemma IndexNotFetch(front: string, digits: string)
    ensures !EndsWith(front + ("[" + digits + "]"), "Fetch")
  {
    var s := front + ("[" + digits + "]");
    assert s[|s| - 1] == ']';
    assert "Fetch"[4] == 'h';
  }

  lemma KeyFetch(front: string, k: string)
    ensures EndsWith(front + ("." + k), "Fetch") <==> EndsWith(k, "Fetch")
  {
    var s := front + ("." + k);
    if |k| >= 5 {
      assert s[|s| - 5..] == k[|k| - 5..];
    } else {
      assert s[|s| - 1 - |k|] == '.';
    }
  }

  // ---------------------------------------------------------------- reading and writing

  /** Position of the first member named `k`. */
  function MemberIndex(ms: seq<(string, Json)>, k: string): (r: Option<nat>)
    ensures r.Some? ==> r.value < |ms| && ms[r.value].0 == k
    ensures r.Some? ==> forall j :: 0 <= j < r.value ==> ms[j].0 != k
    ensures r.None? ==> forall j :: 0 <= j < |ms| ==> ms[j].0 != k
    decreases |ms|
  {
    if ms == [] then None
    else if ms[0].0 == k then Some(0)
    else
      match MemberIndex(ms[1..], k)
      case None => None
      case Some(i) => Some(i + 1)
  }

  /** The first member carrying a name is the one found. */
  lemma MemberIndexAt(ms: seq<(string, Json)>, k: string, i: nat)
    requires i < |ms| && ms[i].0 == k
    requires forall j :: 0 <= j < i ==> ms[j].0 != k
    ensures MemberIndex(ms, k) == Some(i)
  {
    assert ms[i].0 == k;
  }

  /** One segment of a lookup: a name selects an object member, an index an array element. */
  function Step(j: Json, seg: Seg): Option<Json> {
    match seg
    case Key(k) =>
      if j.Obj? then
        match MemberIndex(j.members, k)
        case None => None
        case Some(i) => Some(j.members[i].1)
      else None
    case Idx(i) =>
      if j.Arr? && i < |j.items| then Some(j.items[i]) else None
  }

  /** `JsonPath.value(obj, path)`: the value at `p`, or nothing when a segment is absent. */
  function Get(t: Json, p: Path): Option<Json>
    decreases |p|
  {
    if p == [] then Some(t)
    else
      match Step(t, p[0])
      case None => None
      case Some(c) => Get(c, p[1..])
  }

  /** `JsonPath.value(obj, path, v)`: `t` with the value at `p` replaced by `v`. */
  function Set(t: Json, p: Path, v: Json): Json
    decreases |p|
  {
    if p == [] then v
    else
      match p[0]
      case Key(k) =>
        if t.Obj? then
          match MemberIndex(t.members, k)
          case None => t
          case Some(i) => Obj(t.members[i := (k, Set(t.members[i].1, p[1..], v))])
        else t
      case Idx(i) =>
        if t.Arr? && i < |t.items| then Arr(t.items[i := Set(t.items[i], p[1..], v)]) else t
  }

  predicate IsPrefix(p: Path, q: Path) {
    |p| <= |q| && q[..|p|] == p
  }

  /** Neither path lies at or below the other. */
  predicate Disjoint(p: Path, q: Path) {
    !IsPrefix(p, q) && !IsPrefix(q, p)
  }

  lemma PrefixCons(p: Path, q: Path)
    requires p != [] && q != [] && p[0] == q[0]
    ensures IsPrefix(p[1..], q[1..]) ==> IsPrefix(p, q)
  {
    if IsPrefix(p[1..], q[1..]) {
      assert q[..|p|] == [q[0]] + q[1..][..|p| - 1];
      assert p == [p[0]] + p[1..];
    }
  }

  lemma {:induction false} GetConcat(t: Json, p: Path, q: Path)
    ensures Get(t, p + q) == match Get(t, p) case None => None case Some(n) => Get(n, q)
    decreases |p|
  {
    if p == [] {
      assert p + q == q;
    } else {
      assert (p + q)[0] == p[0] && (p + q)[1..] == p[1..] + q;
      match Step(t, p[0])
      case None =>
      case Some(c) => GetConcat(c, p[1..], q);
    }
  }

  lemma {:induction false} MemberIndexNames(ms: seq<(string, Json)>, ns: seq<(string, Json)>, k: string)
    requires |ms| == |ns|
    requires forall j :: 0 <= j < |ms| ==> ms[j].0 == ns[j].0
    ensures MemberIndex(ms, k) == MemberIndex(ns, k)
    decreases |ms|
  {
    if ms != [] {
      MemberIndexNames(ms[1..], ns[1..], k);
    }
  }

  /** After the write, the path leads to `v`, and whatever lies below it is read from `v`. */
  lemma {:induction false} SetThenGet(t: Json, p: Path, v: Json, q: Path)
    requires Get(t, p).Some?
    ensures Get(Set(t, p, v), p + q) == Get(v, q)
    decreases |p|
  {
    if p == [] {
      assert p + q == q;
    } else {
      assert (p + q)[0] == p[0] && (p + q)[1..] == p[1..] + q;
      var t' := Set(t, p, v);
      match p[0]
      case Key(k) =>
        var i := MemberIndex(t.members, k).value;
        var ms' := t.members[i := (k, Set(t.members[i].1, p[1..], v))];
        MemberIndexNames(t.members, ms', k);
        SetThenGet(t.members[i].1, p[1..], v, q);
      case Idx(i) =>
        SetThenGet(t.items[i], p[1..], v, q);
    }
  }

  /** The write leaves every location disjoint from `p` as it was. */
  lemma {:induction false} SetKeepsDisjoint(t: Json, p: Path, v: Json, q: Path)
    requires Get(t, p).Some?
    requires Disjoint(p, q)
    ensures Get(Set(t, p, v), q) == Get(t, q)
    decreases |p|
  {
    assert p != [] && q != [];
    var t' := Set(t, p, v);
    if p[0] == q[0] {
      PrefixCons(p, q);
      PrefixCons(q, p);
      match p[0]
      case Key(k) =>
        var i := MemberIndex(t.members, k).value;
        var ms' := t.members[i := (k, Set(t.members[i].1, p[1..], v))];
        MemberIndexNames(t.members, ms', k);
        SetKeepsDisjoint(t.members[i].1, p[1..], v, q[1..]);
      case Idx(i) =>
        SetKeepsDisjoint(t.items[i], p[1..], v, q[1..]);
    } else {
      match p[0]
      case Key(k) =>
        var i := MemberIndex(t.members, k).value;
        var ms' := t.members[i := (k, Set(t.members[i].1, p[1..], v))];
        if q[0].Key? {
          MemberIndexNames(t.members, ms', q[0].name);
        }
        assert Step(t', q[0]) == Step(t, q[0]);
      case Idx(i) =>
        assert Step(t', q[0]) == Step(t, q[0]);
    }
  }

  /** Writing at a path that does not resolve changes nothing. */
  lemma {:induction false} SetMissing(t: Json, p: Path, v: Json)
    requires Get(t, p).None?
    ensures Set(t, p, v) == t
    decreases |p|
  {
    match p[0]
    case Key(k) =>
      if t.Obj? && MemberIndex(t.members, k).Some? {
        var i := MemberIndex(t.members, k).value;
        SetMissing(t.members[i].1, p[1..], v);
        assert t.members[i := (k, t.members[i].1)] == t.members;
      }
    case Idx(i) =>
      if t.Arr? && i < |t.items| {
        SetMissing(t.items[i], p[1..], v);
        assert t.items[i := t.items[i]] == t.items;
      }
  }

  // ---------------------------------------------------------------- one level of `.*`

  predicate NonEmptyContainer(j: Json) {
    (j.Obj? && j.members != []) || (j.Arr? && j.items != [])
  }

  /** `JsonPath.paths(tree, path + ".*")`: the members of an object or the elements of an array
      at `p`, in order; nothing for a scalar, an empty container or a missing node. */
  function Children(t: Json, p: Path): (cs: seq<Path>)
    ensures forall i :: 0 <= i < |cs| ==> |cs[i]| == |p| + 1 && cs[i][..|p|] == p
    ensures cs != [] <==> Get(t, p).Some? && NonEmptyContainer(Get(t, p).value)
  {
    match Get(t, p)
    case Some(Obj(ms)) => seq(|ms|, i requires 0 <= i < |ms| => p + [Key(ms[i].0)])
    case Some(Arr(xs)) => seq(|xs|, i requires 0 <= i < |xs| => p + [Idx(i)])
    case _ => []
  }

  /** Every child resolves, to a node smaller than the one at `p`. */
  lemma ChildrenSmaller(t: Json, p: Path)
    ensures forall c :: c in Children(t, p) ==>
              Get(t, c).Some? && Get(t, p).Some? && Size(Get(t, c).value) < Size(Get(t, p).value)
  {
    var cs := Children(t, p);
    forall c | c in cs
      ensures Get(t, c).Some? && Get(t, p).Some? && Size(Get(t, c).value) < Size(Get(t, p).value)
    {
      var i :| 0 <= i < |cs| && cs[i] == c;
      GetConcat(t, p, [c[|p|]]);
      assert c == p + [c[|p|]];
      var n := Get(t, p).value;
      GetConcat(n, [c[|p|]], []);
      match n
      case Obj(ms) =>
        var j := MemberIndex(ms, ms[i].0).value;
        MemberSmaller(ms, j);
      case Arr(xs) =>
        ItemSmaller(xs, i);
    }
  }

  /** In a well-formed document the i-th child path leads to the i-th member or element. */
  lemma ChildrenOfWellFormed(t: Json, p: Path, i: nat)
    requires Get(t, p).Some? && WellFormed(Get(t, p).value)
    requires i < |Children(t, p)|
    ensures Get(t, p).value.Obj? ==> Get(t, Children(t, p)[i]) == Some(Get(t, p).value.members[i].1)
    ensures Get(t, p).value.Arr? ==> Get(t, Children(t, p)[i]) == Some(Get(t, p).value.items[i])
  {
    var n := Get(t, p).value;
    var c := Children(t, p)[i];
    assert c == p + [c[|p|]];
    GetConcat(t, p, [c[|p|]]);
    GetConcat(n, [c[|p|]], []);
    if n.Obj? {
      var j := MemberIndex(n.members, n.members[i].0).value;
      assert j == i;
    }
  }

  /** A path that resolves in a document whose names are in dot form is itself in dot form. */
  lemma {:induction false} DotNamesPath(t: Json, p: Path)
    requires DotNames(t) && Get(t, p).Some?
    ensures DotPath(p)
    decreases |p|
  {
    if p != [] {
      var c := Step(t, p[0]).value;
      DotNamesPath(c, p[1..]);
      forall i | 0 <= i < |p| ensures p[i].Key? ==> DotKey(p[i].name) {
        if i > 0 {
          assert p[i] == p[1..][i - 1];
        }
      }
    }
  }

  lemma PrefixTrans(p: Path, q: Path, r: Path)
    requires IsPrefix(p, q) && IsPrefix(q, r)
    ensures IsPrefix(p, r)
  {
    assert r[..|p|] == r[..|q|][..|p|];
  }
}

/** The aggregation pass of the configuration service (`loadAggregatedValues`) as functions:
    which paths one pass records and which nested documents it starts to load. */
module Aggregation {
  import opened JsonValues
  import opened SeqUtil
  import opened JsonPath

  /** A nested load started by the walker: fetch `url` and splice the result in at `path`. */
  datatype NestedLoad = NestedLoad(url: string, path: Path)

  /** The test at line 130: the leaf holds a URL and its stringified path ends in `Fetch`. */
  predicate Dereferences(isUrl: string -> bool, value: Option<Json>, p: Path) {
    value.Some? && value.value.Str? && isUrl(value.value.s) && EndsWith(Stringify(p), "Fetch")
  }

  function NodeSize(t: Json, p: Path): nat {
    match Get(t, p)
    case Some(v) => Size(v)
    case None => 0
  }

  /** The largest node addressed by a frontier; it strictly shrinks from a node to its children. */
  function Rank(t: Json, frontier: seq<Path>): nat
    decreases |frontier|
  {
    if frontier == [] then 0
    else
      var r := Rank(t, frontier[1..]);
      if NodeSize(t, frontier[0]) < r then r else NodeSize(t, frontier[0])
  }

  lemma {:induction false} RankBelow(t: Json, frontier: seq<Path>, b: nat)
    requires forall p :: p in frontier ==> NodeSize(t, p) < b
    requires b > 0
    ensures Rank(t, frontier) < b
    decreases |frontier|
  {
    if frontier != [] {
      assert frontier[0] in frontier;
      forall p | p in frontier[1..] ensures NodeSize(t, p) < b {
        assert p in frontier;
      }
      RankBelow(t, frontier[1..], b);
    }
  }

  lemma {:induction false} RankAtLeast(t: Json, frontier: seq<Path>, i: nat)
    requires i < |frontier|
    ensures NodeSize(t, frontier[i]) <= Rank(t, frontier)
    decreases i
  {
    if i > 0 {
      RankAtLeast(t, frontier[1..], i - 1);
    }
  }

  lemma RankOfChildren(t: Json, p: Path)
    ensures Children(t, p) != [] ==> Rank(t, Children(t, p)) < NodeSize(t, p)
  {
    if Children(t, p) != [] {
      ChildrenSmaller(t, p);
      RankBelow(t, Children(t, p), NodeSize(t, p));
    }
  }

  /** What one terminal node contributes to a pass. */
  function Visit(isUrl: string -> bool, loaded: seq<string>, t: Json, p: Path, acc: seq<string>)
    : (seq<string>, seq<NestedLoad>)
  {
    var value := Get(t, p);
    if Dereferences(isUrl, value, p) then
      (acc, if value.value.s in loaded then [] else [NestedLoad(value.value.s, p)])
    else if Stringify(p) in acc then (acc, [])
    else (acc + [Stringify(p)], [])
  }

  /** One pass over `frontier`, depth first: a node with at least one child is descended into,
      a terminal node is visited. Returns the new objectPaths and the nested loads started;
      `loaded` is configUrls, against which each nested load checks for a repeat. */
  function Walk(isUrl: string -> bool, loaded: seq<string>, t: Json, frontier: seq<Path>, acc: seq<string>)
    : (seq<string>, seq<NestedLoad>)
    decreases Rank(t, frontier), |frontier|
  {
    if frontier == [] then (acc, [])
    else
      var p := frontier[0];
      var kids := Children(t, p);
      RankOfChildren(t, p);
      var (acc1, nested1) :=
        if |kids| >= 1 then Walk(isUrl, loaded, t, kids, acc) else Visit(isUrl, loaded, t, p, acc);
      var (acc2, nested2) := Walk(isUrl, loaded, t, frontier[1..], acc1);
      (acc2, nested1 + nested2)
  }

  // ---------------------------------------------------------------- reference definition

  /** The terminal nodes below `frontier`, in the order a depth-first walk meets them. */
  function Leaves(t: Json, frontier: seq<Path>): seq<Path>
    decreases Rank(t, frontier), |frontier|
  {
    if frontier == [] then []
    else
      var kids := Children(t, frontier[0]);
      RankOfChildren(t, frontier[0]);
      (if |kids| >= 1 then Leaves(t, kids) else [frontier[0]]) + Leaves(t, frontier[1..])
  }

  /** The stringified leaves that are not dereferenced, in order. */
  function Recorded(isUrl: string -> bool, t: Json, ls: seq<Path>): seq<string>
    decreases |ls|
  {
    if ls == [] then [] else RecordedAt(isUrl, t, ls[0]) + Recorded(isUrl, t, ls[1..])
  }

  /** What one leaf contributes to `Recorded`: its path, unless it is dereferenced. */
  function RecordedAt(isUrl: string -> bool, t: Json, p: Path): seq<string> {
    if Dereferences(isUrl, Get(t, p), p) then [] else [Stringify(p)]
  }

  /** The dereferenced leaves whose URL has not been loaded, as nested loads, in order. */
  function Nested(isUrl: string -> bool, loaded: seq<string>, t: Json, ls: seq<Path>): seq<NestedLoad>
    decreases |ls|
  {
    if ls == [] then [] else NestedAt(isUrl, loaded, t, ls[0]) + Nested(isUrl, loaded, t, ls[1..])
  }

  /** What one leaf contributes to `Nested`: a load of its URL, if it is dereferenced and new. */
  function NestedAt(isUrl: string -> bool, loaded: seq<string>, t: Json, p: Path): seq<NestedLoad> {
    var v := Get(t, p);
    if Dereferences(isUrl, v, p) && v.value.s !in loaded then [NestedLoad(v.value.s, p)] else []
  }

  lemma {:induction false} RecordedConcat(isUrl: string -> bool, t: Json, xs: seq<Path>, ys: seq<Path>)
    ensures Recorded(isUrl, t, xs + ys) == Recorded(isUrl, t, xs) + Recorded(isUrl, t, ys)
    decreases |xs|
  {
    if xs == [] {
      assert xs + ys == ys;
    } else {
      RecordedConcat(isUrl, t, xs[1..], ys);
      RecordedCons(isUrl, t, xs, ys);
    }
  }

  lemma RecordedCons(isUrl: string -> bool, t: Json, xs: seq<Path>, ys: seq<Path>)
    requires xs != []
    requires Recorded(isUrl, t, xs[1..] + ys) == Recorded(isUrl, t, xs[1..]) + Recorded(isUrl, t, ys)
    ensures Recorded(isUrl, t, xs + ys) == Recorded(isUrl, t, xs) + Recorded(isUrl, t, ys)
  {
    ConsOfConcat(xs, ys);
    RecordedUnfold(isUrl, t, xs + ys);
    RecordedUnfold(isUrl, t, xs);
    ConcatAssoc(RecordedAt(isUrl, t, xs[0]), Recorded(isUrl, t, xs[1..]), Recorded(isUrl, t, ys));
  }

  lemma RecordedUnfold(isUrl: string -> bool, t: Json, ls: seq<Path>)
    requires ls != []
    ensures Recorded(isUrl, t, ls) == RecordedAt(isUrl, t, ls[0]) + Recorded(isUrl, t, ls[1..])
  {
  }

  lemma {:induction false} NestedConcat(isUrl: string -> bool, loaded: seq<string>, t: Json, xs: seq<Path>, ys: seq<Path>)
    ensures Nested(isUrl, loaded, t, xs + ys) == Nested(isUrl, loaded, t, xs) + Nested(isUrl, loaded, t, ys)
    decreases |xs|
  {
    if xs == [] {
      assert xs + ys == ys;
    } else {
      NestedConcat(isUrl, loaded, t, xs[1..], ys);
      NestedCons(isUrl, loaded, t, xs, ys);
    }
  }

  lemma NestedCons(isUrl: string -> bool, loaded: seq<string>, t: Json, xs: seq<Path>, ys: seq<Path>)
    requires xs != []
    requires Nested(isUrl, loaded, t, xs[1..] + ys) == Nested(isUrl, loaded, t, xs[1..]) + Nested(isUrl, loaded, t, ys)
    ensures Nested(isUrl, loaded, t, xs + ys) == Nested(isUrl, loaded, t, xs) + Nested(isUrl, loaded, t, ys)
  {
    ConsOfConcat(xs, ys);
    NestedUnfold(isUrl, loaded, t, xs + ys);
    NestedUnfold(isUrl, loaded, t, xs);
    ConcatAssoc(NestedAt(isUrl, loaded, t, xs[0]), Nested(isUrl, loaded, t, xs[1..]), Nested(isUrl, loaded, t, ys));
  }

  lemma NestedUnfold(isUrl: string -> bool, loaded: seq<string>, t: Json, ls: seq<Path>)
    requires ls != []
    ensures Nested(isUrl, loaded, t, ls) == NestedAt(isUrl, loaded, t, ls[0]) + Nested(isUrl, loaded, t, ls[1..])
  {
  }

  lemma ConsOfConcat<T>(xs: seq<T>, ys: seq<T>)
    requires xs != []
    ensures (xs + ys)[0] == xs[0] && (xs + ys)[1..] == xs[1..] + ys
  {
  }

  lemma ConcatAssoc<T>(a: seq<T>, b: seq<T>, c: seq<T>)
    ensures a + (b + c) == (a + b) + c
  {
  }

  /** Over leaves none of which is dereferenced, every path is recorded, in order, and no
      nested load starts. */
  lemma {:induction false} AllPlain(isUrl: string -> bool, loaded: seq<string>, t: Json, ls: seq<Path>)
    requires forall i :: 0 <= i < |ls| ==> !Dereferences(isUrl, Get(t, ls[i]), ls[i])
    ensures Recorded(isUrl, t, ls) == PathStrings(ls)
    ensures Nested(isUrl, loaded, t, ls) == []
    decreases |ls|
  {
    if ls != [] {
      assert !Dereferences(isUrl, Get(t, ls[0]), ls[0]);
      assert forall i :: 0 <= i < |ls[1..]| ==> ls[1..][i] == ls[i + 1];
      AllPlain(isUrl, loaded, t, ls[1..]);
    }
  }

  lemma VisitIsFiltered(isUrl: string -> bool, loaded: seq<string>, t: Json, p: Path, acc: seq<string>)
    ensures Visit(isUrl, loaded, t, p, acc) ==
            (AppendAbsent(acc, Recorded(isUrl, t, [p])), Nested(isUrl, loaded, t, [p]))
  {
    assert [p][1..] == [];
    var s := Stringify(p);
    if Dereferences(isUrl, Get(t, p), p) {
      assert Recorded(isUrl, t, [p]) == [];
      var u := Get(t, p).value.s;
      assert Nested(isUrl, loaded, t, [p]) == if u in loaded then [] else [NestedLoad(u, p)];
    } else {
      assert Recorded(isUrl, t, [p]) == [s];
      assert Nested(isUrl, loaded, t, [p]) == [];
      AppendOne(acc, s);
    }
  }

  /** The first node of a frontier and its descendants come first, then the rest of the frontier. */
  lemma WalkUnfold(isUrl: string -> bool, loaded: seq<string>, t: Json, frontier: seq<Path>, acc: seq<string>)
    requires frontier != []
    ensures var p := frontier[0];
            var head := if |Children(t, p)| >= 1 then Walk(isUrl, loaded, t, Children(t, p), acc)
                        else Visit(isUrl, loaded, t, p, acc);
            var tail := Walk(isUrl, loaded, t, frontier[1..], head.0);
            Walk(isUrl, loaded, t, frontier, acc) == (tail.0, head.1 + tail.1)
  {
  }

  /** Walking `frontier` from its i-th entry is handling that entry, then walking the rest. */
  lemma WalkStep(isUrl: string -> bool, loaded: seq<string>, t: Json, frontier: seq<Path>, i: nat,
                 acc: seq<string>, acc1: seq<string>, nested1: seq<NestedLoad>)
    requires i < |frontier|
    requires (acc1, nested1) == if |Children(t, frontier[i])| >= 1 then Walk(isUrl, loaded, t, Children(t, frontier[i]), acc)
                                else Visit(isUrl, loaded, t, frontier[i], acc)
    ensures var rest := Walk(isUrl, loaded, t, frontier[i + 1..], acc1);
            Walk(isUrl, loaded, t, frontier[i..], acc) == (rest.0, nested1 + rest.1)
  {
    WalkUnfold(isUrl, loaded, t, frontier[i..], acc);
    assert frontier[i..][0] == frontier[i] && frontier[i..][1..] == frontier[i + 1..];
  }

  /** The loop of `loadAggregatedValues` keeps its promise across handling the i-th entry. */
  lemma WalkAdvance(isUrl: string -> bool, loaded: seq<string>, t: Json, frontier: seq<Path>, i: nat,
                    acc: seq<string>, acc1: seq<string>, nested: seq<NestedLoad>, more: seq<NestedLoad>,
                    total: (seq<string>, seq<NestedLoad>))
    requires i < |frontier|
    requires total.0 == Walk(isUrl, loaded, t, frontier[i..], acc).0
    requires total.1 == nested + Walk(isUrl, loaded, t, frontier[i..], acc).1
    requires (acc1, more) == if |Children(t, frontier[i])| >= 1 then Walk(isUrl, loaded, t, Children(t, frontier[i]), acc)
                             else Visit(isUrl, loaded, t, frontier[i], acc)
    ensures total.0 == Walk(isUrl, loaded, t, frontier[i + 1..], acc1).0
    ensures total.1 == (nested + more) + Walk(isUrl, loaded, t, frontier[i + 1..], acc1).1
  {
    WalkStep(isUrl, loaded, t, frontier, i, acc, acc1, more);
    ShiftNested(total, nested, more, Walk(isUrl, loaded, t, frontier[i..], acc),
                Walk(isUrl, loaded, t, frontier[i + 1..], acc1));
  }

  lemma ShiftNested(total: (seq<string>, seq<NestedLoad>), nested: seq<NestedLoad>, more: seq<NestedLoad>,
                    here: (seq<string>, seq<NestedLoad>), rest: (seq<string>, seq<NestedLoad>))
    requires total.0 == here.0 && total.1 == nested + here.1
    requires here == (rest.0, more + rest.1)
    ensures total.0 == rest.0 && total.1 == (nested + more) + rest.1
  {
    assert nested + (more + rest.1) == (nested + more) + rest.1;
  }

  /** A pass records exactly the non-dereferenced leaves (skipping those already present) and
      starts exactly the nested loads of the dereferenced ones, both in depth-first order. */
  lemma {:induction false} WalkIsFilteredLeaves(isUrl: string -> bool, loaded: seq<string>, t: Json,
                                              frontier: seq<Path>, acc: seq<string>)
    ensures Walk(isUrl, loaded, t, frontier, acc) ==
            (AppendAbsent(acc, Recorded(isUrl, t, Leaves(t, frontier))), Nested(isUrl, loaded, t, Leaves(t, frontier)))
    decreases Rank(t, frontier), |frontier|
  {
    if frontier != [] {
      var p := frontier[0];
      var kids := Children(t, p);
      RankOfChildren(t, p);
      var head := if |kids| >= 1 then Leaves(t, kids) else [p];
      var tail := Leaves(t, frontier[1..]);
      assert Leaves(t, frontier) == head + tail;
      var first := if |kids| >= 1 then Walk(isUrl, loaded, t, kids, acc) else Visit(isUrl, loaded, t, p, acc);
      if |kids| >= 1 {
        WalkIsFilteredLeaves(isUrl, loaded, t, kids, acc);
      } else {
        VisitIsFiltered(isUrl, loaded, t, p, acc);
      }
      assert first == (AppendAbsent(acc, Recorded(isUrl, t, head)), Nested(isUrl, loaded, t, head));
      WalkUnfold(isUrl, loaded, t, frontier, acc);
      WalkIsFilteredLeaves(isUrl, loaded, t, frontier[1..], first.0);
      RecordedConcat(isUrl, t, head, tail);
      NestedConcat(isUrl, loaded, t, head, tail);
      AppendAbsentConcat(acc, Recorded(isUrl, t, head), Recorded(isUrl, t, tail));
    }
  }

  // ---------------------------------------------------------------- depth-first order

  function Flatten(xss: seq<seq<Path>>): seq<Path>
    decreases |xss|
  {
    if xss == [] then [] else xss[0] + Flatten(xss[1..])
  }

  lemma FlattenCons(xs: seq<Path>, xss: seq<seq<Path>>)
    ensures Flatten([xs] + xss) == xs + Flatten(xss)
  {
    assert ([xs] + xss)[1..] == xss;
  }

  /** The terminal paths of the node `j` found at `p`, read off the document itself: a scalar or
      an empty container is its own leaf; otherwise the leaves of its members (in member order)
      or of its elements (in index order), one after another. */
  function TreeLeaves(p: Path, j: Json): seq<Path>
    decreases j
  {
    match j
    case Obj(ms) =>
      if ms == [] then [p]
      else Flatten(seq(|ms|, i requires 0 <= i < |ms| => var (k, v) := ms[i]; assert v < ms[i]; TreeLeaves(p + [Key(k)], v)))
    case Arr(xs) =>
      if xs == [] then [p]
      else Flatten(seq(|xs|, i requires 0 <= i < |xs| => TreeLeaves(p + [Idx(i)], xs[i])))
    case _ => [p]
  }

  /** What a single frontier entry contributes to `Leaves`. */
  function LeafOne(t: Json, p: Path): seq<Path>
    decreases NodeSize(t, p), 1
  {
    RankOfChildren(t, p);
    if |Children(t, p)| >= 1 then Leaves(t, Children(t, p)) else [p]
  }

  lemma {:induction false} LeavesFlatten(t: Json, frontier: seq<Path>)
    ensures Leaves(t, frontier) == Flatten(seq(|frontier|, i requires 0 <= i < |frontier| => LeafOne(t, frontier[i])))
    decreases |frontier|
  {
    var xss := seq(|frontier|, i requires 0 <= i < |frontier| => LeafOne(t, frontier[i]));
    if frontier != [] {
      LeavesFlatten(t, frontier[1..]);
      assert xss[1..] == seq(|frontier[1..]|, i requires 0 <= i < |frontier[1..]| => LeafOne(t, frontier[1..][i]));
    }
  }

  /** In a well-formed document, walking by re-reading child paths meets the same leaves,
      in the same order, as the structural depth-first traversal. */
  lemma {:induction false} LeafOneIsTreeLeaves(t: Json, p: Path)
    requires Get(t, p).Some? && WellFormed(Get(t, p).value)
    ensures LeafOne(t, p) == TreeLeaves(p, Get(t, p).value)
    decreases Size(Get(t, p).value)
  {
    var n := Get(t, p).value;
    var cs := Children(t, p);
    if cs != [] {
      LeavesFlatten(t, cs);
      ChildrenSmaller(t, p);
      var lhs := seq(|cs|, i requires 0 <= i < |cs| => LeafOne(t, cs[i]));
      match n
      case Obj(ms) =>
        var rhs := seq(|ms|, i requires 0 <= i < |ms| => var (k, v) := ms[i]; TreeLeaves(p + [Key(k)], v));
        forall i | 0 <= i < |cs| ensures lhs[i] == rhs[i] {
          ChildrenOfWellFormed(t, p, i);
          assert cs[i] in cs;
          LeafOneIsTreeLeaves(t, cs[i]);
        }
        assert lhs == rhs;
      case Arr(xs) =>
        var rhs := seq(|xs|, i requires 0 <= i < |xs| => TreeLeaves(p + [Idx(i)], xs[i]));
        forall i | 0 <= i < |cs| ensures lhs[i] == rhs[i] {
          ChildrenOfWellFormed(t, p, i);
          assert cs[i] in cs;
          LeafOneIsTreeLeaves(t, cs[i]);
        }
        assert lhs == rhs;
    }
  }

  /** A pass from the root's children (`JsonPath.paths(tree, "*")`) meets the leaves of a
      well-formed container in depth-first, member-order and index-order sequence. */
  lemma RootLeavesDepthFirst(t: Json)
    requires WellFormed(t) && NonEmptyContainer(t)
    ensures Leaves(t, Children(t, [])) == TreeLeaves([], t)
  {
    LeafOneIsTreeLeaves(t, []);
  }

  // ---------------------------------------------------------------- what a pass records

  lemma {:induction false} LeavesAreTerminal(t: Json, frontier: seq<Path>)
    ensures forall q :: q in Leaves(t, frontier) ==> Children(t, q) == []
    ensures forall q :: q in Leaves(t, frontier) ==> exists p :: p in frontier && IsPrefix(p, q)
    ensures (forall p :: p in frontier ==> Get(t, p).Some?) ==>
              forall q :: q in Leaves(t, frontier) ==> Get(t, q).Some?
    decreases Rank(t, frontier), |frontier|
  {
    if frontier != [] {
      var p := frontier[0];
      var kids := Children(t, p);
      RankOfChildren(t, p);
      LeavesAreTerminal(t, frontier[1..]);
      forall q | q in Leaves(t, frontier[1..]) ensures exists p' :: p' in frontier && IsPrefix(p', q) {
        var p' :| p' in frontier[1..] && IsPrefix(p', q);
        assert p' in frontier;
      }
      if |kids| >= 1 {
        LeavesAreTerminal(t, kids);
        ChildrenSmaller(t, p);
        forall q | q in Leaves(t, kids) ensures IsPrefix(p, q) {
          var c :| c in kids && IsPrefix(c, q);
          var i :| 0 <= i < |kids| && kids[i] == c;
          assert IsPrefix(p, c);
          PrefixTrans(p, c, q);
        }
      } else {
        assert IsPrefix(p, p);
      }
      assert Leaves(t, frontier) == (if |kids| >= 1 then Leaves(t, kids) else [p]) + Leaves(t, frontier[1..]);
    }
  }

  lemma {:induction false} RecordedMembers(isUrl: string -> bool, t: Json, ls: seq<Path>)
    ensures forall x :: x in Recorded(isUrl, t, ls) <==>
              exists q :: q in ls && !Dereferences(isUrl, Get(t, q), q) && x == Stringify(q)
    decreases |ls|
  {
    if ls != [] {
      RecordedMembers(isUrl, t, ls[1..]);
      forall x | x in Recorded(isUrl, t, ls)
        ensures exists q :: q in ls && !Dereferences(isUrl, Get(t, q), q) && x == Stringify(q)
      {
        if x in Recorded(isUrl, t, ls[1..]) {
          var q :| q in ls[1..] && !Dereferences(isUrl, Get(t, q), q) && x == Stringify(q);
          assert q in ls;
        } else {
          assert ls[0] in ls;
        }
      }
      forall x, q | q in ls && !Dereferences(isUrl, Get(t, q), q) && x == Stringify(q)
        ensures x in Recorded(isUrl, t, ls)
      {
        if q != ls[0] {
          assert q in ls[1..];
        }
      }
    }
  }

  lemma {:induction false} NestedMembers(isUrl: string -> bool, loaded: seq<string>, t: Json, ls: seq<Path>)
    ensures forall u, q :: NestedLoad(u, q) in Nested(isUrl, loaded, t, ls) <==>
              q in ls && Dereferences(isUrl, Get(t, q), q) && u == Get(t, q).value.s && u !in loaded
    decreases |ls|
  {
    if ls != [] {
      NestedMembers(isUrl, loaded, t, ls[1..]);
      forall u, q | q in ls && Dereferences(isUrl, Get(t, q), q) && u == Get(t, q).value.s && u !in loaded
        ensures NestedLoad(u, q) in Nested(isUrl, loaded, t, ls)
      {
        if q != ls[0] {
          assert q in ls[1..];
        }
      }
    }
  }

  /** objectPaths only grows: a pass keeps every existing entry in place, appends only the
      stringified paths of terminal, non-dereferenced leaves, and never creates a duplicate. */
  lemma PassOnlyAppendsLeaves(isUrl: string -> bool, loaded: seq<string>, t: Json, frontier: seq<Path>, acc: seq<string>)
    ensures var r := Walk(isUrl, loaded, t, frontier, acc).0;
            && |acc| <= |r| && r[..|acc|] == acc
            && (NoDup(acc) ==> NoDup(r))
            && forall s :: s in r ==>
                 (s in acc ||
                  exists q :: q in Leaves(t, frontier) && Children(t, q) == [] &&
                              !Dereferences(isUrl, Get(t, q), q) && s == Stringify(q))
  {
    WalkIsFilteredLeaves(isUrl, loaded, t, frontier, acc);
    RecordedMembers(isUrl, t, Leaves(t, frontier));
    LeavesAreTerminal(t, frontier);
  }

  /** Lines 130-133: a leaf whose path string is new is recorded by the pass exactly when it is
      not dereferenced; a URL under a name that does not end in `Fetch` is recorded like any value. */
  lemma RecordedIffNotDereferenced(isUrl: string -> bool, loaded: seq<string>, t: Json,
                                   frontier: seq<Path>, acc: seq<string>, q: Path)
    requires DotNames(t)
    requires forall p :: p in frontier ==> Get(t, p).Some?
    requires q in Leaves(t, frontier) && Stringify(q) !in acc
    ensures Stringify(q) in Walk(isUrl, loaded, t, frontier, acc).0 <==> !Dereferences(isUrl, Get(t, q), q)
  {
    WalkIsFilteredLeaves(isUrl, loaded, t, frontier, acc);
    RecordedMembers(isUrl, t, Leaves(t, frontier));
    LeavesAreTerminal(t, frontier);
    if Stringify(q) in Walk(isUrl, loaded, t, frontier, acc).0 {
      var q' :| q' in Leaves(t, frontier) && !Dereferences(isUrl, Get(t, q'), q') && Stringify(q) == Stringify(q');
      DotNamesPath(t, q);
      DotNamesPath(t, q');
      StringifyInjective(q, q');
    }
  }

  /** Line 131: a pass starts a nested load for a leaf exactly when the leaf is dereferenced and
      its URL is not among the loaded ones; the load targets that leaf's own path. */
  lemma NestedIffDereferenced(isUrl: string -> bool, loaded: seq<string>, t: Json,
                              frontier: seq<Path>, acc: seq<string>, u: string, q: Path)
    ensures NestedLoad(u, q) in Walk(isUrl, loaded, t, frontier, acc).1 <==>
            q in Leaves(t, frontier) && Dereferences(isUrl, Get(t, q), q) && u == Get(t, q).value.s && u !in loaded
  {
    WalkIsFilteredLeaves(isUrl, loaded, t, frontier, acc);
    NestedMembers(isUrl, loaded, t, Leaves(t, frontier));
  }

  /** The whole pass from the root of a well-formed, non-empty container, stated on the
      structural traversal alone. */
  lemma PassFromRoot(isUrl: string -> bool, loaded: seq<string>, t: Json, acc: seq<string>)
    requires WellFormed(t) && NonEmptyContainer(t)
    ensures Walk(isUrl, loaded, t, Children(t, []), acc) ==
            (AppendAbsent(acc, Recorded(isUrl, t, TreeLeaves([], t))), Nested(isUrl, loaded, t, TreeLeaves([], t)))
  {
    WalkIsFilteredLeaves(isUrl, loaded, t, Children(t, []), acc);
    RootLeavesDepthFirst(t);
  }

  /** The `Fetch` test read structurally: a leaf is dereferenced exactly when it holds a URL and
      its path ends in a member whose name ends in `Fetch`. */
  lemma DereferencesIff(isUrl: string -> bool, value: Option<Json>, p: Path)
    ensures Dereferences(isUrl, value, p) <==>
            value.Some? && value.value.Str? && isUrl(value.value.s) &&
            p != [] && p[|p| - 1].Key? && EndsWith(p[|p| - 1].name, "Fetch")
  {
    FetchSuffix(p);
  }
}

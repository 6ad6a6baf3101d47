/** Sequence helpers shared by the path indexes of the configuration service. */
module SeqUtil {

  predicate NoDup<T(==)>(s: seq<T>) {
    forall i, j :: 0 <= i < j < |s| ==> s[i] != s[j]
  }

  predicate StartsWith(s: string, prefix: string) {
    |prefix| <= |s| && s[..|prefix|] == prefix
  }

  predicate EndsWith(s: string, suffix: string) {
    |suffix| <= |s| && s[|s| - |suffix|..] == suffix
  }

  /** The `indexOf(x) === -1` then `push(x)` idiom applied to each element of `xs` in turn:
      existing entries stay where they are, and each new element is appended once. */
  function AppendAbsent(acc: seq<string>, xs: seq<string>): (r: seq<string>)
    ensures |acc| <= |r| && r[..|acc|] == acc
    ensures forall x :: x in r <==> x in acc || x in xs
    ensures NoDup(acc) ==> NoDup(r)
    decreases |xs|
  {
    if xs == [] then acc
    else AppendAbsent(if xs[0] in acc then acc else acc + [xs[0]], xs[1..])
  }

  lemma AppendOne(acc: seq<string>, x: string)
    ensures AppendAbsent(acc, [x]) == if x in acc then acc else acc + [x]
  {
    assert [x][1..] == [];
  }

  lemma {:induction false} AppendAbsentConcat(acc: seq<string>, xs: seq<string>, ys: seq<string>)
    ensures AppendAbsent(acc, xs + ys) == AppendAbsent(AppendAbsent(acc, xs), ys)
    decreases |xs|
  {
    if xs == [] {
      assert xs + ys == ys;
    } else {
      assert (xs + ys)[1..] == xs[1..] + ys;
      AppendAbsentConcat(if xs[0] in acc then acc else acc + [xs[0]], xs[1..], ys);
    }
  }

  /** When nothing in `xs` is present yet and `xs` itself has no repetitions, every element is appended. */
  lemma {:induction false} AppendAbsentFresh(acc: seq<string>, xs: seq<string>)
    requires NoDup(acc + xs)
    ensures AppendAbsent(acc, xs) == acc + xs
    decreases |xs|
  {
    if xs != [] {
      assert xs[0] == (acc + xs)[|acc|];
      assert xs[0] !in acc by {
        forall i | 0 <= i < |acc| ensures acc[i] != xs[0] {
          assert acc[i] == (acc + xs)[i];
        }
      }
      assert acc + xs == (acc + [xs[0]]) + xs[1..];
      AppendAbsentFresh(acc + [xs[0]], xs[1..]);
    }
  }

  /** When every element of `xs` is present already, nothing is appended. */
  lemma {:induction false} AppendAbsentPresent(acc: seq<string>, xs: seq<string>)
    requires forall x :: x in xs ==> x in acc
    ensures AppendAbsent(acc, xs) == acc
    decreases |xs|
  {
    if xs != [] {
      assert xs[0] in xs;
      forall x | x in xs[1..] ensures x in acc {
        assert x in xs;
      }
      AppendAbsentPresent(acc, xs[1..]);
    }
  }

  /** `r` is obtained from `s` by deleting elements, keeping the order of the rest. */
  predicate Subsequence<T(==)>(r: seq<T>, s: seq<T>)
    decreases |s|
  {
    if r == [] then true
    else if s == [] then false
    else if r[0] == s[0] then Subsequence(r[1..], s[1..])
    else Subsequence(r, s[1..])
  }

  /** The entries of `ps` that start with `prefix`, in their original order (`Array.prototype.filter`). */
  function FilterByPrefix(ps: seq<string>, prefix: string): (r: seq<string>)
    ensures Subsequence(r, ps)
    ensures forall x :: x in r <==> x in ps && StartsWith(x, prefix)
    ensures NoDup(ps) ==> NoDup(r)
    decreases |ps|
  {
    if ps == [] then []
    else if StartsWith(ps[0], prefix) then [ps[0]] + FilterByPrefix(ps[1..], prefix)
    else
      var r := FilterByPrefix(ps[1..], prefix);
      assert r == [] || r[0] != ps[0];
      r
  }

  lemma {:induction false} FilterByPrefixConcat(ps: seq<string>, qs: seq<string>, prefix: string)
    ensures FilterByPrefix(ps + qs, prefix) == FilterByPrefix(ps, prefix) + FilterByPrefix(qs, prefix)
    decreases |ps|
  {
    if ps == [] {
      assert ps + qs == qs;
    } else {
      assert (ps + qs)[0] == ps[0] && (ps + qs)[1..] == ps[1..] + qs;
      FilterByPrefixConcat(ps[1..], qs, prefix);
    }
  }

  /** Nothing is kept when no entry starts with the prefix. */
  lemma FilterByPrefixNone(ps: seq<string>, prefix: string)
    requires forall x :: x in ps ==> !StartsWith(x, prefix)
    ensures FilterByPrefix(ps, prefix) == []
  {
    var r := FilterByPrefix(ps, prefix);
    assert forall i :: 0 <= i < |r| ==> r[i] in r;
  }
}

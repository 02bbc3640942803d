/**
 * The array operations of the JavaScript standard library that the roster
 * code relies on: `findIndex`, `find`, and a `map` whose callback may throw.
 */
module Seqs {
  import opened Wrappers

  /**
   * `Array.prototype.findIndex`: the smallest index whose element satisfies `p`,
   * with `None` in place of JavaScript's `-1`.
   */
  function FindIndex<T>(s: seq<T>, p: T -> bool): (r: Option<nat>)
    ensures r.Some? ==> r.value < |s| && p(s[r.value]) && IsFirst(s, p, r.value)
    ensures r.None? <==> IsFirst(s, p, |s|)
  {
    if s == [] then None
    else if p(s[0]) then Some(0)
    else match FindIndex(s[1..], p)
      case None => None
      case Some(i) => Some(i + 1)
  }

  /** `Array.prototype.find`: the first element satisfying `p`, if there is one. */
  function Find<T>(s: seq<T>, p: T -> bool): (r: Option<T>)
    ensures r.None? <==> IsFirst(s, p, |s|)
    ensures r.Some? ==> exists i :: 0 <= i < |s| && r.value == s[i] && p(s[i]) && IsFirst(s, p, i)
  {
    match FindIndex(s, p)
    case None => None
    case Some(i) => Some(s[i])
  }

  /** No element before index `i` satisfies `p` (with `i == |s|`: no element at all). */
  predicate IsFirst<T>(s: seq<T>, p: T -> bool, i: nat)
    requires i <= |s|
  {
    forall j :: 0 <= j < i ==> !p(s[j])
  }

  /** The contract of FindIndex determines its result: any first match is the one it returns. */
  lemma FindIndexUnique<T>(s: seq<T>, p: T -> bool, i: nat)
    requires i < |s| && p(s[i]) && IsFirst(s, p, i)
    ensures FindIndex(s, p) == Some(i)
  {
  }

  /** Two predicates that agree on every element give the same index. */
  lemma {:induction false} FindIndexAgree<T>(s: seq<T>, p: T -> bool, q: T -> bool)
    requires forall j :: 0 <= j < |s| ==> p(s[j]) == q(s[j])
    ensures FindIndex(s, p) == FindIndex(s, q)
  {
    if s != [] {
      FindIndexAgree(s[1..], p, q);
    }
  }

  /** Elements appended after a match never change the result of `findIndex`. */
  lemma {:induction false} FindIndexPrefix<T>(s: seq<T>, t: seq<T>, p: T -> bool)
    requires FindIndex(s, p).Some?
    ensures FindIndex(s + t, p) == FindIndex(s, p)
  {
    assert s != [];
    if !p(s[0]) {
      assert (s + t)[1..] == s[1..] + t;
      FindIndexPrefix(s[1..], t, p);
    }
  }

  /** Elements appended after a match never change the result of `find`. */
  lemma FindPrefix<T>(s: seq<T>, t: seq<T>, p: T -> bool)
    requires Find(s, p).Some?
    ensures Find(s + t, p) == Find(s, p)
  {
    FindIndexPrefix(s, t, p);
    var i := FindIndex(s, p).value;
    assert (s + t)[i] == s[i];
  }

  /**
   * `Array.prototype.map` with a callback that may throw: `None` when `f` fails
   * on some element, otherwise the element-wise image of `s`.
   */
  function MapAll<A, B>(s: seq<A>, f: A -> Option<B>): (r: Option<seq<B>>)
    ensures r.Some? <==> forall j :: 0 <= j < |s| ==> f(s[j]).Some?
    ensures r.Some? ==> |r.value| == |s|
    ensures r.Some? ==> forall j :: 0 <= j < |s| ==> Some(r.value[j]) == f(s[j])
  {
    if s == [] then Some([])
    else match (f(s[0]), MapAll(s[1..], f))
      case (Some(x), Some(xs)) => Some([x] + xs)
      case _ => None
  }

  /** Mapping a concatenation is concatenating the mapped parts. */
  lemma MapAllAppend<A, B>(s: seq<A>, t: seq<A>, f: A -> Option<B>)
    ensures MapAll(s + t, f).Some? <==> MapAll(s, f).Some? && MapAll(t, f).Some?
    ensures MapAll(s + t, f).Some? ==> MapAll(s + t, f).value == MapAll(s, f).value + MapAll(t, f).value
  {
    var st := s + t;
    assert forall j :: 0 <= j < |s| ==> st[j] == s[j];
    assert forall j :: 0 <= j < |t| ==> st[|s| + j] == t[j];
    if MapAll(s, f).Some? && MapAll(t, f).Some? {
      assert forall j :: 0 <= j < |st| ==> f(st[j]).Some? by {
        forall j | 0 <= j < |st| ensures f(st[j]).Some? {
          if j >= |s| {
            assert st[j] == t[j - |s|];
          }
        }
      }
      var r, a, b := MapAll(st, f).value, MapAll(s, f).value, MapAll(t, f).value;
      forall j | 0 <= j < |r| ensures r[j] == (a + b)[j] {
        if j >= |s| {
          assert st[j] == t[j - |s|];
        }
      }
      assert r == a + b;
    } else if MapAll(s, f).None? {
      var j :| 0 <= j < |s| && f(s[j]).None?;
      assert f(st[j]).None?;
    } else {
      var j :| 0 <= j < |t| && f(t[j]).None?;
      assert f(st[|s| + j]).None?;
    }
  }
}

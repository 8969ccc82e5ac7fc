/** Small shared vocabulary: optional values, results, and facts about
    duplicate-free sequences that the planner and the services rely on. */
module Common {

  datatype Option<+T> = None | Some(value: T)

  /** The outcome of an operation that the source may abort with an exception. */
  datatype Result<+T, +E> = Success(value: T) | Failure(error: E)

  /** The set of elements of a sequence (Python's `set(xs)`). */
  function Elems<T>(s: seq<T>): set<T>
  {
    set x | x in s
  }

  /** No element occurs twice. */
  predicate NoDup<T(==)>(s: seq<T>)
  {
    forall i, j :: 0 <= i < j < |s| ==> s[i] != s[j]
  }

  /** Concatenation of a list of lists, in order (`[x for g in gs for x in g]`). */
  function Flatten<T>(gs: seq<seq<T>>): seq<T>
  {
    if gs == [] then [] else gs[0] + Flatten(gs[1..])
  }

  lemma {:induction false} FlattenAppend<T>(gs: seq<seq<T>>, g: seq<T>)
    ensures Flatten(gs + [g]) == Flatten(gs) + g
  {
    if gs == [] {
      assert [g][1..] == [];
    } else {
      assert (gs + [g])[1..] == gs[1..] + [g];
      FlattenAppend(gs[1..], g);
    }
  }

  lemma {:induction false} FlattenMember<T>(gs: seq<seq<T>>, x: T)
    ensures x in Flatten(gs) <==> exists k :: 0 <= k < |gs| && x in gs[k]
  {
    if gs != [] {
      FlattenMember(gs[1..], x);
      if x in gs[0] {
      } else if x in Flatten(gs[1..]) {
        var k :| 0 <= k < |gs[1..]| && x in gs[1..][k];
        assert x in gs[k + 1];
      } else {
        forall k | 0 <= k < |gs| ensures x !in gs[k] {
          if k > 0 { assert gs[k] == gs[1..][k - 1]; }
        }
      }
    }
  }

  /** A duplicate-free sequence has as many distinct elements as it has
      entries, and only a duplicate-free one does: this is what Python's
      `len(set(xs)) != len(xs)` test decides. */
  lemma {:induction false} NoDupIffCardinality<T>(s: seq<T>)
    ensures NoDup(s) <==> |Elems(s)| == |s|
  {
    if s == [] {
      assert Elems(s) == {};
    } else {
      var t := s[1..];
      NoDupIffCardinality(t);
      assert Elems(s) == {s[0]} + Elems(t);
      if s[0] in t {
        assert Elems(s) == Elems(t);
        var j :| 0 <= j < |t| && t[j] == s[0];
        assert s[0] == s[j + 1];
        assert !NoDup(s);
        ElemsBound(t);
      } else {
        assert |Elems(s)| == |Elems(t)| + 1;
        if NoDup(s) {
          assert NoDup(t) by {
            forall i, j | 0 <= i < j < |t| ensures t[i] != t[j] {
              assert t[i] == s[i + 1] && t[j] == s[j + 1];
            }
          }
        } else {
          var i, j :| 0 <= i < j < |s| && s[i] == s[j];
          assert i > 0;
          assert t[i - 1] == t[j - 1];
          assert !NoDup(t);
        }
      }
    }
  }

  lemma ElemsEmpty<T>(s: seq<T>)
    ensures Elems(s) == {} <==> s == []
  {
    if s != [] {
      assert s[0] in Elems(s);
    }
  }

  lemma {:induction false} ElemsBound<T>(s: seq<T>)
    ensures |Elems(s)| <= |s|
  {
    if s != [] {
      ElemsBound(s[1..]);
      assert Elems(s) == {s[0]} + Elems(s[1..]);
    }
  }
}

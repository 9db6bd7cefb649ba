/**
 * Workflow steps and the two list operations the coordinator applies to them:
 * `steps.sort((a, b) => a.order - b.order)`, a stable sort by `order`, and the
 * de-duplication `[...new Set(xs)]`, which keeps the first occurrence of each value.
 */
module Steps {
  import opened Wrappers

  /** One entry of a workflow's `steps` array: which agent runs, and its position key. */
  datatype Step = Step(agentId: string, order: int)

  predicate Sorted(s: seq<Step>) {
    forall i, j :: 0 <= i < j < |s| ==> s[i].order <= s[j].order
  }

  /** Places `x` after every element whose order is not greater than its own. */
  function Insert(x: Step, s: seq<Step>): (r: seq<Step>)
    ensures |r| == |s| + 1
    ensures multiset(r) == multiset(s) + multiset{x}
  {
    if s == [] || s[|s| - 1].order <= x.order then s + [x]
    else
      assert s == s[..|s| - 1] + [s[|s| - 1]];
      Insert(x, s[..|s| - 1]) + [s[|s| - 1]]
  }

  lemma {:induction false} InsertSorted(x: Step, s: seq<Step>)
    requires Sorted(s)
    ensures Sorted(Insert(x, s))
  {
    if s != [] && s[|s| - 1].order > x.order {
      var p, last := s[..|s| - 1], s[|s| - 1];
      InsertSorted(x, p);
      var r' := Insert(x, p);
      forall k | 0 <= k < |r'| ensures r'[k].order <= last.order {
        assert r'[k] in multiset(p) + multiset{x};
        if r'[k] != x {
          assert r'[k] in p;
        }
      }
    }
  }

  /** The array `steps.sort` leaves: a stable sort by `order`, ascending. */
  function SortByOrder(s: seq<Step>): (r: seq<Step>)
    ensures |r| == |s|
  {
    if s == [] then [] else Insert(s[|s| - 1], SortByOrder(s[..|s| - 1]))
  }

  /** The sorted array is in ascending order. */
  lemma {:induction false} SortIsSorted(s: seq<Step>)
    ensures Sorted(SortByOrder(s))
  {
    if s != [] {
      SortIsSorted(s[..|s| - 1]);
      InsertSorted(s[|s| - 1], SortByOrder(s[..|s| - 1]));
    }
  }

  /** The sorted array holds the same steps, each as often as before. */
  lemma {:induction false} SortIsPermutation(s: seq<Step>)
    ensures multiset(SortByOrder(s)) == multiset(s)
  {
    if s != [] {
      SortIsPermutation(s[..|s| - 1]);
      assert s == s[..|s| - 1] + [s[|s| - 1]];
    }
  }

  /** The steps whose order is `v`, in the order they appear in `s`. */
  function WithOrder(s: seq<Step>, v: int): (r: seq<Step>)
    ensures forall k :: 0 <= k < |r| ==> r[k].order == v
  {
    if s == [] then []
    else WithOrder(s[..|s| - 1], v) + (if s[|s| - 1].order == v then [s[|s| - 1]] else [])
  }

  lemma WithOrderAppend(a: seq<Step>, b: seq<Step>, v: int)
    ensures WithOrder(a + b, v) == WithOrder(a, v) + WithOrder(b, v)
    decreases |b|
  {
    if b == [] {
      assert a + b == a;
    } else {
      assert (a + b)[..|a + b| - 1] == a + b[..|b| - 1];
      WithOrderAppend(a, b[..|b| - 1], v);
    }
  }

  lemma WithOrderSingle(y: Step, v: int)
    ensures WithOrder([y], v) == if y.order == v then [y] else []
  {
    assert [y][..0] == [];
  }

  lemma {:induction false} InsertWithOrder(x: Step, s: seq<Step>, v: int)
    ensures WithOrder(Insert(x, s), v) == WithOrder(s, v) + (if x.order == v then [x] else [])
  {
    WithOrderSingle(x, v);
    if s == [] || s[|s| - 1].order <= x.order {
      assert Insert(x, s) == s + [x];
      WithOrderAppend(s, [x], v);
    } else {
      var p, last := s[..|s| - 1], s[|s| - 1];
      assert Insert(x, s) == Insert(x, p) + [last];
      assert WithOrder(s, v) == WithOrder(p, v) + WithOrder([last], v) by {
        WithOrderSingle(last, v);
      }
      InsertWithOrder(x, p, v);
      WithOrderAppend(Insert(x, p), [last], v);
      WithOrderSingle(last, v);
      if x.order == v {
        assert WithOrder([last], v) == [];
      } else {
        assert WithOrder([x], v) == [];
      }
    }
  }

  /** Stability: steps that share an order keep their relative order. */
  lemma {:induction false} SortIsStable(s: seq<Step>, v: int)
    ensures WithOrder(SortByOrder(s), v) == WithOrder(s, v)
  {
    if s != [] {
      SortIsStable(s[..|s| - 1], v);
      InsertWithOrder(s[|s| - 1], SortByOrder(s[..|s| - 1]), v);
    }
  }

  /** An already ascending array is left as it is. */
  lemma {:induction false} SortKeepsSorted(s: seq<Step>)
    requires Sorted(s)
    ensures SortByOrder(s) == s
  {
    if s != [] {
      SortKeepsSorted(s[..|s| - 1]);
    }
  }

  /** The orders 0, 1, ..., n-1 in array order: the numbering the workflow editor maintains. */
  predicate DenseOrders(s: seq<Step>) {
    forall i :: 0 <= i < |s| ==> s[i].order == i
  }

  /** A densely numbered array sorts to itself, so the run follows the editor's order. */
  lemma DenseIsSorted(s: seq<Step>)
    requires DenseOrders(s)
    ensures SortByOrder(s) == s
  {
    SortKeepsSorted(s);
  }

  lemma SortHeadMinimal(s: seq<Step>)
    requires s != []
    ensures forall j :: 0 <= j < |s| ==> SortByOrder(s)[0].order <= s[j].order
  {
    var r := SortByOrder(s);
    SortIsSorted(s);
    SortIsPermutation(s);
    forall j | 0 <= j < |s| ensures r[0].order <= s[j].order {
      assert s[j] in multiset(r);
      var k :| 0 <= k < |r| && r[k] == s[j];
    }
  }

  lemma WithOrderHead(s: seq<Step>)
    requires s != []
    ensures WithOrder(s, s[0].order) != [] && WithOrder(s, s[0].order)[0] == s[0]
  {
    assert s == [s[0]] + s[1..];
    WithOrderAppend([s[0]], s[1..], s[0].order);
    assert WithOrder([s[0]], s[0].order) == [s[0]];
  }

  /**
   * The first step after sorting (the director of a hierarchical workflow):
   * the earliest step in `s` among those of lowest order.
   */
  lemma SortHead(s: seq<Step>)
    requires s != []
    ensures var h := SortByOrder(s)[0];
      exists i :: 0 <= i < |s| && s[i] == h
        && (forall j :: 0 <= j < |s| ==> h.order <= s[j].order)
        && (forall j :: 0 <= j < i ==> s[j].order > h.order)
  {
    var r := SortByOrder(s);
    var h := r[0];
    SortHeadMinimal(s);
    WithOrderHead(r);
    SortIsStable(s, h.order);
    SortIsPermutation(s);
    assert h in multiset(s);
    WithOrderFirst(s, h.order);
  }

  /** The first element of WithOrder is the first step in `s` with that order. */
  lemma {:induction false} WithOrderFirst(s: seq<Step>, v: int)
    requires exists k :: 0 <= k < |s| && s[k].order == v
    ensures WithOrder(s, v) != []
    ensures exists i :: 0 <= i < |s| && s[i] == WithOrder(s, v)[0] && forall j :: 0 <= j < i ==> s[j].order != v
  {
    var p, last := s[..|s| - 1], s[|s| - 1];
    assert WithOrder(s, v) == WithOrder(p, v) + (if last.order == v then [last] else []);
    if exists k :: 0 <= k < |p| && p[k].order == v {
      WithOrderFirst(p, v);
      var i :| 0 <= i < |p| && p[i] == WithOrder(p, v)[0] && forall j :: 0 <= j < i ==> p[j].order != v;
      assert WithOrder(s, v)[0] == p[i] == s[i];
      assert forall j :: 0 <= j < i ==> s[j] == p[j];
    } else {
      NoneWithOrder(p, v);
      assert forall j :: 0 <= j < |s| - 1 ==> s[j].order != v by {
        forall j | 0 <= j < |s| - 1 ensures s[j].order != v {
          assert s[j] == p[j];
        }
      }
      assert WithOrder(s, v) == [last];
    }
  }

  lemma {:induction false} NoneWithOrder(s: seq<Step>, v: int)
    requires forall k :: 0 <= k < |s| ==> s[k].order != v
    ensures WithOrder(s, v) == []
  {
    if s != [] {
      NoneWithOrder(s[..|s| - 1], v);
    }
  }

  /** `[...new Set(xs)]`: the same values, each once. */
  function Dedup(s: seq<string>): (r: seq<string>)
    ensures forall x :: x in r <==> x in s
    ensures forall i, j :: 0 <= i < j < |r| ==> r[i] != r[j]
  {
    if s == [] then []
    else
      var d := Dedup(s[..|s| - 1]);
      assert forall x :: x in s <==> x in s[..|s| - 1] || x == s[|s| - 1];
      if s[|s| - 1] in d then d else d + [s[|s| - 1]]
  }

  /** The first element of `s` outside `known`, if any. */
  ghost function FirstOutside(s: seq<string>, known: set<string>): (r: Option<string>)
    ensures r.None? <==> forall k :: 0 <= k < |s| ==> s[k] in known
    ensures r.Some? ==> r.value !in known && exists i :: 0 <= i < |s| && s[i] == r.value && forall j :: 0 <= j < i ==> s[j] in known
  {
    if s == [] then None
    else if s[0] !in known then Some(s[0])
    else
      var r := FirstOutside(s[1..], known);
      assert r.Some? ==> exists i :: 0 <= i < |s| && s[i] == r.value && forall j :: 0 <= j < i ==> s[j] in known by {
        if r.Some? {
          var i :| 0 <= i < |s[1..]| && s[1..][i] == r.value && forall j :: 0 <= j < i ==> s[1..][j] in known;
          assert s[i + 1] == r.value;
          assert forall j :: 0 <= j < i + 1 ==> s[j] in known by {
            forall j | 0 <= j < i + 1 ensures s[j] in known {
              if j > 0 { assert s[j] == s[1..][j - 1]; }
            }
          }
        }
      }
      r
  }

  lemma {:induction false} FirstOutsideAppend(p: seq<string>, x: string, known: set<string>)
    ensures FirstOutside(p + [x], known) ==
      if FirstOutside(p, known).Some? then FirstOutside(p, known)
      else if x in known then None else Some(x)
  {
    if p != [] && p[0] in known {
      assert (p + [x])[1..] == p[1..] + [x];
      FirstOutsideAppend(p[1..], x, known);
    }
  }

  /** De-duplicating does not change which value is the first one outside a set. */
  lemma {:induction false} DedupFirstOutside(s: seq<string>, known: set<string>)
    ensures FirstOutside(Dedup(s), known) == FirstOutside(s, known)
  {
    if s != [] {
      var p, x := s[..|s| - 1], s[|s| - 1];
      var d := Dedup(p);
      assert s == p + [x];
      DedupFirstOutside(p, known);
      FirstOutsideAppend(p, x, known);
      if x in d {
        if FirstOutside(p, known).None? {
          assert x in p;
          var k :| 0 <= k < |p| && p[k] == x;
        }
      } else {
        FirstOutsideAppend(d, x, known);
      }
    }
  }
}

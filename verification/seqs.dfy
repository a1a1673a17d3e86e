/** Sequence helpers: the order-preserving de-duplication loop the parser
    writes by hand, `list(set(xs))`, Python slicing `xs[:n]`, and
    concatenation of chunks. */
module Seqs {

  predicate NoDup<T(==)>(s: seq<T>) {
    forall i, j :: 0 <= i < j < |s| ==> s[i] != s[j]
  }

  function Elems<T>(s: seq<T>): set<T> {
    set x | x in s
  }

  /** A sequence without duplicates concatenates from two duplicate-free,
      disjoint halves, and only from such halves. */
  lemma NoDupConcat<T>(a: seq<T>, b: seq<T>)
    ensures NoDup(a + b) <==> NoDup(a) && NoDup(b) && (forall x :: x in a ==> x !in b)
  {
    var ab := a + b;
    assert forall i :: 0 <= i < |a| ==> ab[i] == a[i];
    assert forall j :: 0 <= j < |b| ==> ab[|a| + j] == b[j];
    if NoDup(ab) {
      forall i, j | 0 <= i < j < |b|
        ensures b[i] != b[j]
      {
        assert ab[|a| + i] != ab[|a| + j];
      }
      forall x | x in a
        ensures x !in b
      {
        var i :| 0 <= i < |a| && a[i] == x;
        assert forall j :: 0 <= j < |b| ==> ab[i] != b[j];
      }
    }
    if NoDup(a) && NoDup(b) && (forall x :: x in a ==> x !in b) {
      forall i, j | 0 <= i < j < |ab|
        ensures ab[i] != ab[j]
      {
        if j < |a| {
        } else if i >= |a| {
          assert ab[i] == b[i - |a|] && ab[j] == b[j - |a|];
        } else {
          assert ab[i] in a && ab[j] == b[j - |a|];
        }
      }
    }
  }

  /** The position of the first occurrence of `x` in `s`. */
  function FirstIndex<T(==)>(s: seq<T>, x: T): (i: nat)
    requires x in s
    ensures i < |s| && s[i] == x
    ensures forall j :: 0 <= j < i ==> s[j] != x
  {
    if s[0] == x then 0 else 1 + FirstIndex(s[1..], x)
  }

  /** The de-duplication loop over `s`, started with `seen` already seen:
      each element not seen before is kept, in the order of first
      occurrences. */
  function DedupFrom<T(==, !new)>(s: seq<T>, seen: set<T>): (r: seq<T>)
    ensures NoDup(r)
    ensures forall x :: x in r <==> x in s && x !in seen
    ensures |r| <= |s|
    decreases |s|
  {
    if s == [] then []
    else if s[0] in seen then DedupFrom(s[1..], seen)
    else [s[0]] + DedupFrom(s[1..], seen + {s[0]})
  }

  /** Elements ordered by first occurrence in the tail of `s`, none of them
      the head, are ordered the same way in `s`, all after the head. */
  lemma ShiftOrder<T>(s: seq<T>, rest: seq<T>)
    requires s != []
    requires forall x :: x in rest ==> x in s[1..] && x in s && x != s[0]
    requires forall i, j :: 0 <= i < j < |rest| ==> FirstIndex(s[1..], rest[i]) < FirstIndex(s[1..], rest[j])
    ensures forall i, j :: 0 <= i < j < |rest| ==> FirstIndex(s, rest[i]) < FirstIndex(s, rest[j])
    ensures forall i :: 0 <= i < |rest| ==> FirstIndex(s, rest[i]) > 0
  {
    forall x | x in rest
      ensures FirstIndex(s, x) == 1 + FirstIndex(s[1..], x)
    {
    }
  }

  /** Putting the head of `s` in front keeps the first-occurrence order. */
  lemma ConsOrder<T>(s: seq<T>, rest: seq<T>)
    requires s != []
    requires forall x :: x in rest ==> x in s
    requires forall i, j :: 0 <= i < j < |rest| ==> FirstIndex(s, rest[i]) < FirstIndex(s, rest[j])
    requires forall i :: 0 <= i < |rest| ==> FirstIndex(s, rest[i]) > 0
    ensures forall i, j :: 0 <= i < j < |[s[0]] + rest| ==>
              FirstIndex(s, ([s[0]] + rest)[i]) < FirstIndex(s, ([s[0]] + rest)[j])
  {
    var r := [s[0]] + rest;
    assert forall k :: 0 < k < |r| ==> r[k] == rest[k - 1];
    assert FirstIndex(s, r[0]) == 0;
  }

  /** The loop keeps the elements in the order of their first occurrences. */
  lemma {:induction false} DedupFromOrder<T(!new)>(s: seq<T>, seen: set<T>)
    ensures forall i, j :: 0 <= i < j < |DedupFrom(s, seen)| ==>
              FirstIndex(s, DedupFrom(s, seen)[i]) < FirstIndex(s, DedupFrom(s, seen)[j])
    decreases |s|
  {
    if s != [] {
      var seen' := if s[0] in seen then seen else seen + {s[0]};
      var rest := DedupFrom(s[1..], seen');
      DedupFromOrder(s[1..], seen');
      assert forall x :: x in rest ==> x in s[1..] && x in s && x != s[0];
      ShiftOrder(s, rest);
      if s[0] !in seen {
        ConsOrder(s, rest);
      }
    }
  }

  /** Order-preserving de-duplication: each element once, at the place of
      its first occurrence. */
  function Dedup<T(==, !new)>(s: seq<T>): (r: seq<T>)
    ensures NoDup(r)
    ensures forall x :: x in r <==> x in s
    ensures forall i, j :: 0 <= i < j < |r| ==> FirstIndex(s, r[i]) < FirstIndex(s, r[j])
    ensures |r| <= |s|
  {
    DedupFromOrder(s, {});
    DedupFrom(s, {})
  }

  /** De-duplicating a concatenation handles the second half with the first
      half's elements already seen. */
  lemma {:induction false} DedupFromAppend<T(!new)>(a: seq<T>, b: seq<T>, seen: set<T>)
    ensures DedupFrom(a + b, seen) == DedupFrom(a, seen) + DedupFrom(b, seen + Elems(a))
    decreases |a|
  {
    if a == [] {
      assert a + b == b;
      assert seen + Elems(a) == seen;
    } else {
      assert (a + b)[0] == a[0];
      assert (a + b)[1..] == a[1..] + b;
      assert Elems(a) == {a[0]} + Elems(a[1..]);
      if a[0] in seen {
        DedupFromAppend(a[1..], b, seen);
        assert seen + Elems(a) == seen + Elems(a[1..]);
      } else {
        DedupFromAppend(a[1..], b, seen + {a[0]});
        assert seen + {a[0]} + Elems(a[1..]) == seen + Elems(a);
      }
    }
  }

  /** The hand-written loop: walking the list, an element not seen before
      is appended to the result, and a seen one is skipped. */
  lemma DedupSnoc<T(!new)>(s: seq<T>, x: T)
    ensures Dedup(s + [x]) == if x in s then Dedup(s) else Dedup(s) + [x]
  {
    DedupFromAppend(s, [x], {});
    assert x in Elems(s) <==> x in s;
    assert DedupFrom([x], {} + Elems(s)) == if x in s then [] else [x] by {
      assert [x][1..] == [];
    }
  }

  /** In `Dedup(a + b)` every element of `a` comes before every element that
      occurs only in `b`. */
  lemma DedupFrontFirst<T(!new)>(a: seq<T>, b: seq<T>)
    ensures forall i, j ::
              (0 <= i < |Dedup(a + b)| && 0 <= j < |Dedup(a + b)| &&
               Dedup(a + b)[i] in a && Dedup(a + b)[j] !in a) ==> i < j
  {
    var s := a + b;
    var r := Dedup(s);
    forall i, j | 0 <= i < |r| && 0 <= j < |r| && r[i] in a && r[j] !in a
      ensures i < j
    {
      var k :| 0 <= k < |a| && a[k] == r[i];
      assert s[k] == r[i];
      var fi, fj := FirstIndex(s, r[i]), FirstIndex(s, r[j]);
      assert fi <= k;
      assert fj >= |a|;
    }
  }

  /** De-duplicating a duplicate-free sequence that avoids `seen` is the identity. */
  lemma {:induction false} DedupFromNoDup<T(!new)>(s: seq<T>, seen: set<T>)
    requires NoDup(s)
    requires forall x :: x in s ==> x !in seen
    ensures DedupFrom(s, seen) == s
    decreases |s|
  {
    if s != [] {
      assert s[0] !in s[1..];
      DedupFromNoDup(s[1..], seen + {s[0]});
    }
  }

  /** Running the de-duplication twice gives the same list as running it once. */
  lemma DedupIdempotent<T(!new)>(s: seq<T>)
    ensures Dedup(Dedup(s)) == Dedup(s)
  {
    DedupFromNoDup(Dedup(s), {});
  }

  /** A duplicate-free sequence has as many elements as its element set. */
  lemma {:induction false} NoDupCard<T>(s: seq<T>)
    requires NoDup(s)
    ensures |Elems(s)| == |s|
    decreases |s|
  {
    if s != [] {
      NoDupCard(s[1..]);
      assert Elems(s) == Elems(s[1..]) + {s[0]};
      assert s[0] !in Elems(s[1..]);
    }
  }

  /** `a` is `b` with some elements left out, the rest in their order. */
  predicate IsSubsequence<T(==)>(a: seq<T>, b: seq<T>)
    decreases |b|
  {
    a == [] || (b != [] && if a[0] == b[0] then IsSubsequence(a[1..], b[1..]) else IsSubsequence(a, b[1..]))
  }

  /** A duplicate-free sequence inside a duplicate-free sequence is no longer. */
  lemma DistinctWithin<T>(a: seq<T>, b: seq<T>)
    requires NoDup(a) && NoDup(b)
    requires forall x :: x in a ==> x in b
    ensures |a| <= |b|
  {
    NoDupCard(a);
    NoDupCard(b);
    var ea, eb := Elems(a), Elems(b);
    assert eb == ea + (eb - ea);
    assert |eb| == |ea| + |eb - ea|;
  }

  /** A slice of a suffix is a slice of the whole. */
  lemma SliceOfDrop<T>(s: seq<T>, d: int, lo: int, hi: int, lo': int, hi': int)
    requires 0 <= d <= |s|
    requires 0 <= lo <= hi <= |s| - d
    requires lo' == d + lo && hi' == d + hi
    ensures s[d..][lo..hi] == s[lo'..hi']
  {
  }

  /** `list(s)` for a Python set: the elements in an unspecified order,
      each once. The order is left to the choice `:|` makes. */
  method ListOfSet<T(==)>(s: set<T>) returns (r: seq<T>)
    ensures NoDup(r)
    ensures |r| == |s|
    ensures forall x :: x in r <==> x in s
  {
    r := [];
    var rest := s;
    while rest != {}
      invariant rest <= s
      invariant forall x :: x in r <==> x in s && x !in rest
      invariant NoDup(r)
      invariant |r| + |rest| == |s|
      decreases rest
    {
      var x :| x in rest;
      r := r + [x];
      rest := rest - {x};
    }
  }

  /** Python's `s[:n]`, negative `n` counting from the end. */
  function Take<T>(s: seq<T>, n: int): (r: seq<T>)
    ensures n >= 0 ==> |r| == if n < |s| then n else |s|
    ensures n < 0 ==> |r| == if |s| + n > 0 then |s| + n else 0
    ensures r == s[..|r|]
  {
    if n >= |s| then s
    else if n >= 0 then s[..n]
    else if |s| + n > 0 then s[..|s| + n]
    else []
  }

  /** Concatenation of a list of lists, `sum(chunks, [])`. */
  function Flatten<T>(chunks: seq<seq<T>>): seq<T>
    decreases |chunks|
  {
    if chunks == [] then [] else chunks[0] + Flatten(chunks[1..])
  }
}

/** Sequence operations shared by several parts of the model: removing the
    members of one list from another (`xs.filter(x => !ys.includes(x))`),
    order-preserving sublists, and grouping by a key
    (`reduce` into `acc[key(x)].push(x)`). */
module Lists {

  /** `xs.filter(x => !ys.includes(x))`. */
  function Without<T(==)>(xs: seq<T>, ys: seq<T>): (r: seq<T>)
    ensures |r| <= |xs|
  {
    if xs == [] then []
    else Without(xs[..|xs| - 1], ys) + (if xs[|xs| - 1] in ys then [] else [xs[|xs| - 1]])
  }

  /** `Without` over one more element of `xs`. */
  lemma WithoutStep<T>(xs: seq<T>, ys: seq<T>, n: nat)
    requires n < |xs|
    ensures Without(xs[..n + 1], ys) == Without(xs[..n], ys) + (if xs[n] in ys then [] else [xs[n]])
  {
    assert xs[..n + 1][..n] == xs[..n];
  }

  /** `Without` keeps exactly the elements of `xs` that are not in `ys`. */
  lemma {:induction false} WithoutMembers<T>(xs: seq<T>, ys: seq<T>, x: T)
    ensures x in Without(xs, ys) <==> x in xs && x !in ys
  {
    if xs != [] {
      var init := xs[..|xs| - 1];
      WithoutMembers(init, ys, x);
      assert xs == init + [xs[|xs| - 1]];
    }
  }

  /** `a` is `b` with some elements left out, the rest in their order. */
  predicate IsSublist<T(==)>(a: seq<T>, b: seq<T>)
    decreases |b|
  {
    if a == [] then true
    else if b == [] then false
    else (a[|a| - 1] == b[|b| - 1] && IsSublist(a[..|a| - 1], b[..|b| - 1])) || IsSublist(a, b[..|b| - 1])
  }

  lemma {:induction false} EmptySublist<T>(b: seq<T>)
    ensures IsSublist([], b)
  {
  }

  /** Dropping the last element of `a` keeps it a sublist of `b`. */
  lemma {:induction false} SublistDropLast<T>(a: seq<T>, b: seq<T>)
    requires a != [] && IsSublist(a, b)
    ensures IsSublist(a[..|a| - 1], b)
    decreases |b|
  {
    var a' := a[..|a| - 1];
    if a' == [] {
      EmptySublist(b);
    } else if a[|a| - 1] == b[|b| - 1] && IsSublist(a', b[..|b| - 1]) {
      assert IsSublist(a', b[..|b| - 1]);
    } else {
      SublistDropLast(a, b[..|b| - 1]);
    }
  }

  /** A sublist of `b` is a sublist of `b` with another element at the end. */
  lemma {:induction false} SublistExtend<T>(a: seq<T>, b: seq<T>, x: T)
    requires IsSublist(a, b)
    ensures IsSublist(a, b + [x])
  {
    if a != [] {
      assert (b + [x])[..|b + [x]| - 1] == b;
    }
  }

  /** The elements `Without` keeps are in their original order. */
  lemma {:induction false} WithoutIsSublist<T>(xs: seq<T>, ys: seq<T>)
    ensures IsSublist(Without(xs, ys), xs)
  {
    if xs == [] {
    } else {
      var init := xs[..|xs| - 1];
      var last := xs[|xs| - 1];
      WithoutIsSublist(init, ys);
      var w := Without(init, ys);
      assert xs == init + [last];
      if last in ys {
        assert Without(xs, ys) == w + [];
        assert w + [] == w;
        SublistExtend(w, init, last);
      } else {
        var r := w + [last];
        assert r[..|r| - 1] == w;
      }
    }
  }

  // ---------------------------------------------------------------------------
  // Grouping by a key
  // ---------------------------------------------------------------------------

  /** The elements of `xs` whose key is `k`, in order. */
  function Select<T>(xs: seq<T>, key: T -> string, k: string): seq<T> {
    if xs == [] then []
    else Select(xs[..|xs| - 1], key, k) + (if key(xs[|xs| - 1]) == k then [xs[|xs| - 1]] else [])
  }

  /** The grouping `reduce`: each element is appended to the list under its key,
      a missing list being created empty first. */
  function Group<T>(xs: seq<T>, key: T -> string): map<string, seq<T>> {
    if xs == [] then map[]
    else
      var g := Group(xs[..|xs| - 1], key);
      var x := xs[|xs| - 1];
      g[key(x) := (if key(x) in g then g[key(x)] else []) + [x]]
  }

  /** The groups are exactly the keys that occur, and each group holds the
      elements with that key, in their original order. */
  lemma {:induction false} GroupSelect<T>(xs: seq<T>, key: T -> string, k: string)
    ensures k in Group(xs, key) <==> exists i :: 0 <= i < |xs| && key(xs[i]) == k
    ensures k in Group(xs, key) ==> Group(xs, key)[k] == Select(xs, key, k)
    ensures k !in Group(xs, key) ==> Select(xs, key, k) == []
  {
    if xs != [] {
      var init := xs[..|xs| - 1];
      GroupSelect(init, key, k);
      var last := xs[|xs| - 1];
      if key(last) == k {
        assert key(xs[|xs| - 1]) == k;
      }
      if exists i :: 0 <= i < |init| && key(init[i]) == k {
        var i :| 0 <= i < |init| && key(init[i]) == k;
        assert xs[i] == init[i];
      }
      if exists i :: 0 <= i < |xs| && key(xs[i]) == k {
        var i :| 0 <= i < |xs| && key(xs[i]) == k;
        if i < |init| {
          assert init[i] == xs[i];
        }
      }
    }
  }

  /** Selecting keeps exactly the elements with the key, and never more of them. */
  lemma {:induction false} SelectCount<T>(xs: seq<T>, key: T -> string, k: string)
    ensures |Select(xs, key, k)| <= |xs|
    ensures forall x :: x in Select(xs, key, k) <==> x in xs && key(x) == k
  {
    if xs != [] {
      var init := xs[..|xs| - 1];
      SelectCount(init, key, k);
      assert xs == init + [xs[|xs| - 1]];
    }
  }

  // ---------------------------------------------------------------------------
  // A `Set` filled in order
  // ---------------------------------------------------------------------------

  /** The elements of `xs` in the order they first occur, as `new Set` with
      repeated `add` keeps them. */
  function FirstSeen<T(==)>(xs: seq<T>): seq<T> {
    if xs == [] then []
    else
      var f := FirstSeen(xs[..|xs| - 1]);
      if xs[|xs| - 1] in f then f else f + [xs[|xs| - 1]]
  }

  /** Each element of `xs` appears exactly once, and nothing else. */
  lemma {:induction false} FirstSeenOnce<T>(xs: seq<T>)
    ensures forall x :: multiset(FirstSeen(xs))[x] == if x in xs then 1 else 0
  {
    if xs != [] {
      var init := xs[..|xs| - 1];
      FirstSeenOnce(init);
      assert xs == init + [xs[|xs| - 1]];
    }
  }
}

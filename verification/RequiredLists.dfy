/**
 A list of names with a flag on each, of which only the flagged names are kept, in order: the
 shape of a schema's `required` list. The kept names determine the flags unless two equal
 names carry different flags with no flag between them.
 */
module RequiredLists {

  /** The flagged names among the first n. */
  function PickedTo(names: seq<string>, flags: seq<bool>, n: nat): seq<string>
    requires n <= |names| == |flags|
  {
    if n == 0 then [] else PickedTo(names, flags, n - 1) + if flags[n - 1] then [names[n - 1]] else []
  }

  function Picked(names: seq<string>, flags: seq<bool>): seq<string>
    requires |names| == |flags|
  {
    PickedTo(names, flags, |names|)
  }

  /** The flag could as well sit on the other of two equal names. */
  predicate Movable(names: seq<string>, flags: seq<bool>, i: nat, j: nat)
    requires |names| == |flags|
  {
    i < j < |names| && names[i] == names[j] && flags[i] != flags[j] && forall k | i < k < j :: !flags[k]
  }

  lemma {:induction false} PickedPrefix(names: seq<string>, flags: seq<bool>, n: nat, m: nat)
    requires n <= m <= |names| == |flags|
    ensures var p, q := PickedTo(names, flags, n), PickedTo(names, flags, m); |p| <= |q| && q[..|p|] == p
  {
    if n < m {
      PickedPrefix(names, flags, n, m - 1);
    }
  }

  lemma {:induction false} PickedAt(names: seq<string>, flags: seq<bool>, n: nat)
    requires n < |names| == |flags| && flags[n]
    ensures var p := PickedTo(names, flags, n);
      |p| < |Picked(names, flags)| && Picked(names, flags)[|p|] == names[n]
  {
    var p, p' := PickedTo(names, flags, n), PickedTo(names, flags, n + 1);
    assert p' == p + [names[n]];
    PickedPrefix(names, flags, n + 1, |names|);
    assert Picked(names, flags)[..|p'|][|p|] == names[n];
  }

  lemma {:induction false} NextPicked(names: seq<string>, flags: seq<bool>, n: nat) returns (j: nat)
    requires n <= |names| == |flags| && |PickedTo(names, flags, n)| < |Picked(names, flags)|
    ensures n <= j < |names| && flags[j] && (forall k | n <= k < j :: !flags[k])
    ensures PickedTo(names, flags, j) == PickedTo(names, flags, n)
    decreases |names| - n
  {
    if flags[n] {
      j := n;
    } else {
      j := NextPicked(names, flags, n + 1);
    }
  }

  lemma {:induction false} LastPicked(names: seq<string>, flags: seq<bool>, n: nat) returns (j: nat)
    requires n <= |names| == |flags| && PickedTo(names, flags, n) != []
    ensures j < n && flags[j] && (forall k | j < k < n :: !flags[k])
    ensures |PickedTo(names, flags, n)| == |PickedTo(names, flags, j)| + 1
  {
    if flags[n - 1] {
      j := n - 1;
    } else {
      j := LastPicked(names, flags, n - 1);
    }
  }

  /** If f has picked more by n but the totals agree, g picks one that f does not and draws level. */
  lemma {:induction false} CatchUp(names: seq<string>, f: seq<bool>, g: seq<bool>, n: nat) returns (k: nat)
    requires n <= |names| == |f| == |g| && |Picked(names, f)| == |Picked(names, g)|
    requires |PickedTo(names, f, n)| > |PickedTo(names, g, n)|
    ensures n <= k < |names| && g[k] && !f[k] && |PickedTo(names, f, k)| == |PickedTo(names, g, k)| + 1
    decreases |names| - n
  {
    if |PickedTo(names, f, n + 1)| <= |PickedTo(names, g, n + 1)| {
      k := n;
    } else {
      k := CatchUp(names, f, g, n + 1);
    }
  }

  lemma {:induction false} SameSoFar(names: seq<string>, f: seq<bool>, g: seq<bool>, n: nat)
    requires n <= |names| == |f| == |g| && forall k | 0 <= k < n :: f[k] == g[k]
    ensures PickedTo(names, f, n) == PickedTo(names, g, n)
  {
    if n > 0 {
      SameSoFar(names, f, g, n - 1);
    }
  }

  lemma {:induction false} FirstDifference(f: seq<bool>, g: seq<bool>) returns (n: nat)
    requires |f| == |g| && f != g
    ensures n < |f| && f[n] != g[n] && forall k | 0 <= k < n :: f[k] == g[k]
  {
    var d :| 0 <= d < |f| && f[d] != g[d];
    n := 0;
    while f[n] == g[n]
      invariant n <= d && forall k | 0 <= k < n :: f[k] == g[k]
      decreases d - n
    {
      n := n + 1;
    }
  }

  /** Two flaggings that keep the same names: some flag of the first could be moved where the second has one. */
  lemma {:induction false} DifferenceIsMovable(names: seq<string>, f: seq<bool>, g: seq<bool>) returns (i: nat, j: nat)
    requires |names| == |f| == |g| && f != g && Picked(names, f) == Picked(names, g)
    ensures Movable(names, f, i, j) && g[if f[i] then j else i]
  {
    var n := FirstDifference(f, g);
    SameSoFar(names, f, g, n);
    if g[n] {
      PickedAt(names, g, n);
      i := n;
      j := NextPicked(names, f, n);
      PickedAt(names, f, j);
    } else {
      j := CatchUp(names, f, g, n + 1);
      i := LastPicked(names, f, j);
      PickedAt(names, g, j);
      PickedAt(names, f, i);
    }
  }

  function Moved(flags: seq<bool>, i: nat, j: nat): seq<bool>
    requires i < j < |flags|
  {
    flags[i := flags[j]][j := flags[i]]
  }

  lemma {:induction false} MovedBetween(names: seq<string>, f: seq<bool>, i: nat, j: nat, n: nat)
    requires |names| == |f| && Movable(names, f, i, j) && i < n <= j
    ensures PickedTo(names, f, n) == PickedTo(names, f, i) + if f[i] then [names[i]] else []
    ensures PickedTo(names, Moved(f, i, j), n) == PickedTo(names, f, i) + if f[j] then [names[i]] else []
  {
    SameSoFar(names, f, Moved(f, i, j), i);
    if n > i + 1 {
      MovedBetween(names, f, i, j, n - 1);
    }
  }

  lemma {:induction false} MovedBeyond(names: seq<string>, f: seq<bool>, i: nat, j: nat, n: nat)
    requires |names| == |f| && Movable(names, f, i, j) && j < n <= |names|
    ensures PickedTo(names, Moved(f, i, j), n) == PickedTo(names, f, n)
  {
    if n == j + 1 {
      MovedBetween(names, f, i, j, j);
    } else {
      MovedBeyond(names, f, i, j, n - 1);
    }
  }

  /** Moving a movable flag changes the flags and keeps the names. */
  lemma {:induction false} MovingKeepsPicked(names: seq<string>, f: seq<bool>, i: nat, j: nat)
    requires |names| == |f| && Movable(names, f, i, j)
    ensures Picked(names, Moved(f, i, j)) == Picked(names, f) && Moved(f, i, j) != f
  {
    MovedBeyond(names, f, i, j, |names|);
    assert Moved(f, i, j)[i] != f[i];
  }
}

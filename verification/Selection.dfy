// Loops that keep the members of a list which satisfy a condition.
module Selection {

  // The positions of the members that satisfy p, in ascending order.
  ghost predicate Selects<T>(at: seq<nat>, xs: seq<T>, p: T -> bool) {
    && (forall i, j :: 0 <= i < j < |at| ==> at[i] < at[j])
    && (forall k: nat :: k in at <==> k < |xs| && p(xs[k]))
  }

  ghost function Where<T>(xs: seq<T>, p: T -> bool): (at: seq<nat>)
    ensures forall i :: 0 <= i < |at| ==> at[i] < |xs|
  {
    if xs == [] then [] else Where(xs[..|xs| - 1], p) + (if p(xs[|xs| - 1]) then [|xs| - 1] else [])
  }

  lemma {:induction false} WhereSelects<T>(xs: seq<T>, p: T -> bool)
    ensures Selects(Where(xs, p), xs, p)
  {
    if xs != [] {
      var before, n := xs[..|xs| - 1], |xs| - 1;
      WhereSelects(before, p);
      var r, at := Where(before, p), Where(xs, p);
      forall k: nat ensures k in at <==> k < |xs| && p(xs[k]) {
        assert k < n ==> before[k] == xs[k];
        assert k in at <==> k in r || (p(xs[n]) && k == n);
      }
    }
  }

  // The members that satisfy p, each turned by f, in order.
  ghost predicate Keeps<T, U>(ys: seq<U>, xs: seq<T>, p: T -> bool, f: T -> U) {
    var at := Where(xs, p);
    |ys| == |at| && forall i :: 0 <= i < |at| ==> ys[i] == f(xs[at[i]])
  }

  lemma KeepsPush<T, U>(ys: seq<U>, xs: seq<T>, x: T, p: T -> bool, f: T -> U)
    requires Keeps(ys, xs, p, f)
    ensures Keeps(ys + (if p(x) then [f(x)] else []), xs + [x], p, f)
  {
    var all := xs + [x];
    assert all[..|xs|] == xs;
    var at := Where(xs, p);
    assert Where(all, p) == if p(x) then at + [|xs|] else at;
  }

  lemma KeepsNone<T, U>(p: T -> bool, f: T -> U)
    ensures Keeps([], [], p, f)
  {
  }
}

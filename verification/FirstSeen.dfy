// Order-preserving removal of duplicates up to a key.
module FirstSeen {

  predicate HasKey<T, K(==)>(xs: seq<T>, key: T -> K, k: K) {
    exists i :: 0 <= i < |xs| && key(xs[i]) == k
  }

  // The elements whose key does not occur earlier.
  function Firsts<T, K(==)>(xs: seq<T>, key: T -> K): seq<T> {
    if xs == [] then []
    else
      var before, x := xs[..|xs| - 1], xs[|xs| - 1];
      Firsts(before, key) + (if HasKey(before, key, key(x)) then [] else [x])
  }

  lemma {:induction false} FirstsKeys<T, K>(xs: seq<T>, key: T -> K, k: K)
    ensures HasKey(Firsts(xs, key), key, k) <==> HasKey(xs, key, k)
  {
    if xs != [] {
      var before, x := xs[..|xs| - 1], xs[|xs| - 1];
      FirstsKeys(before, key, k);
      FirstsKeys(before, key, key(x));
      HasKeyPush(before, x, key, k);
      HasKeyPush(Firsts(before, key), x, key, k);
      assert xs == before + [x];
      assert Firsts(before, key) + [] == Firsts(before, key);
    }
  }

  lemma HasKeyPush<T, K>(xs: seq<T>, x: T, key: T -> K, k: K)
    ensures HasKey(xs + [x], key, k) <==> HasKey(xs, key, k) || key(x) == k
  {
    var all := xs + [x];
    if i :| 0 <= i < |xs| && key(xs[i]) == k {
      assert all[i] == xs[i];
    }
    if key(x) == k {
      assert all[|xs|] == x;
    }
    if i :| 0 <= i < |all| && key(all[i]) == k {
      assert i < |xs| ==> xs[i] == all[i];
    }
  }

  lemma HasKeyConcat<T, K>(a: seq<T>, b: seq<T>, key: T -> K, k: K)
    ensures HasKey(a + b, key, k) <==> HasKey(a, key, k) || HasKey(b, key, k)
  {
    var all := a + b;
    if i :| 0 <= i < |a| && key(a[i]) == k {
      assert all[i] == a[i];
    }
    if i :| 0 <= i < |b| && key(b[i]) == k {
      assert all[|a| + i] == b[i];
    }
    if i :| 0 <= i < |all| && key(all[i]) == k {
      assert if i < |a| then a[i] == all[i] else b[i - |a|] == all[i];
    }
  }

  lemma FirstsPush<T, K>(xs: seq<T>, x: T, key: T -> K)
    ensures Firsts(xs + [x], key) == if HasKey(xs, key, key(x)) then Firsts(xs, key) else Firsts(xs, key) + [x]
  {
    assert (xs + [x])[..|xs|] == xs;
  }

  lemma FirstsNone<T, K>(key: T -> K)
    ensures Firsts([], key) == []
  {
  }

  // No two elements kept share a key.
  lemma {:induction false} FirstsDistinct<T, K>(xs: seq<T>, key: T -> K)
    ensures forall i, j :: 0 <= i < j < |Firsts(xs, key)| ==> key(Firsts(xs, key)[i]) != key(Firsts(xs, key)[j])
  {
    if xs != [] {
      var before, x := xs[..|xs| - 1], xs[|xs| - 1];
      var kept := Firsts(before, key);
      FirstsDistinct(before, key);
      FirstsKeys(before, key, key(x));
      assert !HasKey(before, key, key(x)) ==> forall i :: 0 <= i < |kept| ==> key(kept[i]) != key(x);
    }
  }

  // What is kept is the first element with each key, in the order of the input.
  lemma {:induction false} FirstsSubsequence<T, K>(xs: seq<T>, key: T -> K) returns (at: seq<nat>)
    ensures |at| == |Firsts(xs, key)|
    ensures forall i :: 0 <= i < |at| ==> at[i] < |xs| && xs[at[i]] == Firsts(xs, key)[i]
    ensures forall i, j :: 0 <= i < j < |at| ==> at[i] < at[j]
    ensures forall i :: 0 <= i < |at| ==> !HasKey(xs[..at[i]], key, key(xs[at[i]]))
  {
    if xs == [] {
      at := [];
    } else {
      var before, x := xs[..|xs| - 1], xs[|xs| - 1];
      at := FirstsSubsequence(before, key);
      forall i | 0 <= i < |at| ensures xs[..at[i]] == before[..at[i]] && xs[at[i]] == before[at[i]] {
      }
      if !HasKey(before, key, key(x)) {
        at := at + [|xs| - 1];
      }
    }
  }

  lemma {:induction false} FirstsIdempotent<T, K>(xs: seq<T>, key: T -> K)
    ensures Firsts(Firsts(xs, key), key) == Firsts(xs, key)
  {
    if xs != [] {
      var before, x := xs[..|xs| - 1], xs[|xs| - 1];
      FirstsIdempotent(before, key);
      FirstsKeys(before, key, key(x));
      FirstsPush(Firsts(before, key), x, key);
      assert Firsts(before, key) + [] == Firsts(before, key);
    }
  }

  // Removing duplicates part by part first changes nothing.
  lemma {:induction false} FirstsHomomorphism<T, K>(a: seq<T>, b: seq<T>, key: T -> K)
    ensures Firsts(Firsts(a, key) + Firsts(b, key), key) == Firsts(a + b, key)
    decreases |b|
  {
    hide Firsts, HasKey;
    if b == [] {
      FirstsNone(key);
      assert Firsts(a, key) + Firsts(b, key) == Firsts(a, key) && a + b == a;
      FirstsIdempotent(a, key);
    } else {
      var before, x := b[..|b| - 1], b[|b| - 1];
      FirstsHomomorphism(a, before, key);
      assert a + b == (a + before) + [x];
      FirstsPush(a + before, x, key);
      assert before + [x] == b;
      FirstsPush(before, x, key);
      HasKeyConcat(a, before, key, key(x));
      if !HasKey(before, key, key(x)) {
        var fa, fb := Firsts(a, key), Firsts(before, key);
        assert fa + (fb + [x]) == (fa + fb) + [x];
        FirstsPush(fa + fb, x, key);
        HasKeyConcat(fa, fb, key, key(x));
        FirstsKeys(a, key, key(x));
        FirstsKeys(before, key, key(x));
      }
    }
  }

  // The loop with a set of the keys seen so far.
  method MergeKeyed<T, K(==)>(kept: seq<T>, seen: set<K>, xs: seq<T>, key: T -> K, ghost prior: seq<T>)
    returns (kept': seq<T>, seen': set<K>)
    requires kept == Firsts(prior, key) && forall k :: k in seen <==> HasKey(prior, key, k)
    ensures kept' == Firsts(prior + xs, key) && forall k :: k in seen' <==> HasKey(prior + xs, key, k)
  {
    hide Firsts, HasKey;
    kept', seen' := kept, seen;
    assert prior + xs[..0] == prior;
    for i := 0 to |xs|
      invariant kept' == Firsts(prior + xs[..i], key)
      invariant forall k :: k in seen' <==> HasKey(prior + xs[..i], key, k)
    {
      var k := key(xs[i]);
      ghost var sofar := prior + xs[..i];
      assert prior + xs[..i + 1] == sofar + [xs[i]];
      FirstsPush(sofar, xs[i], key);
      forall k' ensures HasKey(sofar + [xs[i]], key, k') <==> HasKey(sofar, key, k') || k == k' {
        HasKeyPush(sofar, xs[i], key, k');
      }
      assert k in seen' <==> HasKey(sofar, key, k);
      if k !in seen' {
        seen' := seen' + {k};
        kept' := kept' + [xs[i]];
      }
    }
    assert xs[..|xs|] == xs;
  }

  function Same<T>(x: T): T {
    x
  }

  lemma MemberKey<T>(xs: seq<T>, x: T)
    ensures x in xs <==> HasKey(xs, Same, x)
  {
    if i :| 0 <= i < |xs| && Same(xs[i]) == x {
      assert xs[i] == x;
    }
    if x in xs {
      var i :| 0 <= i < |xs| && xs[i] == x;
      assert Same(xs[i]) == x;
    }
  }

  // The loop that looks each element up in what is kept.
  method MergePlain<T(==)>(kept: seq<T>, xs: seq<T>, ghost prior: seq<T>) returns (kept': seq<T>)
    requires kept == Firsts(prior, Same)
    ensures kept' == Firsts(prior + xs, Same)
  {
    hide Firsts, HasKey;
    kept' := kept;
    assert prior + xs[..0] == prior;
    for i := 0 to |xs|
      invariant kept' == Firsts(prior + xs[..i], Same)
    {
      ghost var sofar := prior + xs[..i];
      assert prior + xs[..i + 1] == sofar + [xs[i]];
      FirstsPush(sofar, xs[i], Same);
      FirstsKeys(sofar, Same, xs[i]);
      MemberKey(kept', xs[i]);
      if xs[i] !in kept' {
        kept' := kept' + [xs[i]];
      }
    }
    assert xs[..|xs|] == xs;
  }
}

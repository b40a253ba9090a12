// Cancelling a turn: the check made at the entry of every node.
module Cancel {
  import opened Options
  import opened SessionFlags

  const WILDCARD := "*"

  predicate Matches(flag: Option<TurnId>, t: TurnId) {
    flag == Some(t) || flag == Some(WILDCARD)
  }

  // The answer from what the two reads saw.
  function Answer(first: Option<TurnId>, second: Option<TurnId>, t: TurnId): bool {
    first == Some(t) || (t != WILDCARD && second == Some(WILDCARD))
  }

  // The flag of a session after the first i events.
  function FlagAt(h: seq<Event>, i: nat, s: Session): Option<TurnId>
    requires i <= |h|
  {
    Get(Flags(h[..i]), s)
  }

  // A check whose reads fall after i and after j events.
  function Check(h: seq<Event>, i: nat, j: nat, s: Session, t: TurnId): bool
    requires i <= j <= |h|
  {
    Answer(FlagAt(h, i, s), FlagAt(h, j, s), t)
  }

  // A check cancels only if a matching flag was there at one of its reads.
  lemma CheckIsSound(h: seq<Event>, i: nat, j: nat, s: Session, t: TurnId)
    requires i <= j <= |h| && Check(h, i, j, s, t)
    ensures Matches(FlagAt(h, i, s), t) || Matches(FlagAt(h, j, s), t)
    ensures exists k :: 0 <= k < j && (h[k] == Set(s, t) || h[k] == Set(s, WILDCARD))
  {
    var n, u := if FlagAt(h, i, s) == Some(t) then i else j, if FlagAt(h, i, s) == Some(t) then t else WILDCARD;
    FlagsAreLatest(h[..n], s, u);
    var k :| 0 <= k < n && h[..n][k] == Set(s, u);
    assert h[k] == Set(s, u);
  }

  // When the two reads see the same flag, the answer is exactly whether it matches.
  lemma CheckIsExact(h: seq<Event>, i: nat, j: nat, s: Session, t: TurnId)
    requires i <= j <= |h| && FlagAt(h, i, s) == FlagAt(h, j, s)
    ensures Check(h, i, j, s, t) <==> Matches(FlagAt(h, i, s), t)
  {
  }

  // The only flag in place at both reads that a check misses: a wildcard that is
  // replaced by the turn's own id in between.
  lemma CheckMisses(h: seq<Event>, i: nat, j: nat, s: Session, t: TurnId)
    requires i <= j <= |h| && Matches(FlagAt(h, i, s), t) && Matches(FlagAt(h, j, s), t)
    ensures !Check(h, i, j, s, t) <==>
      t != WILDCARD && FlagAt(h, i, s) == Some(WILDCARD) && FlagAt(h, j, s) == Some(t)
  {
  }

  lemma CheckMissesExample()
    ensures
      var h := [Set("s", WILDCARD), Set("s", "a")];
      Matches(FlagAt(h, 1, "s"), "a") && Matches(FlagAt(h, 2, "s"), "a") && !Check(h, 1, 2, "s", "a")
  {
    var h := [Set("s", WILDCARD), Set("s", "a")];
    assert h[..1] == [Set("s", WILDCARD)] && h[..1][..0] == [] && h[..2] == h;
    assert Flags([]) == map[];
    assert Flags(h[..1]) == Apply(map[], Set("s", WILDCARD));
    assert Flags(h) == Apply(Flags(h[..1]), Set("s", "a"));
  }

  // A flag for another turn never cancels this one.
  lemma OthersDoNotCancel(h: seq<Event>, i: nat, j: nat, s: Session, t: TurnId)
    requires i <= j <= |h|
    requires forall k :: 0 <= k < j ==> h[k] != Set(s, t) && h[k] != Set(s, WILDCARD)
    ensures !Check(h, i, j, s, t)
  {
    if Check(h, i, j, s, t) {
      CheckIsSound(h, i, j, s, t);
    }
  }

  // A flag that cancels turn t is there at every instant from p to q, whichever events
  // come in between.
  predicate InPlace(h: seq<Event>, p: nat, q: nat, s: Session, t: TurnId)
    requires p <= q <= |h|
  {
    forall k :: p <= k <= q ==> Matches(FlagAt(h, k, s), t)
  }

  // Event k replaces the wildcard by the turn's own id.
  predicate Narrows(h: seq<Event>, k: nat, s: Session, t: TurnId)
    requires k < |h|
  {
    t != WILDCARD && FlagAt(h, k, s) == Some(WILDCARD) && h[k] == Set(s, t)
  }

  predicate Narrowed(h: seq<Event>, p: nat, q: nat, s: Session, t: TurnId)
    requires p <= q <= |h|
  {
    exists k :: p <= k < q && Narrows(h, k, s, t)
  }

  // While a matching flag is in place, a check finds it unless the wildcard its first read
  // sees is the turn's own id by the second; that takes an event that narrows it.
  lemma FlagStays(h: seq<Event>, p: nat, q: nat, i: nat, j: nat, s: Session, t: TurnId)
    requires p <= i <= j <= q <= |h| && InPlace(h, p, q, s, t)
    ensures Check(h, i, j, s, t) <==>
      !(t != WILDCARD && FlagAt(h, i, s) == Some(WILDCARD) && FlagAt(h, j, s) == Some(t))
    ensures Check(h, i, j, s, t) || Narrowed(h, i, j, s, t)
  {
    CheckMisses(h, i, j, s, t);
    if !Check(h, i, j, s, t) {
      SomeEventNarrows(h, i, j, s, t);
    }
  }

  // From the wildcard to the turn's own id, through matching flags only.
  lemma {:induction false} SomeEventNarrows(h: seq<Event>, i: nat, j: nat, s: Session, t: TurnId)
    requires i <= j <= |h| && InPlace(h, i, j, s, t) && t != WILDCARD
    requires FlagAt(h, i, s) == Some(WILDCARD) && FlagAt(h, j, s) == Some(t)
    ensures Narrowed(h, i, j, s, t)
    decreases j - i
  {
    assert h[..j][..j - 1] == h[..j - 1];
    if FlagAt(h, j - 1, s) == Some(WILDCARD) {
      assert Narrows(h, j - 1, s, t);
    } else {
      SomeEventNarrows(h, i, j - 1, s, t);
    }
  }

  // What happens after a check does not change it.
  lemma LaterHistory(h: seq<Event>, h': seq<Event>, i: nat, j: nat, s: Session, t: TurnId)
    requires i <= j <= |h| && h <= h'
    ensures Check(h', i, j, s, t) == Check(h, i, j, s, t)
  {
    assert h[..i] == h'[..i] && h[..j] == h'[..j];
  }

  // ---------------------------------------------------------------------
  // The check in the pipeline
  // ---------------------------------------------------------------------

  // Without a store, or when a read fails, nothing is cancelled.
  method CheckCancel(store: FlagStore?, s: Session, t: TurnId, readsWork: bool)
    returns (cancelled: bool, ghost first: Option<TurnId>, ghost second: Option<TurnId>)
    requires store != null ==> store.Valid()
    modifies store
    ensures store != null ==> store.Valid() && old(store.history) <= store.history
    ensures cancelled <==> store != null && readsWork && Answer(first, second, t)
    ensures store != null ==> first == Get(Flags(old(store.history)), s)
    ensures store != null ==>
      exists n :: |old(store.history)| <= n <= |store.history| && second == FlagAt(store.history, n, s)
  {
    cancelled, first, second := false, None, None;
    if store == null {
      return;
    }
    first := Get(store.flags, s);
    second := first;
    ghost var n := |store.history|;
    assert store.history[..n] == store.history;
    assert second == FlagAt(store.history, n, s);
    if !readsWork {
      return;
    }
    var own := store.IsSetTo(s, t);
    FlagsAreLatest(store.history, s, t);
    if own {
      return true, first, second;
    }
    store.Interleave();
    n := |store.history|;
    assert store.history[..n] == store.history;
    second := Get(store.flags, s);
    assert second == FlagAt(store.history, n, s);
    if t != WILDCARD {
      var all := store.IsSetTo(s, WILDCARD);
      FlagsAreLatest(store.history, s, WILDCARD);
      cancelled := all;
    }
  }

  // The reads of checks one after the other, from the instant given on.
  predicate InTurn(starts: seq<nat>, ends: seq<nat>, begin: nat, end: nat) {
    && |starts| == |ends|
    && (forall k :: 0 <= k < |starts| ==> begin <= starts[k] <= ends[k] <= end)
    && (forall k :: 0 <= k < |starts| - 1 ==> ends[k] <= starts[k + 1])
  }

  // The check with a store that answers, and the instant of its second read.
  method CheckAt(store: FlagStore, s: Session, t: TurnId) returns (cancelled: bool, ghost n: nat)
    requires store.Valid()
    modifies store
    ensures store.Valid() && old(store.history) <= store.history
    ensures |old(store.history)| <= n <= |store.history|
    ensures cancelled <==> Check(store.history, |old(store.history)|, n, s, t)
  {
    ghost var first, second;
    cancelled, first, second := CheckCancel(store, s, t, true);
    n :| |old(store.history)| <= n <= |store.history| && second == FlagAt(store.history, n, s);
    assert store.history[..|old(store.history)|] == old(store.history);
  }

  lemma NoChecks(h: seq<Event>, s: Session, t: TurnId)
    ensures InTurn([], [], |h|, |h|) && InTurn([], [], 0, |h|) && AllDenied(h, [], [], s, t)
  {
  }

  // None of the checks found the turn cancelled.
  predicate AllDenied(h: seq<Event>, starts: seq<nat>, ends: seq<nat>, s: Session, t: TurnId)
    requires InTurn(starts, ends, 0, |h|)
  {
    forall k :: 0 <= k < |starts| ==> !Check(h, starts[k], ends[k], s, t)
  }

  lemma OneMoreCheck(starts: seq<nat>, ends: seq<nat>, begin: nat, i: nat, j: nat, end: nat)
    requires InTurn(starts, ends, begin, i) && begin <= i <= j <= end
    ensures InTurn(starts + [i], ends + [j], begin, end)
  {
  }

  lemma StillDenied(h: seq<Event>, h': seq<Event>, starts: seq<nat>, ends: seq<nat>, s: Session, t: TurnId)
    requires h <= h' && InTurn(starts, ends, 0, |h|) && AllDenied(h, starts, ends, s, t)
    ensures InTurn(starts, ends, 0, |h'|) && AllDenied(h', starts, ends, s, t)
    ensures forall begin :: InTurn(starts, ends, begin, |h|) ==> InTurn(starts, ends, begin, |h'|)
  {
    hide Check;
    forall k | 0 <= k < |starts| ensures !Check(h', starts[k], ends[k], s, t) {
      LaterHistory(h, h', starts[k], ends[k], s, t);
    }
  }

  // A check that said no saw no flag that was in place all along, unless it was narrowed.
  lemma DeniedMeans(h: seq<Event>, starts: seq<nat>, ends: seq<nat>, begin: nat, s: Session, t: TurnId)
    requires InTurn(starts, ends, begin, |h|) && AllDenied(h, starts, ends, s, t) && begin <= |h|
    ensures forall k :: 0 <= k < |starts| ==>
      !InPlace(h, starts[k], ends[k], s, t) || Narrowed(h, starts[k], ends[k], s, t)
    ensures starts != [] ==> !InPlace(h, begin, |h|, s, t) || Narrowed(h, begin, |h|, s, t)
  {
    hide Check, FlagAt, Narrows;
    forall k | 0 <= k < |starts| && InPlace(h, starts[k], ends[k], s, t)
      ensures Narrowed(h, starts[k], ends[k], s, t)
    {
      FlagStays(h, starts[k], ends[k], starts[k], ends[k], s, t);
    }
    if starts != [] && InPlace(h, begin, |h|, s, t) {
      assert InPlace(h, starts[0], ends[0], s, t);
      var k :| starts[0] <= k < ends[0] && Narrows(h, k, s, t);
      assert begin <= k < |h|;
    }
  }

  // Runs the nodes of a turn one after the other, each behind the check; a cancelled
  // turn stops. Counts the nodes whose body ran. Check k has its reads at starts[k] and
  // ends[k]: every one but the last of a cancelled turn said no, so a flag in place during
  // a check and not narrowed then stops the turn there, whenever it was set.
  method RunNodes(store: FlagStore, s: Session, t: TurnId, nodes: nat)
    returns (ran: nat, cancelled: bool, ghost starts: seq<nat>, ghost ends: seq<nat>)
    requires store.Valid()
    modifies store
    ensures store.Valid() && old(store.history) <= store.history
    ensures ran <= nodes && (!cancelled ==> ran == nodes)
    ensures InTurn(starts, ends, |old(store.history)|, |store.history|)
    ensures |starts| == if cancelled then ran + 1 else ran
    ensures forall k :: 0 <= k < |starts| ==> (Check(store.history, starts[k], ends[k], s, t) <==> k == ran)
    ensures forall k :: 0 <= k < ran ==>
      !InPlace(store.history, starts[k], ends[k], s, t) || Narrowed(store.history, starts[k], ends[k], s, t)
    ensures
      (&& nodes > 0 && InPlace(store.history, |old(store.history)|, |store.history|, s, t)
       && !Narrowed(store.history, |old(store.history)|, |store.history|, s, t))
      ==> cancelled && ran == 0
    ensures cancelled ==>
      exists k :: 0 <= k < |store.history| && (store.history[k] == Set(s, t) || store.history[k] == Set(s, WILDCARD))
  {
    hide Check, InPlace, Narrowed, Answer, InTurn;
    ran, cancelled, starts, ends := 0, false, [], [];
    ghost var begin := |store.history|;
    NoChecks(store.history, s, t);
    while ran < nodes
      invariant store.Valid() && old(store.history) <= store.history
      invariant ran <= nodes && |starts| == |ends| == ran && !cancelled
      invariant InTurn(starts, ends, begin, |store.history|) && InTurn(starts, ends, 0, |store.history|)
      invariant AllDenied(store.history, starts, ends, s, t)
      decreases nodes - ran
    {
      ghost var before := store.history;
      ghost var n;
      cancelled, n := CheckAt(store, s, t);
      ghost var h := store.history;
      StillDenied(before, h, starts, ends, s, t);
      OneMoreCheck(starts, ends, begin, |before|, n, |h|);
      OneMoreCheck(starts, ends, 0, |before|, n, |h|);
      if cancelled {
        CheckIsSound(h, |before|, n, s, t);
        DeniedMeans(h, starts, ends, begin, s, t);
        starts, ends := starts + [|before|], ends + [n];
        return;
      }
      starts, ends := starts + [|before|], ends + [n];
      store.Interleave();
      StillDenied(h, store.history, starts, ends, s, t);
      ran := ran + 1;
    }
    DeniedMeans(store.history, starts, ends, begin, s, t);
  }
}

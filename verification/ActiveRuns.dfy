// Which sessions have a pipeline at work.
module ActiveRuns {
  import opened SessionFlags

  // Turns with ids of their own: each registers once and clears only after that; keys
  // may expire, nothing else removes them.
  predicate WellBehaved(h: seq<Event>) {
    && (forall i :: 0 <= i < |h| ==> h[i].Set? || h[i].ClearIf? || h[i].Expire?)
    && (forall i, j :: 0 <= i < j < |h| ==> h[i].Set? && h[j].Set? && h[i].session == h[j].session ==>
      h[i].turn != h[j].turn)
    && (forall i :: 0 <= i < |h| && h[i].ClearIf? ==> exists k :: 0 <= k < i && h[k] == Set(h[i].session, h[i].turn))
  }

  ghost predicate Latest(h: seq<Event>, i: int, s: Session) {
    0 <= i < |h| && h[i].Set? && h[i].session == s && forall k :: i < k < |h| ==> !(h[k].Set? && h[k].session == s)
  }

  ghost predicate Cleared(h: seq<Event>, s: Session, t: TurnId) {
    exists k :: 0 <= k < |h| && h[k] == ClearIf(s, t)
  }

  ghost predicate ExpiredSince(h: seq<Event>, i: int, s: Session) {
    exists k :: i < k < |h| && k >= 0 && h[k] == Expire(s)
  }

  ghost predicate Active(h: seq<Event>, s: Session) {
    s in Flags(h)
  }

  // Under every interleaving a session is active exactly if the turn that registered
  // last has neither cleared nor expired: an older turn's clear never undoes a newer
  // registration.
  lemma ActiveIffLatestUncleared(h: seq<Event>, s: Session)
    requires WellBehaved(h)
    ensures Active(h, s) <==> exists i :: Latest(h, i, s) && !Cleared(h, s, h[i].turn) && !ExpiredSince(h, i, s)
  {
    if Active(h, s) {
      var t := Flags(h)[s];
      FlagsAreLatest(h, s, t);
      var i :| 0 <= i < |h| && h[i] == Set(s, t) && forall k :: i < k < |h| ==> !Ends(h[k], s, t);
      assert Latest(h, i, s);
      ClearsFollow(h, i);
    }
    if i :| Latest(h, i, s) && !Cleared(h, s, h[i].turn) && !ExpiredSince(h, i, s) {
      assert forall k :: i < k < |h| ==> !Ends(h[k], s, h[i].turn);
      assert Holds(h, s, h[i].turn);
      FlagsAreLatest(h, s, h[i].turn);
    }
  }

  // A turn's clear comes after its one registration.
  lemma ClearsFollow(h: seq<Event>, i: nat)
    requires WellBehaved(h) && i < |h| && h[i].Set?
    ensures forall k :: 0 <= k < i ==> h[k] != ClearIf(h[i].session, h[i].turn)
  {
    forall k | 0 <= k < i ensures h[k] != ClearIf(h[i].session, h[i].turn) {
      if h[k].ClearIf? {
        var m :| 0 <= m < k && h[m] == Set(h[k].session, h[k].turn);
      }
    }
  }

  // Expiry can only make a running turn look inactive, never a finished one active.
  lemma ActiveMeansNotCleared(h: seq<Event>, s: Session)
    requires WellBehaved(h) && Active(h, s)
    ensures Holds(h, s, Flags(h)[s]) && !Cleared(h, s, Flags(h)[s])
  {
    var t := Flags(h)[s];
    FlagsAreLatest(h, s, t);
    var i :| 0 <= i < |h| && h[i] == Set(s, t) && forall k :: i < k < |h| ==> !Ends(h[k], s, t);
    ClearsFollow(h, i);
  }

  // Deleting without comparing would be wrong: the older turn's end hides the newer one.
  lemma PlainDeleteHidesNewerTurn()
    ensures
      var h := [Set("s", "a"), Set("s", "b")];
      Active(h + [ClearIf("s", "a")], "s") && !Active(h + [Clear("s")], "s")
  {
    var h := [Set("s", "a"), Set("s", "b")];
    assert h[..1] == [Set("s", "a")] && h[..1][..0] == [];
    assert (h + [ClearIf("s", "a")])[..2] == h && (h + [Clear("s")])[..2] == h;
    assert Flags([]) == map[];
    assert Flags(h[..1]) == Apply(map[], Set("s", "a"));
    assert Flags(h) == Apply(Flags(h[..1]), Set("s", "b"));
  }
}

// A store with at most one turn id a session, written by turns that interleave in any
// way: what it holds after any history of operations.
module SessionFlags {
  import opened Options

  type Session = string
  type TurnId = string

  datatype Event =
    | Set(session: Session, turn: TurnId)
    | ClearIf(session: Session, turn: TurnId)   // compare and delete
    | Clear(session: Session)
    | Pop(session: Session)                     // return and delete
    | Expire(session: Session)                  // the time to live runs out

  function Apply(flags: map<Session, TurnId>, e: Event): map<Session, TurnId> {
    match e
    case Set(s, t) => flags[s := t]
    case ClearIf(s, t) => if s in flags && flags[s] == t then flags - {s} else flags
    case Clear(s) => flags - {s}
    case Pop(s) => flags - {s}
    case Expire(s) => flags - {s}
  }

  function Flags(h: seq<Event>): map<Session, TurnId> {
    if h == [] then map[] else Apply(Flags(h[..|h| - 1]), h[|h| - 1])
  }

  function Get(flags: map<Session, TurnId>, s: Session): Option<TurnId> {
    if s in flags then Some(flags[s]) else None
  }

  // The event takes turn t of session s out of the store.
  predicate Ends(e: Event, s: Session, t: TurnId) {
    e.session == s && (e.ClearIf? ==> e.turn == t)
  }

  // Some event set the flag, and nothing ended it since.
  ghost predicate Holds(h: seq<Event>, s: Session, t: TurnId) {
    exists i :: 0 <= i < |h| && h[i] == Set(s, t) && forall k :: i < k < |h| ==> !Ends(h[k], s, t)
  }

  // The store holds exactly what was set last and not ended since: only the turn that
  // holds the flag, or an unconditional removal, can take it out.
  lemma {:induction false} FlagsAreLatest(h: seq<Event>, s: Session, t: TurnId)
    ensures Get(Flags(h), s) == Some(t) <==> Holds(h, s, t)
  {
    if h != [] {
      var before, last := h[..|h| - 1], h[|h| - 1];
      FlagsAreLatest(before, s, t);
      HoldsNext(before, last, s, t);
      assert h == before + [last];
    }
  }

  // One more event: it set the flag, or the flag was held and it did not end it.
  lemma HoldsNext(h: seq<Event>, e: Event, s: Session, t: TurnId)
    ensures Holds(h + [e], s, t) <==> e == Set(s, t) || (Holds(h, s, t) && !Ends(e, s, t))
  {
    var all := h + [e];
    if Holds(all, s, t) {
      var i :| 0 <= i < |all| && all[i] == Set(s, t) && forall k :: i < k < |all| ==> !Ends(all[k], s, t);
      if i < |h| {
        assert h[i] == Set(s, t) && !Ends(all[|h|], s, t);
        assert forall k :: i < k < |h| ==> h[k] == all[k];
      }
    }
    if e == Set(s, t) {
      assert all[|h|] == Set(s, t);
    } else if Holds(h, s, t) && !Ends(e, s, t) {
      var i :| 0 <= i < |h| && h[i] == Set(s, t) && forall k :: i < k < |h| ==> !Ends(h[k], s, t);
      assert all[i] == Set(s, t);
    }
  }

  // ---------------------------------------------------------------------
  // Popping
  // ---------------------------------------------------------------------

  function Popped(h: seq<Event>, s: Session): seq<TurnId> {
    if h == [] then []
    else
      var before, last := h[..|h| - 1], h[|h| - 1];
      Popped(before, s) +
      (if last == Pop(s) && Get(Flags(before), s).Some? then [Get(Flags(before), s).value] else [])
  }

  function SetTurns(h: seq<Event>, s: Session): seq<TurnId> {
    if h == [] then []
    else
      var last := h[|h| - 1];
      SetTurns(h[..|h| - 1], s) + (if last.Set? && last.session == s then [last.turn] else [])
  }

  function Held(h: seq<Event>, s: Session): multiset<TurnId> {
    if Get(Flags(h), s).Some? then multiset{Get(Flags(h), s).value} else multiset{}
  }

  // However turns race, each flag set is handed out at most once.
  lemma {:induction false} PoppedAtMostOnce(h: seq<Event>, s: Session)
    ensures multiset(Popped(h, s)) + Held(h, s) <= multiset(SetTurns(h, s))
  {
    if h != [] {
      var before, last := h[..|h| - 1], h[|h| - 1];
      PoppedAtMostOnce(before, s);
      if last.session == s && !last.Set? {
        HeldAfterRemoval(before, last, s);
      } else if last.session != s {
        HeldElsewhere(before, last, s);
      }
    }
  }

  lemma HeldAfterRemoval(before: seq<Event>, e: Event, s: Session)
    requires e.session == s && !e.Set?
    ensures Held(before + [e], s) <= Held(before, s)
    ensures e == Pop(s) ==> Held(before + [e], s) == multiset{}
  {
    assert (before + [e])[..|before|] == before;
  }

  lemma HeldElsewhere(before: seq<Event>, e: Event, s: Session)
    requires e.session != s
    ensures Held(before + [e], s) == Held(before, s)
  {
    assert (before + [e])[..|before|] == before;
  }

  // ---------------------------------------------------------------------
  // The stores
  // ---------------------------------------------------------------------

  // The in-memory stores; the Redis ones do the same and may also lose a flag to its
  // time to live, which Expire models.
  class FlagStore {
    var flags: map<Session, TurnId>
    ghost var history: seq<Event>

    ghost predicate Valid()
      reads this
    {
      flags == Flags(history)
    }

    constructor ()
      ensures Valid() && history == []
    {
      flags, history := map[], [];
    }

    ghost method Note(e: Event)
      requires flags == Apply(Flags(history), e)
      modifies `history
      ensures Valid() && history == old(history) + [e]
    {
      assert (history + [e])[..|history|] == history;
      history := history + [e];
    }

    method SetTurn(s: Session, t: TurnId)
      requires Valid()
      modifies this
      ensures Valid() && history == old(history) + [Set(s, t)] && flags == old(flags)[s := t]
    {
      flags := flags[s := t];
      Note(Set(s, t));
    }

    method ClearTurn(s: Session, t: TurnId)
      requires Valid()
      modifies this
      ensures Valid() && history == old(history) + [ClearIf(s, t)]
      ensures forall u :: Holds(old(history), s, u) && u != t ==> Holds(history, s, u)
      ensures s !in flags || flags[s] != t
    {
      if s in flags && flags[s] == t {
        flags := flags - {s};
      }
      Note(ClearIf(s, t));
      forall u | Holds(old(history), s, u) && u != t ensures Holds(history, s, u) {
        FlagsAreLatest(old(history), s, u);
        FlagsAreLatest(history, s, u);
      }
    }

    method ClearAll(s: Session)
      requires Valid()
      modifies this
      ensures Valid() && history == old(history) + [Clear(s)] && flags == old(flags) - {s}
    {
      flags := flags - {s};
      Note(Clear(s));
    }

    method PopTurn(s: Session) returns (t: Option<TurnId>)
      requires Valid()
      modifies this
      ensures Valid() && history == old(history) + [Pop(s)] && flags == old(flags) - {s}
      ensures t == Get(old(flags), s)
      ensures Popped(history, s) == Popped(old(history), s) + (if t.Some? then [t.value] else [])
    {
      t := Get(flags, s);
      flags := flags - {s};
      ghost var before := history;
      Note(Pop(s));
      assert history[..|history| - 1] == before;
    }

    method IsSet(s: Session) returns (r: bool)
      requires Valid()
      ensures r <==> exists t :: Holds(history, s, t)
    {
      r := s in flags;
      if r {
        FlagsAreLatest(history, s, flags[s]);
      } else {
        forall t ensures !Holds(history, s, t) {
          FlagsAreLatest(history, s, t);
        }
      }
    }

    method IsSetTo(s: Session, t: TurnId) returns (r: bool)
      requires Valid()
      ensures r <==> Holds(history, s, t)
    {
      r := s in flags && flags[s] == t;
      FlagsAreLatest(history, s, t);
    }

    // Anything other turns and the clock may do in between.
    method Interleave()
      requires Valid()
      modifies this
      ensures Valid() && old(history) <= history
    {
      var steps: nat :| true;
      for i := 0 to steps
        invariant Valid() && old(history) <= history
      {
        var s: Session := *;
        var t: TurnId := *;
        var kind: int := *;
        if kind == 0 {
          SetTurn(s, t);
        } else if kind == 1 {
          ClearTurn(s, t);
        } else if kind == 2 {
          ClearAll(s);
        } else if kind == 3 {
          var popped := PopTurn(s);
        } else {
          flags := flags - {s};
          Note(Expire(s));
        }
      }
    }
  }
}

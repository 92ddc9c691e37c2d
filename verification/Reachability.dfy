/** Going on from a state by moves of some kind. */
module Reachability {
  ghost predicate Goes<S(!new), E(!new)>(moves: (S, E, S) -> bool, s: S, states: seq<S>, events: seq<E>) {
    && |states| == |events| + 1 && states[0] == s
    && forall i :: 0 <= i < |events| ==> moves(states[i], events[i], states[i + 1])
  }

  ghost predicate Reaches<S(!new), E(!new)>(moves: (S, E, S) -> bool, s: S, t: S) {
    exists states, events :: Goes(moves, s, states, events) && states[|events|] == t
  }

  lemma ReachesItself<S(!new), E(!new)>(moves: (S, E, S) -> bool, s: S)
    ensures Reaches(moves, s, s)
  {
    var none: seq<E> := [];
    assert Goes(moves, s, [s], none) && [s][|none|] == s;
  }

  lemma ReachesBy<S(!new), E(!new)>(moves: (S, E, S) -> bool, s: S, e: E, t: S)
    requires moves(s, e, t)
    ensures Reaches(moves, s, t)
  {
    assert Goes(moves, s, [s, t], [e]) && [s, t][|[e]|] == t;
  }

  lemma ReachesTwice<S(!new), E(!new)>(moves: (S, E, S) -> bool, s: S, t: S, u: S)
    requires Reaches(moves, s, t) && Reaches(moves, t, u)
    ensures Reaches(moves, s, u)
  {
    var states, events :| Goes(moves, s, states, events) && states[|events|] == t;
    var more, acts :| Goes(moves, t, more, acts) && more[|acts|] == u;
    var all, every := states + more[1..], events + acts;
    forall i | 0 <= i < |every| ensures moves(all[i], every[i], all[i + 1]) {
      if i < |events| {
        assert moves(states[i], events[i], states[i + 1]);
      } else {
        assert moves(more[i - |events|], acts[i - |events|], more[i - |events| + 1]);
        assert all[i] == more[i - |events|];
      }
    }
    assert Goes(moves, s, all, every) && all[|every|] == u;
  }

  /** What every move keeps holds wherever the moves lead. */
  lemma {:induction false} KeptAlong<S(!new), E(!new)>(moves: (S, E, S) -> bool, keeps: S -> bool, states: seq<S>,
                                                       events: seq<E>, n: nat)
    requires |states| == |events| + 1 && n < |states| && keeps(states[0])
    requires forall i :: 0 <= i < |events| ==> moves(states[i], events[i], states[i + 1])
    requires forall s, e, t :: keeps(s) && moves(s, e, t) ==> keeps(t)
    ensures keeps(states[n])
  {
    if n > 0 {
      KeptAlong(moves, keeps, states, events, n - 1);
      assert moves(states[n - 1], events[n - 1], states[n]);
    }
  }

  lemma KeptWhereReached<S(!new), E(!new)>(moves: (S, E, S) -> bool, keeps: S -> bool, s: S, t: S)
    requires Reaches(moves, s, t) && keeps(s)
    requires forall s, e, t :: keeps(s) && moves(s, e, t) ==> keeps(t)
    ensures keeps(t)
  {
    var states, events :| Goes(moves, s, states, events) && states[|events|] == t;
    KeptAlong(moves, keeps, states, events, |events|);
  }
}

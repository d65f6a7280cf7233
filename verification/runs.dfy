/** Runs of any transition system whose step is a function of the state and the action. */
module Runs {
  /** The state after the actions of `run`, oldest first. */
  function After<S, A>(next: (S, A) -> S, s: S, run: seq<A>): S {
    if run == [] then s else next(After(next, s, run[..|run| - 1]), run[|run| - 1])
  }

  lemma {:induction false} AfterBoth<S, A>(next: (S, A) -> S, s: S, first: seq<A>, second: seq<A>)
    ensures After(next, s, first + second) == After(next, After(next, s, first), second)
    decreases |second|
  {
    if second == [] {
      assert first + second == first;
    } else {
      var n := |second| - 1;
      AfterBoth(next, s, first, second[..n]);
      assert (first + second)[..|first + second| - 1] == first + second[..n];
    }
  }

  /** The actions of `run` lead through `states`. */
  ghost predicate Trace<S, A>(next: (S, A) -> S, run: seq<A>, states: seq<S>) {
    |states| == |run| + 1 && forall i {:trigger run[i]} :: 0 <= i < |run| ==> states[i + 1] == next(states[i], run[i])
  }

  /** `run` leads from `s` to `t`. */
  ghost predicate Leads<S(!new), A>(next: (S, A) -> S, s: S, run: seq<A>, t: S) {
    exists states :: Trace(next, run, states) && states[0] == s && states[|run|] == t
  }

  lemma TraceOn<S, A>(next: (S, A) -> S, run: seq<A>, states: seq<S>, a: A)
    requires Trace(next, run, states)
    ensures Trace(next, run + [a], states + [next(states[|run|], a)])
  {
    var more, longer := states + [next(states[|run|], a)], run + [a];
    forall i {:trigger longer[i]} | 0 <= i < |longer| ensures more[i + 1] == next(more[i], longer[i]) {
      assert i < |run| ==> longer[i] == run[i];
    }
  }

  lemma {:induction false} AfterLeads<S(!new), A>(next: (S, A) -> S, s: S, run: seq<A>)
    ensures Leads(next, s, run, After(next, s, run))
    decreases |run|
  {
    if run == [] {
      assert Trace(next, run, [s]);
    } else {
      var n := |run| - 1;
      AfterLeads(next, s, run[..n]);
      var states :| Trace(next, run[..n], states) && states[0] == s && states[n] == After(next, s, run[..n]);
      TraceOn(next, run[..n], states, run[n]);
      assert run[..n] + [run[n]] == run;
    }
  }

  lemma {:induction false} TraceAfter<S, A>(next: (S, A) -> S, run: seq<A>, states: seq<S>)
    requires Trace(next, run, states)
    ensures states[|run|] == After(next, states[0], run)
    decreases |run|
  {
    if run != [] {
      var n := |run| - 1;
      forall i {:trigger run[..n][i]} | 0 <= i < n
        ensures states[..|run|][i + 1] == next(states[..|run|][i], run[..n][i])
      {
        assert run[..n][i] == run[i];
      }
      assert Trace(next, run[..n], states[..|run|]);
      TraceAfter(next, run[..n], states[..|run|]);
      assert states[n + 1] == next(states[n], run[n]);
    }
  }

  /** Leading somewhere and computing it are the same. */
  lemma LeadsAfter<S(!new), A>(next: (S, A) -> S, s: S, run: seq<A>, t: S)
    ensures Leads(next, s, run, t) <==> t == After(next, s, run)
  {
    AfterLeads(next, s, run);
    if Leads(next, s, run, t) {
      var states :| Trace(next, run, states) && states[0] == s && states[|run|] == t;
      TraceAfter(next, run, states);
    }
  }
}

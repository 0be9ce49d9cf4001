/** Which states runs of the client lead to, and from where. */
module EngineReach {
  import opened Options
  import opened EngineClient
  import opened EngineInvariant
  import opened EngineProof

  ghost predicate ReachableFrom(start: State, s: State) {
    exists ss: seq<State>, acts: seq<Action> :: RunFrom(start, ss, acts) && ss[|acts|] == s
  }

  /** Some run of a client that knows no session id leads to `s`. */
  ghost predicate Reachable(s: State) {
    exists start: State :: IsFreshClient(start) && ReachableFrom(start, s)
  }

  lemma StaysReachable(s: State)
    ensures ReachableFrom(s, s)
  {
    assert RunFrom(s, [s], []);
  }

  lemma NextReachableFrom(start: State, s: State, a: Action)
    requires ReachableFrom(start, s) && Enabled(s, a)
    ensures ReachableFrom(start, Next(s, a))
  {
    hide Enabled, Next;
    var ss: seq<State>, acts: seq<Action> :| RunFrom(start, ss, acts) && ss[|acts|] == s;
    var ss', acts' := ss + [Next(s, a)], acts + [a];
    assert RunFrom(start, ss', acts') by {
      forall i | 0 <= i < |acts'|
        ensures Enabled(ss'[i], acts'[i]) && ss'[i + 1] == Next(ss'[i], acts'[i])
      {
        if i < |acts| {
          assert Enabled(ss[i], acts[i]) && ss[i + 1] == Next(ss[i], acts[i]);
        }
      }
      assert ss'[0] == ss[0];
    }
  }

  lemma NextReachable(s: State, a: Action)
    requires Reachable(s) && Enabled(s, a)
    ensures Reachable(Next(s, a))
  {
    hide Enabled, Next, ReachableFrom;
    var start: State :| IsFreshClient(start) && ReachableFrom(start, s);
    NextReachableFrom(start, s, a);
  }

  /** A continuation of a continuation is one. */
  lemma ReachesOn(s: State, t: State, u: State)
    requires ReachableFrom(s, t) && ReachableFrom(t, u)
    ensures ReachableFrom(s, u)
  {
    hide Enabled, Next;
    var ss: seq<State>, acts: seq<Action> :| RunFrom(t, ss, acts) && ss[|acts|] == u;
    ReachesAlong(s, t, ss, acts, |acts|);
  }

  lemma {:induction false} ReachesAlong(s: State, t: State, ss: seq<State>, acts: seq<Action>, k: nat)
    requires ReachableFrom(s, t) && RunFrom(t, ss, acts) && k < |ss|
    ensures ReachableFrom(s, ss[k])
  {
    hide Enabled, Next, ReachableFrom;
    if k > 0 {
      ReachesAlong(s, t, ss, acts, k - 1);
      assert Enabled(ss[k - 1], acts[k - 1]) && ss[k] == Next(ss[k - 1], acts[k - 1]);
      NextReachableFrom(s, ss[k - 1], acts[k - 1]);
    }
  }

  lemma ReachableKeeps(s: State)
    requires Reachable(s) && s.crash.None?
    ensures Inv(s)
  {
    hide Inv, Enabled, Next, IsFreshClient;
    var start: State :| IsFreshClient(start) && ReachableFrom(start, s);
    var ss: seq<State>, acts: seq<Action> :| RunFrom(start, ss, acts) && ss[|acts|] == s;
    assert ClientRun(ss, acts);
    RunKeeps(ss, acts, |acts|);
  }
}

/** What every run of the takeover guard guarantees. */
module TakeoverGuardTheorems {
  import opened Prelude
  import opened TakeoverGuard

  lemma {:induction false} RunKeepsInv(steps: seq<Step>, trace: seq<Guard>, n: nat)
    requires IsRun(steps, trace) && n < |trace|
    ensures Inv(trace[n])
  {
    hide Next, Enabled;
    if n == 0 {
      assert Inv(EMPTY);
    } else {
      RunKeepsInv(steps, trace, n - 1);
      assert StepsTo(trace[n - 1], steps[n - 1], trace[n]);
      StepKeepsInv(trace[n - 1], steps[n - 1]);
    }
  }

  /** At most one caller of a session is inside, and every caller of it, queued or not, shares the one mapped lock. */
  lemma OneInsidePerSession(steps: seq<Step>, trace: seq<Guard>, n: nat, a: string, b: string)
    requires IsRun(steps, trace) && n < |trace|
    requires a in trace[n].callers && b in trace[n].callers && trace[n].callers[a].session == trace[n].callers[b].session
    ensures var g := trace[n];
      && g.callers[a].entry == g.callers[b].entry
      && At(g.locks, g.callers[a].session) == Some(g.callers[a].entry)
      && (g.callers[a].phase.Inside? && g.callers[b].phase.Inside? ==> a == b)
  {
    hide Next, Enabled;
    RunKeepsInv(steps, trace, n);
    var g := trace[n];
    assert CallerOk(g.callers[a], a, g.locks, g.entries) && CallerOk(g.callers[b], b, g.locks, g.entries);
  }

  /** The map holds an entry exactly while some caller of the session holds, awaits or is leaving it: nothing piles up. */
  lemma EntryIffUsed(steps: seq<Step>, trace: seq<Guard>, n: nat, session: string)
    requires IsRun(steps, trace) && n < |trace|
    ensures session in trace[n].locks <==> exists c :: c in trace[n].callers && trace[n].callers[c].session == session
  {
    hide Next, Enabled;
    RunKeepsInv(steps, trace, n);
    var g := trace[n];
    if session in g.locks {
      var e := g.locks[session];
      assert EntryOk(g.entries[e], UsersOf(g.callers, e));
      var c :| c in UsersOf(g.callers, e);
      assert CallerOk(g.callers[c], c, g.locks, g.entries);
    }
    if c :| c in g.callers && g.callers[c].session == session { assert CallerOk(g.callers[c], c, g.locks, g.entries); }
  }

  /** A caller cancelled in the queue never leaves the lock stuck: with nobody inside, a waiting caller can be let in. */
  lemma WaiterCanEnter(steps: seq<Step>, trace: seq<Guard>, n: nat, c: string)
    requires IsRun(steps, trace) && n < |trace| && c in trace[n].callers && trace[n].callers[c].phase.Waiting?
    requires forall d :: d in trace[n].callers && trace[n].callers[d].session == trace[n].callers[c].session ==> !trace[n].callers[d].phase.Inside?
    ensures Enabled(trace[n], Grant(c))
  {
    hide Next;
    RunKeepsInv(steps, trace, n);
    var g := trace[n];
    assert CallerOk(g.callers[c], c, g.locks, g.entries);
    var e := g.callers[c].entry;
    forall d | d in UsersOf(g.callers, e) ensures g.entries[e].holder != Some(d) {
      assert CallerOk(g.callers[d], d, g.locks, g.entries);
    }
    assert EntryOk(g.entries[e], UsersOf(g.callers, e));
  }
}

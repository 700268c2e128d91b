/**
 * The manager's takeover guard: a lock per session, created on arrival, counted by its users, and dropped with
 * the last of them. Every step is the code between two awaits; callers may be cancelled while they queue.
 */
module TakeoverGuard {
  import opened Prelude

  /** A lock entry is known by the number it was allocated under: its identity, as `is` compares it. */
  datatype Entry = Entry(users: int, holder: Option<string>)

  datatype Phase = Waiting | Inside | Leaving

  datatype Caller = Caller(session: string, entry: nat, phase: Phase)

  datatype Guard = Guard(
    locks: map<string, nat>,         // the map from session to entry
    entries: map<nat, Entry>,        // every entry ever allocated
    minted: nat,                     // how many were
    callers: map<string, Caller>)

  datatype Step =
    | Arrive(c: string, session: string)   // look the entry up or mint one, and be counted
    | Grant(c: string)                     // the lock lets a waiting caller in
    | Release(c: string)                   // the caller leaves the guarded block
    | Cancel(c: string)                    // ... or is cancelled while it waits
    | Depart(c: string)                    // be counted out; the last one drops the entry

  const EMPTY := Guard(map[], map[], 0, map[])

  predicate Enabled(g: Guard, step: Step) {
    match step
    case Arrive(c, _) => c !in g.callers
    case Grant(c) => c in g.callers && g.callers[c].phase.Waiting? && g.callers[c].entry in g.entries
                     && g.entries[g.callers[c].entry].holder.None?
    case Release(c) => c in g.callers && g.callers[c].phase.Inside? && g.callers[c].entry in g.entries
    case Cancel(c) => c in g.callers && g.callers[c].phase.Waiting?
    case Depart(c) => c in g.callers && g.callers[c].phase.Leaving? && g.callers[c].entry in g.entries
  }

  function Next(g: Guard, step: Step): Guard
    requires Enabled(g, step)
  {
    match step
    case Arrive(c, session) =>
      var e := if session in g.locks then g.locks[session] else g.minted;
      var entry := if session in g.locks && e in g.entries then g.entries[e] else Entry(0, None);
      Guard(g.locks[session := e], g.entries[e := entry.(users := entry.users + 1)],
            if session in g.locks then g.minted else g.minted + 1, g.callers[c := Caller(session, e, Waiting)])
    case Grant(c) =>
      var e := g.callers[c].entry;
      g.(entries := g.entries[e := g.entries[e].(holder := Some(c))], callers := g.callers[c := g.callers[c].(phase := Inside)])
    case Release(c) =>
      var e := g.callers[c].entry;
      g.(entries := g.entries[e := g.entries[e].(holder := None)], callers := g.callers[c := g.callers[c].(phase := Leaving)])
    case Cancel(c) => g.(callers := g.callers[c := g.callers[c].(phase := Leaving)])
    case Depart(c) => CountedOut(g, g.callers[c].session, g.callers[c].entry).(callers := g.callers - {c})
  }

  /** Dropped only by its own last user, and only if the map still names this very entry. */
  function CountedOut(g: Guard, session: string, e: nat): Guard
    requires e in g.entries
  {
    var users := g.entries[e].users - 1;
    g.(entries := g.entries[e := g.entries[e].(users := users)],
       locks := if users == 0 && At(g.locks, session) == Some(e) then g.locks - {session} else g.locks)
  }

  ghost predicate StepsTo(g: Guard, step: Step, h: Guard) {
    Enabled(g, step) && h == Next(g, step)
  }

  ghost predicate IsRun(steps: seq<Step>, trace: seq<Guard>) {
    && |trace| == |steps| + 1 && trace[0] == EMPTY
    && forall i :: 0 <= i < |steps| ==> StepsTo(trace[i], steps[i], trace[i + 1])
  }

  // ----- the invariant -----

  function UsersOf(callers: map<string, Caller>, e: nat): set<string> {
    set c | c in callers && callers[c].entry == e
  }

  predicate CallerOk(caller: Caller, c: string, locks: map<string, nat>, entries: map<nat, Entry>) {
    && At(locks, caller.session) == Some(caller.entry)
    && caller.entry in entries
    && (caller.phase.Inside? <==> entries[caller.entry].holder == Some(c))
  }

  predicate EntryOk(entry: Entry, users: set<string>) {
    entry.users == |users| && (entry.holder.Some? ==> entry.holder.value in users)
  }

  ghost predicate CallersOk(g: Guard) {
    forall c :: c in g.callers ==> CallerOk(g.callers[c], c, g.locks, g.entries)
  }

  ghost predicate EntriesOk(g: Guard) {
    forall e :: e in g.entries ==> EntryOk(g.entries[e], UsersOf(g.callers, e)) && e < g.minted
  }

  ghost predicate LocksOk(g: Guard) {
    && (forall s :: s in g.locks ==> g.locks[s] in g.entries && g.entries[g.locks[s]].users > 0)
    && (forall s, t :: s in g.locks && t in g.locks && g.locks[s] == g.locks[t] ==> s == t)
  }

  ghost predicate Inv(g: Guard) {
    CallersOk(g) && EntriesOk(g) && LocksOk(g)
  }

  lemma ArriveKeepsInv(g: Guard, c: string, session: string)
    requires Inv(g) && c !in g.callers
    ensures Inv(Next(g, Arrive(c, session)))
  {
    ArriveCallers(g, c, session);
    ArriveEntries(g, c, session);
    ArriveLocks(g, c, session);
  }

  lemma ArriveLocks(g: Guard, c: string, session: string)
    requires EntriesOk(g) && LocksOk(g) && c !in g.callers
    ensures LocksOk(Next(g, Arrive(c, session)))
  {
    hide EntryOk, UsersOf;
  }

  lemma ArriveEntries(g: Guard, c: string, session: string)
    requires Inv(g) && c !in g.callers
    ensures EntriesOk(Next(g, Arrive(c, session)))
  {
    hide LocksOk;
    var g' := Next(g, Arrive(c, session));
    var e := g'.locks[session];
    NewcomerUsers(g, c, session, e);
    MappedEntry(g, session);
    hide CallersOk, UsersOf;
    forall f | f in g'.entries ensures EntryOk(g'.entries[f], UsersOf(g'.callers, f)) && f < g'.minted {
      if f in g.entries { assert EntryOk(g.entries[f], UsersOf(g.callers, f)); }
    }
  }

  /** The newcomer joins its entry's users, of which a fresh entry has none; other entries' users stay. */
  lemma NewcomerUsers(g: Guard, c: string, session: string, e: nat)
    requires CallersOk(g) && c !in g.callers && (session !in g.locks ==> e !in g.entries)
    ensures var callers := g.callers[c := Caller(session, e, Waiting)];
      && UsersOf(callers, e) == UsersOf(g.callers, e) + {c} && c !in UsersOf(g.callers, e)
      && (session !in g.locks ==> UsersOf(g.callers, e) == {})
      && forall f: nat :: f != e ==> UsersOf(callers, f) == UsersOf(g.callers, f)
  {
    var callers := g.callers[c := Caller(session, e, Waiting)];
    forall d | d in g.callers ensures g.callers[d].entry in g.entries {
      assert CallerOk(g.callers[d], d, g.locks, g.entries);
    }
    forall f: nat | f != e ensures UsersOf(callers, f) == UsersOf(g.callers, f) {
    }
    assert UsersOf(callers, e) == UsersOf(g.callers, e) + {c};
  }

  lemma ArriveCallers(g: Guard, c: string, session: string)
    requires Inv(g) && c !in g.callers
    ensures CallersOk(Next(g, Arrive(c, session)))
  {
    var g' := Next(g, Arrive(c, session));
    var e := g'.locks[session];
    if session in g.locks { assert EntryOk(g.entries[e], UsersOf(g.callers, e)); }
    hide EntryOk, EntriesOk;
    forall d | d in g'.callers ensures CallerOk(g'.callers[d], d, g'.locks, g'.entries) {
      if d != c { assert CallerOk(g.callers[d], d, g.locks, g.entries); }
    }
  }

  lemma MappedEntry(g: Guard, session: string)
    requires LocksOk(g)
    ensures session in g.locks ==> g.locks[session] in g.entries
  {
  }

  lemma EntryOf(g: Guard, e: nat)
    requires EntriesOk(g) && e in g.entries
    ensures EntryOk(g.entries[e], UsersOf(g.callers, e))
  {
  }

  lemma SameUsers(callers: map<string, Caller>, c: string, phase: Phase, e: nat)
    requires c in callers
    ensures UsersOf(callers[c := callers[c].(phase := phase)], e) == UsersOf(callers, e)
  {
  }

  /** In: a free lock is taken. Out: its holder gives it up, and a cancelled waiter leaves it alone. */
  predicate Moves(before: Phase, after: Phase, held: Option<string>, holder: Option<string>, c: string) {
    match after
    case Inside => held.None? && holder == Some(c)
    case Leaving => holder == if before.Inside? then None else held
    case Waiting => false
  }

  /** Letting a caller in or out moves only its phase and its lock's holder. */
  lemma PhaseKeepsInv(g: Guard, c: string, phase: Phase, holder: Option<string>)
    requires Inv(g) && c in g.callers
    requires CallerOk(g.callers[c], c, g.locks, g.entries) && Moves(g.callers[c].phase, phase, g.entries[g.callers[c].entry].holder, holder, c)
    ensures var e := g.callers[c].entry;
      Inv(g.(entries := g.entries[e := g.entries[e].(holder := holder)], callers := g.callers[c := g.callers[c].(phase := phase)]))
  {
    var e := g.callers[c].entry;
    var g' := g.(entries := g.entries[e := g.entries[e].(holder := holder)], callers := g.callers[c := g.callers[c].(phase := phase)]);
    forall f | f in g'.entries ensures EntryOk(g'.entries[f], UsersOf(g'.callers, f)) {
      assert EntryOk(g.entries[f], UsersOf(g.callers, f));
      SameUsers(g.callers, c, phase, f);
    }
    hide EntryOk;
    forall d | d in g'.callers ensures CallerOk(g'.callers[d], d, g'.locks, g'.entries) {
      assert CallerOk(g.callers[d], d, g.locks, g.entries);
    }
  }

  lemma DepartKeepsInv(g: Guard, c: string)
    requires Inv(g) && Enabled(g, Depart(c))
    ensures Inv(Next(g, Depart(c)))
  {
    assert CallerOk(g.callers[c], c, g.locks, g.entries);
    DepartEntries(g, c);
    DepartCallers(g, c);
    assert LocksOk(Next(g, Depart(c))) by {
      hide CallersOk, EntriesOk;
      EntryOf(g, g.callers[c].entry);
      assert c in UsersOf(g.callers, g.callers[c].entry);
    }
  }

  lemma DepartCallers(g: Guard, c: string)
    requires Inv(g) && Enabled(g, Depart(c))
    ensures CallersOk(Next(g, Depart(c)))
  {
    var g' := Next(g, Depart(c));
    var e := g.callers[c].entry;
    assert EntryOk(g.entries[e], UsersOf(g.callers, e));
    assert UsersOf(g'.callers, e) == UsersOf(g.callers, e) - {c} && c in UsersOf(g.callers, e);
    assert g'.entries[e].users == |UsersOf(g'.callers, e)|;
    hide EntriesOk, EntryOk, LocksOk;
    forall d | d in g'.callers ensures CallerOk(g'.callers[d], d, g'.locks, g'.entries) {
      assert CallerOk(g.callers[d], d, g.locks, g.entries);
      if g.callers[d].entry == e { assert d in UsersOf(g'.callers, e); }
    }
  }

  lemma DepartEntries(g: Guard, c: string)
    requires Inv(g) && Enabled(g, Depart(c))
    ensures EntriesOk(Next(g, Depart(c)))
  {
    hide LocksOk;
    var g' := Next(g, Depart(c));
    var e := g.callers[c].entry;
    assert CallerOk(g.callers[c], c, g.locks, g.entries);
    forall f | f in g'.entries ensures EntryOk(g'.entries[f], UsersOf(g'.callers, f)) {
      assert EntryOk(g.entries[f], UsersOf(g.callers, f));
      if f == e {
        assert UsersOf(g'.callers, e) == UsersOf(g.callers, e) - {c} && c in UsersOf(g.callers, e);
      } else {
        assert UsersOf(g'.callers, f) == UsersOf(g.callers, f);
      }
    }
  }

  lemma StepKeepsInv(g: Guard, step: Step)
    requires Inv(g) && Enabled(g, step)
    ensures Inv(Next(g, step))
  {
    if step.Arrive? {
      ArriveKeepsInv(g, step.c, step.session);
    } else if step.Depart? {
      DepartKeepsInv(g, step.c);
    } else {
      hide EntriesOk, LocksOk;
      var c := step.c;
      var e := g.callers[c].entry;
      assert CallerOk(g.callers[c], c, g.locks, g.entries);
      if step.Grant? {
        PhaseKeepsInv(g, c, Inside, Some(c));
      } else if step.Release? {
        PhaseKeepsInv(g, c, Leaving, None);
      } else {
        PhaseKeepsInv(g, c, Leaving, g.entries[e].holder);
        assert g.entries[e := g.entries[e].(holder := g.entries[e].holder)] == g.entries;
      }
    }
  }

  /** The guard's own bookkeeping in its in-place form, around the lock. */
  class SessionOrchestrationManager {
    var locks: map<string, nat>
    var entries: map<nat, Entry>
    var minted: nat

    constructor ()
      ensures Value(map[]) == EMPTY
    {
      locks, entries, minted := map[], map[], 0;
    }

    ghost function Value(callers: map<string, Caller>): Guard
      reads this
    {
      Guard(locks, entries, minted, callers)
    }

    /** Counted before the lock is awaited, so a queued caller keeps the entry mapped. */
    method Enter(c: string, session: string, ghost callers: map<string, Caller>) returns (e: nat)
      requires Inv(Value(callers)) && c !in callers
      modifies this
      ensures Value(callers[c := Caller(session, e, Waiting)]) == Next(old(Value(callers)), Arrive(c, session))
    {
      if session in locks {
        e := locks[session];
      } else {
        e, minted := minted, minted + 1;
        entries := entries[e := Entry(0, None)];
        locks := locks[session := e];
      }
      entries := entries[e := entries[e].(users := entries[e].users + 1)];
    }

    /** Whether the block ended or the wait was cancelled. */
    method Leave(c: string, session: string, e: nat, ghost callers: map<string, Caller>)
      requires Inv(Value(callers)) && c in callers && callers[c] == Caller(session, e, Leaving)
      modifies this
      ensures Value(callers - {c}) == Next(old(Value(callers)), Depart(c))
    {
      hide EntriesOk, LocksOk, UsersOf;
      assert CallerOk(callers[c], c, locks, entries);
      entries := entries[e := entries[e].(users := entries[e].users - 1)];
      if entries[e].users == 0 && session in locks && locks[session] == e {
        locks := locks - {session};
      }
    }
  }
}

/** Lazy activation: each capability is built at most once, after what it requires, with a bounded retry budget. */
module Activation {
  import opened Prelude
  import opened DataPoints
  import opened LiteGraph
  import opened Availability

  /** `nextAttempt` is absent once the failure is terminal. */
  datatype Failure = Failure(attempts: nat, nextAttempt: Option<int>)

  /** What happens at one activation attempt: whether it succeeds, and when a failed one may be tried again. */
  datatype Attempt = Attempt(succeeds: bool, retryAt: int)

  /** What happened to one capability over all refreshes so far. */
  datatype Tally = Tally(succeeded: nat, failed: nat, reported: nat)

  const NEVER := Tally(0, 0, 0)

  /** At most one success, at most the budget of failures, one report exactly when they are exhausted. */
  predicate Within(t: Tally, active: bool, failure: Option<Failure>, maxAttempts: nat) {
    && t.succeeded == (if active then 1 else 0)
    && t.failed <= maxAttempts
    && (active ==> failure.None? && t.reported == 0)
    && (failure.None? && !active ==> t == NEVER)
    && (failure.Some? ==> t.failed == failure.value.attempts >= 1)
    && (failure.Some? && failure.value.nextAttempt.Some? ==> t.failed < maxAttempts && t.reported == 0)
    && (failure.Some? && failure.value.nextAttempt.None? ==> t.failed == maxAttempts && t.reported == 1)
  }

  /** An attempt with no outcome of its own fails at once. */
  function OutcomeOf(outcomes: map<string, Attempt>, id: string, now: int): Attempt {
    if id in outcomes then outcomes[id] else Attempt(false, now)
  }

  /** What one attempt leaves: an instance for good, or one more failure, terminal at the budget, else cooling off. */
  predicate Tried(before: Option<Failure>, after: Option<Failure>, active: bool, attempt: Attempt, maxAttempts: nat) {
    if attempt.succeeds then active && after.None?
    else
      var failed := if before.Some? then before.value.attempts + 1 else 1;
      !active && after == Some(Failure(failed, if failed >= maxAttempts then None else Some(attempt.retryAt)))
  }

  /** Where a refresh stands: of the ones to do, those no longer pending were tried, after their providers; nothing else moved. */
  ghost predicate Progress(registered: Registry, maxAttempts: nat, outcomes: map<string, Attempt>, now: int, todo: set<string>, pending: seq<string>,
                           activated: set<string>, failures: map<string, Failure>, activated': set<string>, failures': map<string, Failure>) {
    forall id ::
      if id in todo && id !in pending then
        && Tried(At(failures, id), At(failures', id), id in activated', OutcomeOf(outcomes, id, now), maxAttempts)
        && id in registered && RequiresAvailable(registered[id].requires_, activated', registered)
      else (id in activated' <==> id in activated) && At(failures', id) == At(failures, id)
  }

  /**
   * What a refresh leaves of one capability. It was tried if it is available, was not built, is neither terminal nor still
   * cooling off, and a provider of everything it requires is built by the end; if not, nothing about it changed.
   */
  ghost predicate Refreshed(registered: Registry, maxAttempts: nat, available: set<string>, attempt: Attempt, now: int, id: string,
                            activated: set<string>, failures: map<string, Failure>, activated': set<string>, failures': map<string, Failure>) {
    if && id in available && id in registered && id !in activated
       && (id in failures ==> failures[id].nextAttempt.Some? && failures[id].nextAttempt.value <= now)
       && (forall r :: r in registered[id].requires_ ==>
             exists p :: p in activated' && p in registered && r.name in registered[p].self.mro)
    then Tried(At(failures, id), At(failures', id), id in activated', attempt, maxAttempts)
    else (id in activated' <==> id in activated) && At(failures', id) == At(failures, id)
  }

  function SetOf(ids: seq<string>): set<string> {
    set id | id in ids
  }

  function TallyIn(tallies: map<string, Tally>, id: string): Tally {
    if id in tallies then tallies[id] else NEVER
  }

  function Occurrences(xs: seq<string>, x: string): nat {
    if xs == [] then 0 else Occurrences(xs[..|xs| - 1], x) + if xs[|xs| - 1] == x then 1 else 0
  }

  /** Each capability was activated once, and only after a provider for everything it requires. */
  ghost predicate Layered(registered: Registry, history: seq<string>) {
    forall i :: 0 <= i < |history| ==> LayeredAt(registered, history, i)
  }

  ghost predicate LayeredAt(registered: Registry, history: seq<string>, i: nat)
    requires i < |history|
  {
    && history[i] in registered && history[i] !in history[..i]
    && RequiresAvailable(registered[history[i]].requires_, SetOf(history[..i]), registered)
  }

  ghost predicate Accounted(tallies: map<string, Tally>, activated: set<string>, failures: map<string, Failure>,
                            reports: seq<string>, maxAttempts: nat) {
    forall id ::
      && Within(TallyIn(tallies, id), id in activated, At(failures, id), maxAttempts)
      && Occurrences(reports, id) == TallyIn(tallies, id).reported
  }

  class CapabilityActivator {
    const registered: Registry
    const order: seq<string>             // the registry's iteration order
    const maxAttempts: nat
    var activated: set<string>
    var failures: map<string, Failure>
    var reports: seq<string>             // capabilities whose terminal failure was reported
    ghost var history: seq<string>       // activations, in order
    ghost var tallies: map<string, Tally>

    ghost predicate Valid()
      reads this
    {
      && maxAttempts >= 1
      && (forall id :: id in order <==> id in registered)
      && activated == SetOf(history) && activated <= registered.Keys
      && Layered(registered, history)
      && Accounted(tallies, activated, failures, reports, maxAttempts)
    }

    constructor (registered: Registry, order: seq<string>, maxAttempts: nat)
      requires maxAttempts >= 1 && forall id :: id in order <==> id in registered
      ensures Valid() && this.registered == registered && activated == {} && failures == map[]
    {
      this.registered, this.order, this.maxAttempts := registered, order, maxAttempts;
      activated, failures, reports, history, tallies := {}, map[], [], [], map[];
    }

    predicate MayAttempt(id: string, now: int)
      reads this
    {
      id in failures ==> failures[id].nextAttempt.Some? && now >= failures[id].nextAttempt.value
    }

    /** One more failure; the last one of the budget is terminal and reported. */
    method RecordFailure(id: string, retryAt: int)
      requires Valid() && id !in activated && (id in failures ==> failures[id].nextAttempt.Some?)
      modifies this`failures, this`reports, this`tallies
      ensures Valid()
      ensures Tried(At(old(failures), id), At(failures, id), id in activated, Attempt(false, retryAt), maxAttempts)
      ensures forall x :: x != id ==> At(failures, x) == At(old(failures), x)
    {
      hide Within, Layered, Accounted;
      var attempts := if id in failures then failures[id].attempts + 1 else 1;
      FailureAccounted(tallies, activated, failures, reports, maxAttempts, id, attempts, retryAt);
      ghost var t := TallyIn(tallies, id);
      if attempts >= maxAttempts {
        failures := failures[id := Failure(attempts, None)];
        reports := reports + [id];
        tallies := tallies[id := Tally(0, t.failed + 1, 1)];
      } else {
        failures := failures[id := Failure(attempts, Some(retryAt))];
        tallies := tallies[id := Tally(0, t.failed + 1, 0)];
      }
    }

    /** One attempt: success caches the instance for good, failure starts or lengthens the cool-off. */
    method Activate(id: string, attempt: Attempt)
      requires Valid() && id in registered && id !in activated && (id in failures ==> failures[id].nextAttempt.Some?)
      requires RequiresAvailable(registered[id].requires_, activated, registered)
      modifies this`activated, this`failures, this`reports, this`history, this`tallies
      ensures Valid()
      ensures activated == old(activated) + (if attempt.succeeds then {id} else {})
      ensures Tried(At(old(failures), id), At(failures, id), id in activated, attempt, maxAttempts)
      ensures forall x :: x != id ==> At(failures, x) == At(old(failures), x)
    {
      hide Within, Layered, Accounted, RequiresAvailable;
      if !attempt.succeeds {
        RecordFailure(id, attempt.retryAt);
        return;
      }
      SuccessAccounted(tallies, activated, failures, reports, maxAttempts, id);
      LayeredNext(registered, history, id);
      ghost var t := TallyIn(tallies, id);
      failures := failures - {id};
      activated := activated + {id};
      history := history + [id];
      tallies := tallies[id := t.(succeeded := 1)];
    }

    /** The capabilities worth attempting now: available, not yet built, not cooling off, not given up on. */
    method PendingOf(available: set<string>, now: int) returns (pending: seq<string>)
      requires Valid()
      ensures forall id :: id in pending <==> id in order && id in available && id !in activated && MayAttempt(id, now)
      ensures Unique(pending)
    {
      pending := [];
      for i := 0 to |order|
        invariant forall id :: id in pending <==> id in order[..i] && id in available && id !in activated && MayAttempt(id, now)
        invariant Unique(pending)
      {
        var id := order[i];
        if id in available && id !in activated && MayAttempt(id, now) && id !in pending {
          pending := pending + [id];
        }
      }
      assert order[..|order|] == order;
    }

    method ReadyOf(pending: seq<string>) returns (ready: seq<string>)
      requires Valid() && Unique(pending) && forall id :: id in pending ==> id in registered
      ensures forall id :: id in ready <==> id in pending && RequiresAvailable(registered[id].requires_, activated, registered)
      ensures Unique(ready)
    {
      ready := [];
      for i := 0 to |pending|
        invariant forall id :: id in ready <==> id in pending[..i] && RequiresAvailable(registered[id].requires_, activated, registered)
        invariant Unique(ready)
      {
        assert pending[i] in pending;
        if RequiresAvailable(registered[pending[i]].requires_, activated, registered) {
          assert pending[i] !in pending[..i];
          ready := ready + [pending[i]];
        }
      }
      assert pending[..|pending|] == pending;
    }

    /**
     * Recompute availability, attempt what is newly available base before layer, expose what is both available
     * and built. If nothing available has failed or is cooling off, that is everything available.
     */
    method Refresh(permitted: set<string>, present: set<Class>, now: int, outcomes: map<string, Attempt>)
      returns (exposed: set<string>)
      requires Valid()
      modifies this`activated, this`failures, this`reports, this`history, this`tallies
      ensures Valid() && old(activated) <= activated
      ensures forall a :: IsLeast(registered, permitted, present, a) ==>
        && exposed == a * activated && (a !! failures.Keys ==> exposed == a)
        && forall id :: Refreshed(registered, maxAttempts, a, OutcomeOf(outcomes, id, now), now, id,
                                  old(activated), old(failures), activated, failures)
    {
      hide Layered, Accounted;
      var available := ComputeAvailable(registered, order, permitted, present);
      var pending := PendingOf(available, now);
      var stuck := false;
      ghost var todo := SetOf(pending);
      while pending != [] && !stuck
        invariant Progress(registered, maxAttempts, outcomes, now, todo, pending, old(activated), old(failures), activated, failures)
        invariant Valid() && Unique(pending) && old(activated) <= activated
        invariant forall id :: id in pending ==> id in available && id !in activated && MayAttempt(id, now)
        invariant forall id :: id in available ==> id in activated || id in failures || id in pending
        invariant stuck ==> forall id :: id in pending ==> !RequiresAvailable(registered[id].requires_, activated, registered)
        decreases |pending|, !stuck
      {
        var ready := ReadyOf(pending);
        if ready == [] {
          stuck := true;
        } else {
          pending := ActivateReady(ready, pending, available, now, outcomes, todo, old(activated), old(failures));
        }
      }
      exposed := available * activated;
      AllExposed(registered, permitted, present, available, activated, failures.Keys, pending);
      forall id
        ensures Refreshed(registered, maxAttempts, available, OutcomeOf(outcomes, id, now), now, id,
                          old(activated), old(failures), activated, failures)
      {
        ProgressTells(registered, maxAttempts, outcomes, now, todo, pending, available, old(activated), old(failures), activated, failures, id);
      }
    }

    /** One layer: every ready capability is attempted once and leaves the pending list. */
    method ActivateReady(ready: seq<string>, pending: seq<string>, ghost available: set<string>, now: int, outcomes: map<string, Attempt>,
                         ghost todo: set<string>, ghost activated0: set<string>, ghost failures0: map<string, Failure>)
      returns (rest: seq<string>)
      requires Progress(registered, maxAttempts, outcomes, now, todo, pending, activated0, failures0, activated, failures)
      requires forall id :: id in pending ==> id in todo
      requires Valid() && Unique(pending) && Unique(ready) && ready != [] && available <= registered.Keys
      requires forall id :: id in pending ==> id in available && id !in activated && MayAttempt(id, now)
      requires forall id :: id in ready ==> id in pending && RequiresAvailable(registered[id].requires_, activated, registered)
      requires forall id :: id in available ==> id in activated || id in failures || id in pending
      modifies this`activated, this`failures, this`reports, this`history, this`tallies
      ensures Valid() && Unique(rest) && old(activated) <= activated && |rest| < |pending|
      ensures forall id :: id in rest ==> id in available && id !in activated && MayAttempt(id, now)
      ensures forall id :: id in available ==> id in activated || id in failures || id in rest
      ensures Progress(registered, maxAttempts, outcomes, now, todo, rest, activated0, failures0, activated, failures)
      ensures forall id :: id in rest ==> id in pending
    {
      hide Layered, Accounted, Progress, RequiresAvailable;
      rest := pending;
      for i := 0 to |ready|
        invariant Valid() && Unique(rest) && old(activated) <= activated && |rest| + i == |pending|
        invariant forall j :: i <= j < |ready| ==> ready[j] in rest
        invariant forall id :: id in rest ==> id in available && id !in activated && MayAttempt(id, now)
        invariant forall id :: id in available ==> id in activated || id in failures || id in rest
        invariant Progress(registered, maxAttempts, outcomes, now, todo, rest, activated0, failures0, activated, failures)
        invariant forall id :: id in rest ==> id in pending
      {
        var id := ready[i];
        assert id in ready;
        RequiresGrow(registered[id].requires_, old(activated), activated, registered);
        RemoveMembers(rest, id);
        ghost var pending', activated', failures' := rest, activated, failures;
        rest := Remove(rest, id);
        Activate(id, OutcomeOf(outcomes, id, now));
        ProgressNext(registered, maxAttempts, outcomes, now, todo, pending', rest, activated0, failures0,
                     activated', failures', activated, failures, id);
        assert forall x :: x != id ==> (x in failures <==> At(failures, x).Some?) && (x in failures' <==> At(failures', x).Some?);
      }
    }
  }

  lemma ProgressNext(registered: Registry, maxAttempts: nat, outcomes: map<string, Attempt>, now: int, todo: set<string>,
                     pending: seq<string>, rest: seq<string>, activated0: set<string>, failures0: map<string, Failure>,
                     activated: set<string>, failures: map<string, Failure>, activated': set<string>, failures': map<string, Failure>, id: string)
    requires Progress(registered, maxAttempts, outcomes, now, todo, pending, activated0, failures0, activated, failures)
    requires id in todo && id in pending && id in registered && (forall x :: x in rest <==> x in pending && x != id)
    requires RequiresAvailable(registered[id].requires_, activated, registered)
    requires Tried(At(failures, id), At(failures', id), id in activated', OutcomeOf(outcomes, id, now), maxAttempts)
    requires activated <= activated' <= activated + {id} && forall x :: x != id ==> At(failures', x) == At(failures, x)
    ensures Progress(registered, maxAttempts, outcomes, now, todo, rest, activated0, failures0, activated', failures')
  {
    hide Tried, OutcomeOf, RequiresAvailable;
    forall x | x in registered && RequiresAvailable(registered[x].requires_, activated, registered)
      ensures RequiresAvailable(registered[x].requires_, activated', registered)
    {
      RequiresGrow(registered[x].requires_, activated, activated', registered);
    }
  }

  lemma ProgressTells(registered: Registry, maxAttempts: nat, outcomes: map<string, Attempt>, now: int, todo: set<string>, pending: seq<string>,
                      available: set<string>, activated: set<string>, failures: map<string, Failure>,
                      activated': set<string>, failures': map<string, Failure>, id: string)
    requires Progress(registered, maxAttempts, outcomes, now, todo, pending, activated, failures, activated', failures')
    requires (id in todo) == (id in available && id in registered && id !in activated
      && (id in failures ==> failures[id].nextAttempt.Some? && failures[id].nextAttempt.value <= now))
    requires id in pending ==> id in registered && !RequiresAvailable(registered[id].requires_, activated', registered)
    ensures Refreshed(registered, maxAttempts, available, OutcomeOf(outcomes, id, now), now, id, activated, failures, activated', failures')
  {
    hide Tried;
    if id in registered { ProvidersByName(registered[id].requires_, activated', registered); }
  }

  lemma FailureAccounted(tallies: map<string, Tally>, activated: set<string>, failures: map<string, Failure>,
                         reports: seq<string>, maxAttempts: nat, id: string, attempts: nat, retryAt: int)
    requires Accounted(tallies, activated, failures, reports, maxAttempts) && maxAttempts >= 1
    requires id !in activated && (id in failures ==> failures[id].nextAttempt.Some?)
    requires attempts == if id in failures then failures[id].attempts + 1 else 1
    ensures var t := TallyIn(tallies, id);
      if attempts >= maxAttempts then
        Accounted(tallies[id := Tally(0, t.failed + 1, 1)], activated, failures[id := Failure(attempts, None)], reports + [id], maxAttempts)
      else
        Accounted(tallies[id := Tally(0, t.failed + 1, 0)], activated, failures[id := Failure(attempts, Some(retryAt))], reports, maxAttempts)
  {
    hide Within, Occurrences;
    var t := TallyIn(tallies, id);
    assert Within(t, false, At(failures, id), maxAttempts) && Occurrences(reports, id) == t.reported;
    FailureWithin(t, At(failures, id), maxAttempts, attempts, retryAt);
    forall x ensures Occurrences(reports + [id], x) == Occurrences(reports, x) + if id == x then 1 else 0 {
      OccurrencesAppend(reports, id, x);
    }
    forall x | x != id ensures Within(TallyIn(tallies, x), x in activated, At(failures, x), maxAttempts)
                               && Occurrences(reports, x) == TallyIn(tallies, x).reported {
    }
  }

  lemma FailureWithin(t: Tally, failure: Option<Failure>, maxAttempts: nat, attempts: nat, retryAt: int)
    requires Within(t, false, failure, maxAttempts) && (failure.Some? ==> failure.value.nextAttempt.Some?) && maxAttempts >= 1
    requires attempts == if failure.Some? then failure.value.attempts + 1 else 1
    ensures t.reported == 0
    ensures if attempts >= maxAttempts then Within(Tally(0, t.failed + 1, 1), false, Some(Failure(attempts, None)), maxAttempts)
            else Within(Tally(0, t.failed + 1, 0), false, Some(Failure(attempts, Some(retryAt))), maxAttempts)
  {
  }

  lemma SuccessAccounted(tallies: map<string, Tally>, activated: set<string>, failures: map<string, Failure>,
                         reports: seq<string>, maxAttempts: nat, id: string)
    requires Accounted(tallies, activated, failures, reports, maxAttempts)
    requires id !in activated && (id in failures ==> failures[id].nextAttempt.Some?)
    ensures Accounted(tallies[id := TallyIn(tallies, id).(succeeded := 1)], activated + {id}, failures - {id}, reports, maxAttempts)
  {
    hide Occurrences;
    assert Within(TallyIn(tallies, id), false, At(failures, id), maxAttempts);
    forall x | x != id ensures Within(TallyIn(tallies, x), x in activated, At(failures, x), maxAttempts)
                               && Occurrences(reports, x) == TallyIn(tallies, x).reported {
    }
  }

  lemma LayeredNext(registered: Registry, history: seq<string>, id: string)
    requires Layered(registered, history) && id in registered && id !in SetOf(history)
    requires RequiresAvailable(registered[id].requires_, SetOf(history), registered)
    ensures Layered(registered, history + [id]) && SetOf(history + [id]) == SetOf(history) + {id}
  {
    hide RequiresAvailable;
    var more := history + [id];
    assert more[..|history|] == history;
    forall i | 0 <= i < |history| ensures LayeredAt(registered, more, i) {
      assert LayeredAt(registered, history, i) && more[..i] == history[..i];
    }
  }

  predicate Unique(ids: seq<string>) {
    forall i, j :: 0 <= i < j < |ids| ==> ids[i] != ids[j]
  }

  /** Python's `list.remove`. */
  function Remove(ids: seq<string>, id: string): seq<string> {
    if ids == [] then []
    else if ids[0] == id then ids[1..]
    else [ids[0]] + Remove(ids[1..], id)
  }

  lemma {:induction false} RemoveMembers(ids: seq<string>, id: string)
    requires Unique(ids) && id in ids
    ensures Unique(Remove(ids, id)) && |Remove(ids, id)| == |ids| - 1
    ensures forall x :: x in Remove(ids, id) <==> x in ids && x != id
  {
    assert ids == [ids[0]] + ids[1..];
    if ids[0] != id {
      RemoveMembers(ids[1..], id);
      var rest := Remove(ids[1..], id);
      assert ids[0] !in ids[1..];
      assert Remove(ids, id) == [ids[0]] + rest;
    }
  }

  lemma RequiresGrow(requires_: set<Class>, a: set<string>, b: set<string>, registered: Registry)
    requires a <= b && RequiresAvailable(requires_, a, registered)
    ensures RequiresAvailable(requires_, b, registered)
  {
    forall r | r in requires_ ensures Provided(r, b, registered) { assert Provided(r, a, registered); }
  }

  /** Nothing available is left pending when the layers run dry, unless something it needs failed. */
  lemma AllExposed(registered: Registry, permitted: set<string>, present: set<Class>, available: set<string>,
                   activated: set<string>, failed: set<string>, pending: seq<string>)
    requires IsLeast(registered, permitted, present, available)
    requires forall id :: id in available ==> id in activated || id in failed || id in pending
    requires forall id :: id in pending ==> id in registered && !RequiresAvailable(registered[id].requires_, activated, registered)
    ensures available !! failed ==> available <= activated
    ensures forall a :: IsLeast(registered, permitted, present, a) ==> a == available
  {
    if available !! failed {
      var x := available * activated;
      forall id | Enters(registered, permitted, present, x, id) ensures id in x {
        EntersMonotone(registered, permitted, present, x, permitted, present, available, id);
        RequiresGrow(registered[id].requires_, x, activated, registered);
      }
      assert Closed(registered, permitted, present, x);
    }
  }

  lemma OccurrencesAppend(xs: seq<string>, y: string, x: string)
    ensures Occurrences(xs + [y], x) == Occurrences(xs, x) + if y == x then 1 else 0
  {
    assert (xs + [y])[..|xs|] == xs;
  }
}

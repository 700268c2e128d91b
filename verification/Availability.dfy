/** Which capabilities are available: a least fixpoint, whatever order it is computed in. */
module Availability {
  import opened Prelude
  import opened DataPoints
  import opened LiteGraph

  type Registry = map<string, Capability>

  predicate DepsPresent(dependsOn: set<Class>, present: set<Class>) {
    forall d :: d in dependsOn ==> exists p :: p in present && IsSubclass(p, d)
  }

  predicate RequiresAvailable(requires_: set<Class>, available: set<string>, registered: Registry) {
    forall r :: r in requires_ ==> Provided(r, available, registered)
  }

  predicate Provided(required: Class, available: set<string>, registered: Registry) {
    exists id :: id in available && id in registered && IsSubclass(registered[id].self, required)
  }

  /** The capability is permitted, its data is there, and so is everything it requires. */
  predicate Enters(registered: Registry, permitted: set<string>, present: set<Class>, available: set<string>, id: string) {
    && id in registered && id in permitted
    && DepsPresent(registered[id].dependsOn, present)
    && RequiresAvailable(registered[id].requires_, available, registered)
  }

  ghost predicate Closed(registered: Registry, permitted: set<string>, present: set<Class>, available: set<string>) {
    forall id :: Enters(registered, permitted, present, available, id) ==> id in available
  }

  /** The least set closed under entering. */
  ghost predicate IsLeast(registered: Registry, permitted: set<string>, present: set<Class>, available: set<string>) {
    && Closed(registered, permitted, present, available)
    && forall x :: Closed(registered, permitted, present, x) ==> available <= x
  }

  /** What is in every closed set. */
  ghost function Available(registered: Registry, permitted: set<string>, present: set<Class>): set<string> {
    set id | id in registered && forall x :: Closed(registered, permitted, present, x) ==> id in x
  }

  lemma AvailableIsLeast(registered: Registry, permitted: set<string>, present: set<Class>)
    ensures IsLeast(registered, permitted, present, Available(registered, permitted, present))
  {
    var available := Available(registered, permitted, present);
    forall id | Enters(registered, permitted, present, available, id) ensures id in available {
      forall x | Closed(registered, permitted, present, x) ensures id in x {
        EntersMonotone(registered, permitted, present, available, permitted, present, x, id);
      }
    }
    assert Closed(registered, permitted, present, registered.Keys);
  }

  lemma EntersMonotone(registered: Registry, permitted: set<string>, present: set<Class>, available: set<string>,
                       permitted': set<string>, present': set<Class>, available': set<string>, id: string)
    requires permitted <= permitted' && present <= present' && available <= available'
    requires Enters(registered, permitted, present, available, id)
    ensures Enters(registered, permitted', present', available', id)
  {
    forall r | r in registered[id].requires_ ensures Provided(r, available', registered) {
      assert Provided(r, available, registered);
    }
  }

  /** Grows the set pass by pass until nothing enters; the result does not depend on the registry's order. */
  method ComputeAvailable(registered: Registry, order: seq<string>, permitted: set<string>, present: set<Class>)
    returns (available: set<string>)
    requires forall id :: id in order <==> id in registered
    ensures IsLeast(registered, permitted, present, available)
    ensures available <= permitted && available <= registered.Keys
  {
    available := {};
    var changed := true;
    while changed
      invariant available <= registered.Keys && available <= permitted
      invariant forall x :: Closed(registered, permitted, present, x) ==> available <= x
      invariant !changed ==> Closed(registered, permitted, present, available)
      decreases |registered.Keys - available|, changed
    {
      changed := false;
      ghost var start := available;
      for i := 0 to |order|
        invariant start <= available <= registered.Keys && available <= permitted
        invariant forall x :: Closed(registered, permitted, present, x) ==> available <= x
        invariant changed <==> available != start
        invariant !changed ==> forall j :: 0 <= j < i ==>
          (Enters(registered, permitted, present, available, order[j]) ==> order[j] in available)
      {
        var id := order[i];
        assert id in order;
        if id !in available && Enters(registered, permitted, present, available, id) {
          EntersEvery(registered, permitted, present, available, id);
          available, changed := available + {id}, true;
        }
      }
      if changed {
        FewerLeft(registered.Keys, start, available);
      } else {
        forall id | Enters(registered, permitted, present, available, id) ensures id in available { assert id in order; }
      }
    }
  }

  /** What enters a subset of every closed set is in every closed set. */
  lemma EntersEvery(registered: Registry, permitted: set<string>, present: set<Class>, available: set<string>, id: string)
    requires Enters(registered, permitted, present, available, id)
    requires forall x :: Closed(registered, permitted, present, x) ==> available <= x
    ensures forall x :: Closed(registered, permitted, present, x) ==> id in x
  {
    forall x | Closed(registered, permitted, present, x) ensures id in x {
      EntersMonotone(registered, permitted, present, available, permitted, present, x, id);
    }
  }

  /** Availability is monotone: more data or more permissions never take a capability away. */
  lemma AvailableMonotone(registered: Registry, permitted: set<string>, present: set<Class>, available: set<string>,
                          permitted': set<string>, present': set<Class>, available': set<string>)
    requires IsLeast(registered, permitted, present, available) && IsLeast(registered, permitted', present', available')
    requires permitted <= permitted' && present <= present'
    ensures available <= available'
  {
    forall id | Enters(registered, permitted, present, available', id) ensures id in available' {
      EntersMonotone(registered, permitted, present, available', permitted', present', available', id);
    }
    assert Closed(registered, permitted, present, available');
  }

  /** The least fixpoint is a fixpoint: every available capability's data and providers are there. */
  lemma AvailableEnters(registered: Registry, permitted: set<string>, present: set<Class>, available: set<string>, id: string)
    requires IsLeast(registered, permitted, present, available) && id in available
    ensures Enters(registered, permitted, present, available, id)
  {
    if !Enters(registered, permitted, present, available, id) {
      var less := available - {id};
      forall x | Enters(registered, permitted, present, less, x) ensures x in less {
        EntersMonotone(registered, permitted, present, less, permitted, present, available, x);
      }
      assert Closed(registered, permitted, present, less);
    }
  }

  lemma ProvidersByName(requires_: set<Class>, available: set<string>, registered: Registry)
    ensures RequiresAvailable(requires_, available, registered) <==>
      forall r :: r in requires_ ==> exists p :: p in available && p in registered && r.name in registered[p].self.mro
  {
    if RequiresAvailable(requires_, available, registered) {
      forall r | r in requires_ ensures exists p :: p in available && p in registered && r.name in registered[p].self.mro {
        assert Provided(r, available, registered);
      }
    }
    if forall r :: r in requires_ ==> exists p :: p in available && p in registered && r.name in registered[p].self.mro {
      forall r | r in requires_ ensures Provided(r, available, registered) {
        var p :| p in available && p in registered && r.name in registered[p].self.mro;
        assert IsSubclass(registered[p].self, r);
      }
    }
  }

  /** What makes a capability available, by class names: permission, its data, and available providers of what it requires. */
  lemma AvailableIff(registered: Registry, permitted: set<string>, present: set<Class>, available: set<string>, id: string)
    requires IsLeast(registered, permitted, present, available)
    ensures id in available <==>
      && id in registered && id in permitted
      && (forall d :: d in registered[id].dependsOn ==> exists p :: p in present && d.name in p.mro)
      && (forall r :: r in registered[id].requires_ ==>
            exists p :: p in available && p in registered && r.name in registered[p].self.mro)
  {
    if id in available { AvailableEnters(registered, permitted, present, available, id); }
    if id in registered {
      DataByName(registered[id].dependsOn, present);
      ProvidersByName(registered[id].requires_, available, registered);
    }
    hide DepsPresent, RequiresAvailable;
    assert Enters(registered, permitted, present, available, id) ==> id in available;
  }

  lemma DataByName(dependsOn: set<Class>, present: set<Class>)
    ensures DepsPresent(dependsOn, present) <==> forall d :: d in dependsOn ==> exists p :: p in present && d.name in p.mro
  {
    if forall d :: d in dependsOn ==> exists p :: p in present && d.name in p.mro {
      forall d | d in dependsOn ensures exists p :: p in present && IsSubclass(p, d) {
        var p :| p in present && d.name in p.mro;
        assert IsSubclass(p, d);
      }
    }
  }
}

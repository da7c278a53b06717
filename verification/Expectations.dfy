/** Expectation counters: what the controller has asked for and not yet seen.

    The store itself is a library's; the model is a pair of integers per key,
    zero where there is no entry.  Set overwrites, raise adds, an observation
    subtracts one, and a key is satisfied when neither counter is positive.
    Expiry by age is not part of this model. */
module Expectations {
  import opened Api

  datatype Kind = Pods | Services

  datatype ExpectationKey = ExpectationKey(job: string, role: Role, kind: Kind)

  datatype Counts = Counts(add: int, del: int) {
    predicate Satisfied() {
      add <= 0 && del <= 0
    }
  }

  type Ledger = map<ExpectationKey, Counts>

  function Lookup(store: Ledger, key: ExpectationKey): Counts {
    if key in store then store[key] else Counts(0, 0)
  }

  /** The keys `ExpectationsFuncApply` visits. */
  function KeysOf(job: string, roles: set<Role>): set<ExpectationKey> {
    (set r | r in roles :: ExpectationKey(job, r, Pods)) + (set r | r in roles :: ExpectationKey(job, r, Services))
  }

  function AllReset(store: Ledger, keys: set<ExpectationKey>): Ledger {
    store + map key | key in keys :: Counts(0, 0)
  }

  lemma KeysOfAre(job: string, roles: set<Role>)
    ensures forall key :: key in KeysOf(job, roles) <==> key.job == job && key.role in roles
  {
    forall key ensures key in KeysOf(job, roles) <==> key.job == job && key.role in roles {
      assert key.kind == Pods || key.kind == Services;
      assert key == ExpectationKey(key.job, key.role, key.kind);
    }
  }

  lemma ResetReads(store: Ledger, job: string, roles: set<Role>)
    ensures forall key :: Lookup(AllReset(store, KeysOf(job, roles)), key)
                          == if key.job == job && key.role in roles then Counts(0, 0) else Lookup(store, key)
  {
    KeysOfAre(job, roles);
  }

  lemma SatisfiedReads(store: Ledger, job: string, roles: set<Role>)
    ensures AllSatisfied(store, KeysOf(job, roles)) <==>
              forall role, kind | role in roles ::
                var c := Lookup(store, ExpectationKey(job, role, kind)); c.add <= 0 && c.del <= 0
  {
    KeysOfAre(job, roles);
    forall role, kind | role in roles ensures ExpectationKey(job, role, kind) in KeysOf(job, roles) {
    }
    if forall role, kind | role in roles ::
         var c := Lookup(store, ExpectationKey(job, role, kind)); c.add <= 0 && c.del <= 0 {
      forall key | key in KeysOf(job, roles) ensures Lookup(store, key).Satisfied() {
        assert key == ExpectationKey(job, key.role, key.kind);
      }
    }
  }

  lemma KeysOfOneMore(job: string, roles: set<Role>, role: Role)
    ensures KeysOf(job, roles + {role}) == KeysOf(job, roles)
            + {ExpectationKey(job, role, Pods), ExpectationKey(job, role, Services)}
  {
  }

  lemma ResetOneMore(store: Ledger, keys: set<ExpectationKey>, a: ExpectationKey, b: ExpectationKey)
    ensures AllReset(store, keys)[a := Counts(0, 0)][b := Counts(0, 0)] == AllReset(store, keys + {a, b})
  {
  }

  predicate AllSatisfied(store: Ledger, keys: set<ExpectationKey>) {
    forall key <- keys :: Lookup(store, key).Satisfied()
  }

  class ControllerExpectations {
    var store: Ledger

    constructor ()
      ensures store == map[]
    {
      store := map[];
    }

    method SetExpectations(key: ExpectationKey, add: int, del: int)
      modifies this
      ensures store == old(store)[key := Counts(add, del)]
    {
      store := store[key := Counts(add, del)];
    }

    method RaiseExpectations(key: ExpectationKey, add: int, del: int)
      modifies this
      ensures store == old(store)[key := Counts(Lookup(old(store), key).add + add, Lookup(old(store), key).del + del)]
    {
      var c := Lookup(store, key);
      store := store[key := Counts(c.add + add, c.del + del)];
    }

    method CreationObserved(key: ExpectationKey)
      modifies this
      ensures store == old(store)[key := Counts(Lookup(old(store), key).add - 1, Lookup(old(store), key).del)]
    {
      RaiseExpectations(key, -1, 0);
    }

    method DeletionObserved(key: ExpectationKey)
      modifies this
      ensures store == old(store)[key := Counts(Lookup(old(store), key).add, Lookup(old(store), key).del - 1)]
    {
      RaiseExpectations(key, 0, -1);
    }

    method Delete(key: ExpectationKey)
      modifies this
      ensures store == old(store) - {key}
    {
      store := store - {key};
    }

    /** Roles are visited in any order, as Go ranges over a map. */
    method ResetExpectations(job: string, roles: set<Role>)
      modifies this
      ensures store == AllReset(old(store), KeysOf(job, roles))
      ensures forall key :: Lookup(store, key)
                            == if key.job == job && key.role in roles then Counts(0, 0) else Lookup(old(store), key)
    {
      var todo := roles;
      while todo != {}
        invariant todo <= roles
        invariant store == AllReset(old(store), KeysOf(job, roles - todo))
        decreases todo
      {
        var role :| role in todo;
        KeysOfOneMore(job, roles - todo, role);
        ResetOneMore(old(store), KeysOf(job, roles - todo), ExpectationKey(job, role, Pods),
          ExpectationKey(job, role, Services));
        SetExpectations(ExpectationKey(job, role, Pods), 0, 0);
        SetExpectations(ExpectationKey(job, role, Services), 0, 0);
        assert roles - (todo - {role}) == roles - todo + {role};
        todo := todo - {role};
      }
      assert roles - todo == roles;
      ResetReads(old(store), job, roles);
    }

    method SatisfiedExpectations(job: string, roles: set<Role>) returns (satisfied: bool)
      ensures satisfied <==> AllSatisfied(store, KeysOf(job, roles))
      ensures satisfied <==> forall role, kind | role in roles ::
                               var c := Lookup(store, ExpectationKey(job, role, kind)); c.add <= 0 && c.del <= 0
    {
      SatisfiedReads(store, job, roles);
      var todo := roles;
      while todo != {}
        invariant todo <= roles
        invariant AllSatisfied(store, KeysOf(job, roles - todo))
        decreases todo
      {
        var role :| role in todo;
        var podsKey, servicesKey := ExpectationKey(job, role, Pods), ExpectationKey(job, role, Services);
        if !Lookup(store, podsKey).Satisfied() || !Lookup(store, servicesKey).Satisfied() {
          assert podsKey in KeysOf(job, roles) && servicesKey in KeysOf(job, roles);
          return false;
        }
        KeysOfOneMore(job, roles - todo, role);
        assert roles - (todo - {role}) == roles - todo + {role};
        todo := todo - {role};
      }
      assert roles - todo == roles;
      satisfied := true;
    }

    method DeleteExpectations(job: string, roles: set<Role>)
      modifies this
      ensures store == old(store) - KeysOf(job, roles)
      ensures forall key :: key in store <==> key in old(store) && !(key.job == job && key.role in roles)
    {
      var todo := roles;
      while todo != {}
        invariant todo <= roles
        invariant store == old(store) - KeysOf(job, roles - todo)
        decreases todo
      {
        var role :| role in todo;
        Delete(ExpectationKey(job, role, Pods));
        Delete(ExpectationKey(job, role, Services));
        KeysOfOneMore(job, roles - todo, role);
        assert roles - (todo - {role}) == roles - todo + {role};
        todo := todo - {role};
      }
      assert roles - todo == roles;
      KeysOfAre(job, roles);
    }

    /** The add handler: an object without a role label is ignored. */
    method AddObject(job: string, kind: Kind, labels: Labels)
      modifies this
      ensures var role := GetReplicaType(labels);
              var c := Lookup(old(store), ExpectationKey(job, role, kind));
              store == if role == "" then old(store)
                else old(store)[ExpectationKey(job, role, kind) := Counts(c.add - 1, c.del)]
    {
      var role := GetReplicaType(labels);
      if role == "" {
        return;
      }
      CreationObserved(ExpectationKey(job, role, kind));
    }

    method DeleteObject(job: string, kind: Kind, labels: Labels)
      modifies this
      ensures var role := GetReplicaType(labels);
              var c := Lookup(old(store), ExpectationKey(job, role, kind));
              store == if role == "" then old(store)
                else old(store)[ExpectationKey(job, role, kind) := Counts(c.add, c.del - 1)]
    {
      var role := GetReplicaType(labels);
      if role == "" {
        return;
      }
      DeletionObserved(ExpectationKey(job, role, kind));
    }
  }
}

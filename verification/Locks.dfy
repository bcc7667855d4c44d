/** The in-memory lock set, and what it means for a set of RPCs to own it. */
module Locks {
  type Key = string

  /** `TryAcquire` and `Release` run under a mutex in the driver, so each is one atomic step. */
  class ResourceLocks {
    var locks: set<Key>

    constructor ()
      ensures locks == {}
    {
      locks := {};
    }

    method TryAcquire(resourceId: Key) returns (acquired: bool)
      modifies this
      ensures acquired <==> resourceId !in old(locks)
      ensures locks == old(locks) + {resourceId}
    {
      if resourceId in locks {
        return false;
      }
      locks := locks + {resourceId};
      return true;
    }

    method Release(resourceId: Key)
      modifies this
      ensures locks == old(locks) - {resourceId}
    {
      locks := locks - {resourceId};
    }
  }

  /** The keys each RPC has still to give back, most recently taken first. */
  type Stacks = map<nat, seq<Key>>

  predicate NoDuplicates(ks: seq<Key>) {
    forall a, b :: 0 <= a < b < |ks| ==> ks[a] != ks[b]
  }

  ghost predicate Holds(stacks: Stacks, i: nat, k: Key) {
    i in stacks && k in stacks[i]
  }

  /** The lock set is exactly the disjoint union of the keys the RPCs hold. */
  ghost predicate Owned(locks: set<Key>, stacks: Stacks) {
    && (forall k :: k in locks <==> exists i :: Holds(stacks, i, k))
    && (forall i, j, k :: Holds(stacks, i, k) && Holds(stacks, j, k) ==> i == j)
    && (forall i :: i in stacks ==> NoDuplicates(stacks[i]))
  }

  lemma OwnedAfterStart(locks: set<Key>, stacks: Stacks, i: nat)
    requires Owned(locks, stacks) && i !in stacks
    ensures Owned(locks, stacks[i := []])
  {
    var stacks' := stacks[i := []];
    assert forall j, k :: Holds(stacks', j, k) <==> Holds(stacks, j, k);
  }

  lemma OwnedAfterAcquire(locks: set<Key>, stacks: Stacks, i: nat, k: Key)
    requires Owned(locks, stacks) && i in stacks && k !in locks
    ensures Owned(locks + {k}, stacks[i := [k] + stacks[i]])
  {
    var stacks' := stacks[i := [k] + stacks[i]];
    forall j, k' ensures Holds(stacks', j, k') <==> Holds(stacks, j, k') || (j == i && k' == k) {
      if j == i {
        assert k' in stacks'[i] <==> k' == k || k' in stacks[i];
      }
    }
    forall k' ensures k' in locks + {k} <==> exists j :: Holds(stacks', j, k') {
      if k' == k {
        assert Holds(stacks', i, k);
      } else if k' in locks {
        var j :| Holds(stacks, j, k');
        assert Holds(stacks', j, k');
      }
    }
    assert !Holds(stacks, i, k);
  }

  lemma OwnedAfterRelease(locks: set<Key>, stacks: Stacks, i: nat)
    requires Owned(locks, stacks) && i in stacks && stacks[i] != []
    ensures Owned(locks - {stacks[i][0]}, stacks[i := stacks[i][1..]])
  {
    var k, rest := stacks[i][0], stacks[i][1..];
    var stacks' := stacks[i := rest];
    assert Holds(stacks, i, k);
    assert stacks[i] == [k] + rest;
    forall j, k' ensures Holds(stacks', j, k') <==> Holds(stacks, j, k') && !(j == i && k' == k) {
      if j == i {
        assert k' in stacks[i] <==> k' == k || k' in rest;
      }
    }
    forall k' ensures k' in locks - {k} <==> exists j :: Holds(stacks', j, k') {
      if k' != k && k' in locks {
        var j :| Holds(stacks, j, k');
        assert Holds(stacks', j, k');
      }
    }
  }
}

/** The in-memory scheduler storage used by the scheduler's tests
    (Accord/Tests/AccordTests/Mocks/SchedulerStorageMock.swift). */
module SchedulerStorageMocks {
  import opened Runnables

  class SchedulerStorageMock {
    var runnables: seq<Runnable>

    constructor ()
      ensures runnables == []
    {
      runnables := [];
    }

    /** Replaces the whole list. */
    method Inject(rs: seq<Runnable>)
      modifies this
      ensures runnables == rs
    {
      runnables := rs;
    }

    /** Returns the current list; nothing is emptied (the method modifies nothing). */
    method FlushAll() returns (rs: seq<Runnable>)
      ensures rs == runnables
    {
      rs := runnables;
    }

    /** Adds the runnable at the end, with no deduplication. */
    method Append(runnable: Runnable)
      modifies this
      ensures runnables == old(runnables) + [runnable]
    {
      runnables := runnables + [runnable];
    }

    /** Deletes every element with the runnable's id; the others keep their order. */
    method Remove(runnable: Runnable)
      modifies this
      ensures runnables == WithoutId(old(runnables), runnable.id)
    {
      runnables := WithoutId(runnables, runnable.id);
    }
  }

  /** Appending a runnable whose id is fresh and then removing it restores the
      original list. */
  lemma AppendThenRemoveRestores(s: seq<Runnable>, r: Runnable)
    requires forall x :: x in s ==> x.id != r.id
    ensures WithoutId(s + [r], r.id) == s
  {
    WithoutIdAppend(s, [r], r.id);
    WithoutIdMembers(s, r.id);
    assert WithoutId([r], r.id) == [];
  }

  /** Appending and removing act only on the id concerned: removing an id after
      appending a runnable with another id is appending after removing. */
  lemma RemoveCommutesWithOtherAppend(s: seq<Runnable>, r: Runnable, id: string)
    requires r.id != id
    ensures WithoutId(s + [r], id) == WithoutId(s, id) + [r]
  {
    WithoutIdAppend(s, [r], id);
    assert WithoutId([r], id) == [r];
  }
}

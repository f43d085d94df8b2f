/** Work units ("runnables") as the scheduler and its storages see them. */
module Runnables {
  import opened Common

  /** `RunnableRepresentation`, the loosely typed record a runnable is stored as;
      its encoding is not part of this model. */
  type Representation = map<string, string>

  /** An error thrown by a runnable's `run()`. */
  datatype RunError = RunError(code: nat)

  /** How one subscription to `run()` ends. */
  datatype RunOutcome = Completed | Failed(error: RunError)

  /** A runnable: its id (the removal key), the outcomes of its successive runs
      inside the modelled window, in order, and its `toRepresentation()`. A run
      requested after `script` is exhausted does not end inside the window. */
  datatype Runnable = Runnable(id: string, script: seq<RunOutcome>, representation: Representation)

  /** The condition `{ $0.id == id }` used by every removal. */
  function HasId(id: string): Runnable -> bool
  {
    (r: Runnable) => r.id == id
  }

  /** `removeAll(where: { $0.id == id })` on a list of runnables. */
  function WithoutId(s: seq<Runnable>, id: string): seq<Runnable>
  {
    RemoveAll(s, HasId(id))
  }

  /** What survives a removal: exactly the runnables with another id; a list
      without the id is left as it is. */
  lemma WithoutIdMembers(s: seq<Runnable>, id: string)
    ensures forall x :: x in WithoutId(s, id) <==> x in s && x.id != id
    ensures (forall x :: x in s ==> x.id != id) ==> WithoutId(s, id) == s
  {
    RemoveAllMembers(s, HasId(id));
  }

  lemma WithoutIdCons(x: Runnable, s: seq<Runnable>, id: string)
    ensures WithoutId([x] + s, id) == (if x.id == id then [] else [x]) + WithoutId(s, id)
  {
    assert ([x] + s)[0] == x && ([x] + s)[1..] == s;
  }

  /** The survivors of a removal keep their order: removing from a concatenation
      removes from each part. */
  lemma WithoutIdAppend(a: seq<Runnable>, b: seq<Runnable>, id: string)
    ensures WithoutId(a + b, id) == WithoutId(a, id) + WithoutId(b, id)
  {
    RemoveAllAppend(a, b, HasId(id));
  }
}

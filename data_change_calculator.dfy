/** `DataChangeCalculator` (Sources/Accord/Data/DataChangeCalculator.swift): turns
    a change reported by a remote provider into at most one write on the
    entity's local storage. */
module DataChangeCalculators {
  import opened Common
  import opened Contents
  import opened LocalStorageMocks
  import opened RemoteProviderMocks

  /** The storage call `compute` issues. */
  datatype LocalWrite = LocalWrite(action: DataAction, content: Content)

  /** The action named like the change type. */
  function ActionFor(t: ChangeType): DataAction
  {
    match t
    case Sync => DataAction.Sync
    case Insert => DataAction.Insert
    case Update => DataAction.Update
    case Delete => DataAction.Delete
  }

  /** The write for a change: `delete` writes the content before the change, the
      other types the content after it; a change without that payload writes
      nothing. */
  function WriteFor(change: Change): (w: Option<LocalWrite>)
    ensures w.Some? <==> (if change.changeType.Delete? then change.before.Some? else change.current.Some?)
    ensures w.Some? ==> w.value.action == ActionFor(change.changeType)
    ensures w.Some? ==> w.value.content == (if change.changeType.Delete? then change.before.value else change.current.value)
  {
    match change.changeType
    case Sync => if change.current.None? then None else Some(LocalWrite(DataAction.Sync, change.current.value))
    case Insert => if change.current.None? then None else Some(LocalWrite(DataAction.Insert, change.current.value))
    case Update => if change.current.None? then None else Some(LocalWrite(DataAction.Update, change.current.value))
    case Delete => if change.before.None? then None else Some(LocalWrite(DataAction.Delete, change.before.value))
  }

  /** `compute(change:in:)` on an entity whose data storage is the tests' local
      storage: a change without its payload completes at once and writes
      nothing; otherwise the one write is performed and its outcome returned. */
  method Compute(change: Change, storage: LocalStorageMock) returns (r: Outcome<LocalStorageError>)
    modifies storage
    ensures WriteFor(change).None? ==> r == Pass && storage.content == old(storage.content)
    ensures WriteFor(change).Some? ==>
      var w := WriteFor(change).value;
      && (w.content.OfOtherType? ==> r == Fail(LocalStorageError.InvalidType) && storage.content == old(storage.content))
      && (w.content.Mock? ==> r == Pass && storage.content == Performed(old(storage.content), w.action, w.content.value))
  {
    var w := WriteFor(change);
    if w.None? {
      return Pass;
    }
    r := storage.Perform(w.value.action, w.value.content);
  }

  /** Distinct change types ask for distinct actions, and every action is asked
      for by one change type. */
  lemma ActionForIsOneToOne(t: ChangeType, u: ChangeType, a: DataAction)
    ensures ActionFor(t) == ActionFor(u) ==> t == u
    ensures exists v :: ActionFor(v) == a
  {
    match a
    case Sync => assert ActionFor(ChangeType.Sync) == a;
    case Insert => assert ActionFor(ChangeType.Insert) == a;
    case Update => assert ActionFor(ChangeType.Update) == a;
    case Delete => assert ActionFor(ChangeType.Delete) == a;
  }

  /** The change the provider mock reports carries no content, so it never
      writes. */
  lemma ObservedChangeWritesNothing()
    ensures WriteFor(ObservedChange()).None?
  {
  }
}

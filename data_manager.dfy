/** `AccordDataManager` (Sources/Accord/Data/AccordDataManager.swift): a registry
    of entities by id, and the add/update/remove operations that write to an
    entity's local storage and then, when the entity has a remote provider,
    schedule the provider's runnable. The scheduler is the tests'
    append-only `StaticRunnablesMock`. */
module AccordDataManagers {
  import opened Common
  import opened Contents
  import opened LocalStorageMocks
  import opened RemoteProviderMocks

  /** An `AccordableEntity` as the tests build it (`EntityMock`). The entity's
      `scheduler`, which only moves delivery to another queue, is left out. */
  datatype Entity = Entity(id: string, dataStorage: LocalStorageMock, remoteProvider: Option<RemoteProviderMock>)

  /** `AccordDataManager.Errors`, and the errors of the storages passed through.
      `Remote` is the provider's error as the manager passes it on; with the two
      mocks it never arises, because the local mock refuses content of another
      type before the provider is asked, and that is the only content the
      provider mock refuses. */
  datatype ManagerError =
    | DeallocatedInstance
    | UnknownEntity
    | Local(localError: LocalStorageError)
    | Remote(remoteError: RemoteProviderError)

  /** How the `Completable` of an operation ends; a provider that never emits a
      runnable leaves it pending forever. */
  datatype Completion = Completed | Failed(error: ManagerError) | NeverCompletes

  /** Which action the remote provider is asked for: `.insert` whatever the
      operation (the code as written), or the operation's own action (what the
      documentation of `action(_:onEntity:withContent:)` says). */
  datatype RemoteRequest = AlwaysInsert | SameAction

  function RemoteAction(request: RemoteRequest, action: DataAction): DataAction
  {
    if request == AlwaysInsert then DataAction.Insert else action
  }

  /** `entity(forEntityDescriptor:)`: `alive` is false once the manager has been
      deallocated. There is no waiting: an unknown id fails at once. */
  function Lookup(entities: map<string, Entity>, id: string, alive: bool): (r: Result<Entity, ManagerError>)
    // found exactly when the manager is alive and the id is registered, and then it is that entity
    ensures r.Ok? <==> alive && id in entities
    ensures r.Ok? ==> r.value == entities[id]
    // a vanished manager wins over an unknown id
    ensures r.Err? ==> r.error == (if alive then UnknownEntity else DeallocatedInstance)
  {
    if !alive then Err(DeallocatedInstance)
    else if id in entities then Ok(entities[id])
    else Err(UnknownEntity)
  }

  /** What `action(_:onEntity:withContent:)` does, given the local list and the
      provider's list (if there is a provider): the new local list, the
      runnables scheduled, and how the `Completable` ends. */
  datatype ActionEffect = ActionEffect(local: seq<ContentMock>, scheduled: seq<RemoteProviderRunnableMock>,
                                       completion: Completion)

  function ActionSpec(local: seq<ContentMock>, remote: Option<seq<ContentMock>>, action: DataAction, item: Content,
                      request: RemoteRequest, freshId: string): (e: ActionEffect)
    // at most one runnable; a failure changes nothing and schedules nothing
    ensures |e.scheduled| <= 1
    ensures e.completion.Failed? ==> e.local == local && e.scheduled == []
    ensures e.scheduled != [] ==> remote.Some?
  {
    if item.OfOtherType? then ActionEffect(local, [], Failed(Local(LocalStorageError.InvalidType)))
    else
      var local' := Performed(local, action, item.value);
      match remote
      case None => ActionEffect(local', [], Completed)
      case Some(relay) =>
        match NewContent(relay, RemoteAction(request, action), item.value)
        case None => ActionEffect(local', [], NeverCompletes)
        case Some(content) => ActionEffect(local', [RemoteProviderRunnableMock(freshId, content)], Completed)
  }

  function RelayOf(provider: Option<RemoteProviderMock>): Option<seq<ContentMock>>
    reads if provider.Some? then {provider.value} else {}
  {
    if provider.Some? then Some(provider.value.contentRelay) else None
  }

  /** The tests' `StaticRunnablesMock`: `schedule` only appends. */
  class StaticRunnablesMock {
    var runnables: seq<RemoteProviderRunnableMock>

    constructor ()
      ensures runnables == []
    {
      runnables := [];
    }

    method Schedule(runnable: RemoteProviderRunnableMock)
      modifies this
      ensures runnables == old(runnables) + [runnable]
    {
      runnables := runnables + [runnable];
    }
  }

  class AccordDataManager {
    const scheduler: StaticRunnablesMock
    const remoteRequest: RemoteRequest
    var entities: map<string, Entity>

    constructor (scheduler: StaticRunnablesMock, remoteRequest: RemoteRequest)
      ensures this.scheduler == scheduler && this.remoteRequest == remoteRequest && entities == map[]
    {
      this.scheduler := scheduler;
      this.remoteRequest := remoteRequest;
      entities := map[];
    }

    /** The local storages of the registered entities. */
    function Storages(): set<LocalStorageMock>
      reads this
    {
      set id | id in entities :: entities[id].dataStorage
    }

    /** `register(entity:)`: stores the entity under its id, replacing any entity
        registered with the same id. */
    method Register(entity: Entity)
      modifies this
      ensures entities == old(entities)[entity.id := entity]
    {
      entities := entities[entity.id := entity];
    }

    /** `action(_:onEntity:withContent:)`: the local write first; only when it
        succeeds and the entity has a remote provider is a runnable requested
        and, once emitted, scheduled. */
    method Action(action: DataAction, entity: Entity, item: Content, freshId: string) returns (r: Completion)
      modifies entity.dataStorage, scheduler
      ensures var e := ActionSpec(old(entity.dataStorage.content), old(RelayOf(entity.remoteProvider)), action, item,
                                  remoteRequest, freshId);
        entity.dataStorage.content == e.local && scheduler.runnables == old(scheduler.runnables) + e.scheduled
        && r == e.completion
    {
      var local := entity.dataStorage.Perform(action, item);
      if local.Fail? {
        return Failed(Local(local.error));
      }
      if entity.remoteProvider.None? {
        return Completed;
      }
      var request := entity.remoteProvider.value.PerformAction(item, RemoteAction(remoteRequest, action), freshId);
      r := Completed;
      match request {
        case Errs(e) =>
          assert false;
        case NeverEmits =>
          r := NeverCompletes;
        case Emits(runnable) =>
          scheduler.Schedule(runnable);
      }
    }

    /** The shared shape of `add`, `update` and `remove`: look the entity up, then
        run the action on it. */
    method Operation(action: DataAction, item: Content, descriptor: string, alive: bool, freshId: string)
      returns (r: Completion)
      modifies scheduler, Storages()
      ensures Lookup(old(entities), descriptor, alive).Err? ==>
        && r == Failed(Lookup(old(entities), descriptor, alive).error)
        && scheduler.runnables == old(scheduler.runnables)
        && forall s :: s in old(Storages()) ==> s.content == old(s.content)
      ensures Lookup(old(entities), descriptor, alive).Ok? ==>
        var entity := old(entities)[descriptor];
        var e := ActionSpec(old(entity.dataStorage.content), old(RelayOf(entity.remoteProvider)), action, item,
                            remoteRequest, freshId);
        && entity.dataStorage.content == e.local
        && scheduler.runnables == old(scheduler.runnables) + e.scheduled
        && r == e.completion
        && forall s :: s in old(Storages()) && s != entity.dataStorage ==> s.content == old(s.content)
    {
      var found := Lookup(entities, descriptor, alive);
      if found.Err? {
        return Failed(found.error);
      }
      assert found.value.dataStorage in Storages();
      r := Action(action, found.value, item, freshId);
    }

    /** `add(object:toEntity:)`: the local write is an `.insert`. */
    method Add(item: Content, descriptor: string, alive: bool, freshId: string) returns (r: Completion)
      modifies scheduler, Storages()
      ensures Lookup(old(entities), descriptor, alive).Err? ==>
        && r == Failed(Lookup(old(entities), descriptor, alive).error)
        && scheduler.runnables == old(scheduler.runnables)
        && forall s :: s in old(Storages()) ==> s.content == old(s.content)
      ensures Lookup(old(entities), descriptor, alive).Ok? ==>
        var entity := old(entities)[descriptor];
        var e := ActionSpec(old(entity.dataStorage.content), old(RelayOf(entity.remoteProvider)), DataAction.Insert,
                            item, remoteRequest, freshId);
        && entity.dataStorage.content == e.local
        && scheduler.runnables == old(scheduler.runnables) + e.scheduled
        && r == e.completion
        && forall s :: s in old(Storages()) && s != entity.dataStorage ==> s.content == old(s.content)
    {
      r := Operation(DataAction.Insert, item, descriptor, alive, freshId);
    }

    /** `update(object:inEntity:)`: the local write is an `.update`. */
    method Update(item: Content, descriptor: string, alive: bool, freshId: string) returns (r: Completion)
      modifies scheduler, Storages()
      ensures Lookup(old(entities), descriptor, alive).Err? ==>
        && r == Failed(Lookup(old(entities), descriptor, alive).error)
        && scheduler.runnables == old(scheduler.runnables)
        && forall s :: s in old(Storages()) ==> s.content == old(s.content)
      ensures Lookup(old(entities), descriptor, alive).Ok? ==>
        var entity := old(entities)[descriptor];
        var e := ActionSpec(old(entity.dataStorage.content), old(RelayOf(entity.remoteProvider)), DataAction.Update,
                            item, remoteRequest, freshId);
        && entity.dataStorage.content == e.local
        && scheduler.runnables == old(scheduler.runnables) + e.scheduled
        && r == e.completion
        && forall s :: s in old(Storages()) && s != entity.dataStorage ==> s.content == old(s.content)
    {
      r := Operation(DataAction.Update, item, descriptor, alive, freshId);
    }

    /** `remove(object:fromEntity:)`: the local write is a `.delete`. */
    method Remove(item: Content, descriptor: string, alive: bool, freshId: string) returns (r: Completion)
      modifies scheduler, Storages()
      ensures Lookup(old(entities), descriptor, alive).Err? ==>
        && r == Failed(Lookup(old(entities), descriptor, alive).error)
        && scheduler.runnables == old(scheduler.runnables)
        && forall s :: s in old(Storages()) ==> s.content == old(s.content)
      ensures Lookup(old(entities), descriptor, alive).Ok? ==>
        var entity := old(entities)[descriptor];
        var e := ActionSpec(old(entity.dataStorage.content), old(RelayOf(entity.remoteProvider)), DataAction.Delete,
                            item, remoteRequest, freshId);
        && entity.dataStorage.content == e.local
        && scheduler.runnables == old(scheduler.runnables) + e.scheduled
        && r == e.completion
        && forall s :: s in old(Storages()) && s != entity.dataStorage ==> s.content == old(s.content)
    {
      r := Operation(DataAction.Delete, item, descriptor, alive, freshId);
    }
  }

  // ---------------------------------------------------------------------------
  // Properties
  // ---------------------------------------------------------------------------

  /** Registering entities one after the other. */
  function Registered(entities: map<string, Entity>, es: seq<Entity>): map<string, Entity>
    decreases |es|
  {
    if es == [] then entities else Registered(entities[es[0].id := es[0]], es[1..])
  }

  /** After a series of registrations the registry holds one entry per distinct
      id, and each id maps to the entity registered last with it. */
  lemma {:induction false} RegisteredKeys(entities: map<string, Entity>, es: seq<Entity>)
    ensures Registered(entities, es).Keys == entities.Keys + (set i | 0 <= i < |es| :: es[i].id)
    ensures forall i :: 0 <= i < |es| && (forall j :: i < j < |es| ==> es[j].id != es[i].id) ==>
      Registered(entities, es)[es[i].id] == es[i]
    decreases |es|
  {
    if es != [] {
      var m := entities[es[0].id := es[0]];
      RegisteredKeys(m, es[1..]);
      var ids := set i | 0 <= i < |es| :: es[i].id;
      var restIds := set i | 0 <= i < |es[1..]| :: es[1..][i].id;
      assert ids == {es[0].id} + restIds by {
        forall x | x in ids
          ensures x in {es[0].id} + restIds
        {
          var i :| 0 <= i < |es| && es[i].id == x;
          if i > 0 {
            assert es[1..][i - 1].id == x;
          }
        }
      }
      forall i | 0 <= i < |es| && (forall j :: i < j < |es| ==> es[j].id != es[i].id)
        ensures Registered(entities, es)[es[i].id] == es[i]
      {
        if i == 0 {
          RegisteredKeepsUnmentioned(m, es[1..], es[0].id);
        } else {
          assert es[1..][i - 1] == es[i];
          assert forall j :: i - 1 < j < |es[1..]| ==> es[1..][j].id != es[1..][i - 1].id;
        }
      }
    }
  }

  /** Registrations under other ids leave an entry alone. */
  lemma {:induction false} RegisteredKeepsUnmentioned(entities: map<string, Entity>, es: seq<Entity>, id: string)
    requires id in entities && forall j :: 0 <= j < |es| ==> es[j].id != id
    ensures id in Registered(entities, es) && Registered(entities, es)[id] == entities[id]
    decreases |es|
  {
    if es != [] {
      RegisteredKeepsUnmentioned(entities[es[0].id := es[0]], es[1..], id);
    }
  }

  /** Looking up just after registering finds the entity, and leaves the
      answers for every other id as they were. */
  lemma RegisterThenLookup(entities: map<string, Entity>, entity: Entity, id: string, alive: bool)
    ensures Lookup(entities[entity.id := entity], entity.id, alive) == (if alive then Ok(entity) else Err(DeallocatedInstance))
    ensures id != entity.id ==> Lookup(entities[entity.id := entity], id, alive) == Lookup(entities, id, alive)
  {
  }

  /** The local write runs first and decides: when it fails, its error is the
      result and nothing is scheduled; when it succeeds, the local list is its
      result whatever the provider does. */
  lemma LocalWriteFirst(local: seq<ContentMock>, remote: Option<seq<ContentMock>>, action: DataAction,
                        item: Content, request: RemoteRequest, freshId: string)
    ensures var e := ActionSpec(local, remote, action, item, request, freshId);
      && (item.OfOtherType? ==> e == ActionEffect(local, [], Failed(Local(LocalStorageError.InvalidType))))
      && (item.Mock? ==> e.local == Performed(local, action, item.value))
      && (e.scheduled != [] ==> item.Mock? && remote.Some?)
  {
  }

  /** With a remote provider, every successful add, update or remove schedules
      exactly one runnable and completes; without one, nothing is scheduled. */
  lemma OneRunnablePerOperation(local: seq<ContentMock>, remote: Option<seq<ContentMock>>, action: DataAction,
                                item: ContentMock, request: RemoteRequest, freshId: string)
    requires !action.Sync?
    ensures var e := ActionSpec(local, remote, action, Mock(item), request, freshId);
      && e.completion == Completed
      && |e.scheduled| == (if remote.Some? then 1 else 0)
  {
    if remote.Some? {
      assert NewContent(remote.value, RemoteAction(request, action), item).Some?;
    }
  }

  /** As written: the provider is always asked for `.insert`, so the runnable a
      `remove` schedules makes the remote list hold the removed object. */
  lemma AsWrittenRemoveReinserts(relay: seq<ContentMock>, local: seq<ContentMock>, item: ContentMock, freshId: string)
    ensures var e := ActionSpec(local, Some(relay), DataAction.Delete, Mock(item), AlwaysInsert, freshId);
      && e.local == WithoutContentId(local, item.id)
      && e.scheduled == [RemoteProviderRunnableMock(freshId, relay + [item])]
      && item in e.scheduled[0].newContent
  {
  }

  /** Corrected: with the operation's own action, the runnable a `remove`
      schedules leaves no item with the object's id on the remote side, as on
      the local side. */
  lemma SameActionRemoveDeletes(relay: seq<ContentMock>, local: seq<ContentMock>, item: ContentMock, freshId: string)
    ensures var e := ActionSpec(local, Some(relay), DataAction.Delete, Mock(item), SameAction, freshId);
      && |e.scheduled| == 1
      && (forall x :: x in e.scheduled[0].newContent ==> x.id != item.id)
      && (forall x :: x in e.local ==> x.id != item.id)
  {
    WithoutContentIdMembers(relay, item.id);
    WithoutContentIdMembers(local, item.id);
  }
}

/** The data manager's test cases (Tests/AccordTests/AccordDataManagerTests.swift),
    run against the model with the code's remote request (`.insert` always). */
module AccordDataManagerScenarios {
  import opened Common
  import opened Contents
  import opened LocalStorageMocks
  import opened RemoteProviderMocks
  import opened AccordDataManagers

  /** `EntityMock.identifier`. */
  const EntityMockId := "EntityMock"

  /** `contains(where: { $0.id == id })`. */
  predicate ContainsId(s: seq<ContentMock>, id: string)
  {
    exists i :: 0 <= i < |s| && s[i].id == id
  }

  /** `testRegisterEntities`: one registered entity, one entry. */
  method RegisterScenario() returns (count: nat)
    ensures count == 1
  {
    var scheduler := new StaticRunnablesMock();
    var manager := new AccordDataManager(scheduler, AlwaysInsert);
    var local := new LocalStorageMock();
    var remote := new RemoteProviderMock();
    manager.Register(Entity(EntityMockId, local, Some(remote)));
    count := |manager.entities.Keys|;
  }

  /** `testObserveUnexistingEntity`: the lookup behind `observeObjects` fails at
      once with `unknownEntity` when nothing is registered. */
  method UnknownEntityScenario() returns (found: Result<Entity, ManagerError>)
    ensures found == Err(UnknownEntity)
  {
    var scheduler := new StaticRunnablesMock();
    var manager := new AccordDataManager(scheduler, AlwaysInsert);
    found := Lookup(manager.entities, EntityMockId, true);
  }

  /** `testAdd`: the object is in the local storage and one runnable is scheduled. */
  method AddScenario() returns (completion: Completion, contains: bool, scheduled: nat)
    ensures completion == Completed && contains && scheduled == 1
  {
    var scheduler := new StaticRunnablesMock();
    var local := new LocalStorageMock();
    var remote := new RemoteProviderMock();
    var manager := new AccordDataManager(scheduler, AlwaysInsert);
    manager.Register(Entity(EntityMockId, local, Some(remote)));
    var newObject := ContentMock("newObjectId", "", 0, false);
    completion := manager.Add(Mock(newObject), EntityMockId, true, "runnable-1");
    var current := local.CurrentContent();
    assert current[0].id == "newObjectId";
    contains := ContainsId(current, "newObjectId");
    scheduled := |scheduler.runnables|;
  }

  /** `testUpdate`: after add and update the object is still in the local
      storage, exactly once, and two runnables are scheduled. */
  method UpdateScenario() returns (completions: seq<Completion>, current: seq<ContentMock>, scheduled: nat)
    ensures completions == [Completed, Completed] && scheduled == 2
    ensures current == [ContentMock("newObjectId", "", 1, true)]
  {
    var scheduler := new StaticRunnablesMock();
    var local := new LocalStorageMock();
    var remote := new RemoteProviderMock();
    var manager := new AccordDataManager(scheduler, AlwaysInsert);
    manager.Register(Entity(EntityMockId, local, Some(remote)));
    var newObject := ContentMock("newObjectId", "", 0, false);
    var updatedObject := ContentMock("newObjectId", "", 1, true);
    var added := manager.Add(Mock(newObject), EntityMockId, true, "runnable-1");
    var updated := manager.Update(Mock(updatedObject), EntityMockId, true, "runnable-2");
    completions := [added, updated];
    assert WithoutContentId([newObject], newObject.id) == [];
    current := local.CurrentContent();
    scheduled := |scheduler.runnables|;
  }

  /** `testRemove`: after add and remove the object is gone from the local
      storage and two runnables are scheduled. The second one, requested with
      `.insert`, would put the object into the remote list. */
  method RemoveScenario() returns (completions: seq<Completion>, contains: bool, scheduled: seq<RemoteProviderRunnableMock>)
    ensures completions == [Completed, Completed] && !contains && |scheduled| == 2
    ensures scheduled[1].newContent == [ContentMock("newObjectId", "", 0, false)]
  {
    var scheduler := new StaticRunnablesMock();
    var local := new LocalStorageMock();
    var remote := new RemoteProviderMock();
    var manager := new AccordDataManager(scheduler, AlwaysInsert);
    manager.Register(Entity(EntityMockId, local, Some(remote)));
    var newObject := ContentMock("newObjectId", "", 0, false);
    var added := manager.Add(Mock(newObject), EntityMockId, true, "runnable-1");
    var removed := manager.Remove(Mock(newObject), EntityMockId, true, "runnable-2");
    completions := [added, removed];
    assert WithoutContentId([newObject], newObject.id) == [];
    var current := local.CurrentContent();
    contains := ContainsId(current, "newObjectId");
    scheduled := scheduler.runnables;
  }

  /** A provider runnable installs the list computed when it was made: content
      injected in between is overwritten, and of two runnables the one run last
      wins. */
  method SnapshotScenario() returns (afterFirst: seq<ContentMock>, afterSecond: seq<ContentMock>)
    ensures afterFirst == [ContentMock("a", "", 0, false)]
    ensures afterSecond == [ContentMock("b", "", 0, false)]
  {
    var remote := new RemoteProviderMock();
    var a, b := ContentMock("a", "", 0, false), ContentMock("b", "", 0, false);
    var first := remote.PerformAction(Mock(a), DataAction.Insert, "runnable-1");
    var second := remote.PerformAction(Mock(b), DataAction.Insert, "runnable-2");
    remote.Inject(ContentMock("injected", "", 0, false));
    remote.Run(first.runnable);
    afterFirst := remote.contentRelay;
    remote.Run(second.runnable);
    afterSecond := remote.contentRelay;
  }
}

# Accord, modelled in Dafny

Accord is an offline-first synchronisation library built on RxSwift. An app
registers *entities* with an `AccordDataManager`. Each entity has a local
storage and, optionally, a remote provider. `add`, `update` and `remove` write
to the local storage first. When the entity has a remote provider, the
manager then asks it for a *runnable* (a unit of remote work) and hands the
runnable to a scheduler.

The `PersistentScheduler` works in four steps:

- It appends every runnable to a scheduler storage, so that no work is lost
  across sessions.
- It buffers runnables into batches bounded by `maxConcurrentRunnables` and a
  time window.
- It runs each member of a batch under a retry loop. The loop asks a
  `RetryPolicyEvaluator` what to do with every error.
- It removes a runnable from the storage once its loop ends, whether by
  success or by give-up.

At start-up the scheduler replays everything its storage returns.

`FileSchedulerStorage` keeps the runnables' representations in a
property-list file, behind a version gate. `DataChangeCalculator` turns a
change reported by a remote provider into at most one local write. The
in-memory test doubles give the only concrete list semantics the repository
shows, and the model includes them:

- `SchedulerStorageMock`;
- `LocalStorageMock`;
- `RemoteProviderMock` and its runnable;
- `StaticRunnablesMock`.

## How the model is built

- A `Single` or a `Completable` becomes a value. `Result` means it emits a
  value or errs. `Outcome` means it completes or errs. `Completion` also
  covers a `Completable` that never ends.
- Time becomes an explicit event.
  - The end of the buffer's window is a call to `Flush`.
  - The delay of `retryAfter` is recorded in the side-effect log; nothing
    waits for it.
- A runnable is its id, its representation, and `script`. The script lists
  the outcomes of its successive runs. If a run is requested after the script
  is exhausted, the loop is still running when the window closes.
- The evaluator is a function of `(error, attempt)`.
- The scheduler is a class over the test storage. The class has:
  - the open buffer;
  - a `dead` flag for the subscription;
  - a log of side effects: appended, ran, evaluated, resumed, removed.

  Every method is proved equal to a state-machine function (`ScheduleSpec`,
  `FlushSpec`, `ReplaySpec`, `RunBatchSpec`). The properties are proved about
  those functions.
- The file of `FileSchedulerStorage` is an abstract value: `Missing`,
  `NotADictionary`, or a `Dictionary` of property-list values. The clock and
  the disk's answer to a write are parameters (`now`, `diskOk`).
- The data manager is a class holding the `entities` map. `alive` says
  whether the manager still exists when the deferred work runs. `freshId`
  stands for the UUID a new runnable draws.
- Each stateful operation appears twice on purpose: as a method on the class
  that changes the state in place, and as a pure function of the old state
  that specifies it. The method's `ensures` ties the new state to the
  function, and the lemmas are proved about the function, which lemmas can
  call and methods cannot. The pairs are:
  - `Performed` / `LocalStorageMock.Perform`;
  - `NewContent` / `RemoteProviderMock.PerformAction`;
  - `ReadRawEffect`, `ReadEffect`, `AppendEffect`, `RemoveEffect` and the
    methods of `FileSchedulerStorage`;
  - `Retry`, `RunBatchSpec`, `ScheduleSpec`, `FlushSpec`, `ReplaySpec` and the
    methods of `PersistentScheduler` (`RunWithRetry`, `RunBatch`, `Schedule`,
    `Flush`, `ReadFromStorage`);
  - `ActionSpec` / `AccordDataManager.Action`.

In three places the code disagrees with something it should agree with. Twice
it disagrees with its own documentation. Once, the file storage's writer
(`makeStorageDictionary`) disagrees with its reader (`readRaw`). In each place
the model takes the behaviour as a parameter. The test scenarios use the
behaviour of the code as written:

- `GiveUpHandling`: `Propagate` (the code) or `Contain` (the scheduler's
  documentation).
- `VersionStamp`: `EnumValue` (the code) or `RawValueString` (what the
  reader expects).
- `RemoteRequest`: `AlwaysInsert` (the code) or `SameAction` (the
  documentation of `action(_:onEntity:withContent:)`).

## Model

| member | source | states |
|---|---|---|
| Common.RemoveAll | Accord/Tests/AccordTests/Mocks/SchedulerStorageMock.swift:33 | `removeAll(where:)` never makes the list longer |
| Common.CompactMap | Sources/Accord/Scheduler/FileSchedulerStorage.swift:88 | `compactMap` never makes the list longer |
| Common.RemoveAllMembers | Accord/Tests/AccordTests/Mocks/SchedulerStorageMock.swift:33 | `removeAll(where:)` keeps exactly the elements that do not match; when none matches, the list is unchanged |
| Common.RemoveAllAppend | Accord/Tests/AccordTests/Mocks/SchedulerStorageMock.swift:33 | removing from a concatenation removes from each part, so the survivors keep their relative order |
| Common.RemoveAllIdempotent | Sources/Accord/Scheduler/FileSchedulerStorage.swift:57 | removing twice with the same condition is removing once |
| Common.CompactMapAppend | Sources/Accord/Scheduler/FileSchedulerStorage.swift:88 | `compactMap` distributes over concatenation |
| Runnables.WithoutIdMembers | Accord/Tests/AccordTests/Mocks/SchedulerStorageMock.swift:32-33 | a removal by id keeps exactly the runnables with another id; removing an absent id changes nothing |
| Runnables.WithoutIdAppend | Accord/Tests/AccordTests/Mocks/SchedulerStorageMock.swift:32-33 | the runnables kept by a removal stay in their order |
| RetryPolicies.ToObservable | Accord/Sources/Accord/Models/RetryPolicy.swift:15-24 | every policy gives exactly one of "resume once" or "fail"; `retryImmediately` resumes with no delay; `retryAfter(d)` resumes after exactly `d`; `giveUp` fails with exactly the given error |
| SchedulerStorageMocks.SchedulerStorageMock.Inject | Accord/Tests/AccordTests/Mocks/SchedulerStorageMock.swift:19-21 | the list is replaced by the injected one |
| SchedulerStorageMocks.SchedulerStorageMock.FlushAll | Accord/Tests/AccordTests/Mocks/SchedulerStorageMock.swift:23-25 | returns the current list and changes nothing |
| SchedulerStorageMocks.SchedulerStorageMock.Append | Accord/Tests/AccordTests/Mocks/SchedulerStorageMock.swift:27-30 | the runnable is added at the end, with no deduplication |
| SchedulerStorageMocks.SchedulerStorageMock.Remove | Accord/Tests/AccordTests/Mocks/SchedulerStorageMock.swift:32-35 | every runnable with the id is deleted and the others keep their order |
| SchedulerStorageMocks.AppendThenRemoveRestores | Accord/Tests/AccordTests/Mocks/SchedulerStorageMock.swift:27-35 | appending a runnable with a fresh id and then removing it restores the original list |
| SchedulerStorageMocks.RemoveCommutesWithOtherAppend | Accord/Tests/AccordTests/Mocks/SchedulerStorageMock.swift:27-35 | removing an id after appending a runnable with another id equals appending after the removal |
| PersistentSchedulers.ConstantEvaluator | Accord/Tests/AccordTests/Mocks/RetryPolicyEvaluatorMock.swift:13-19 | the evaluator mock answers `nextPolicy` to every error and attempt |
| PersistentSchedulers.RetryFrom | Accord/Sources/Accord/Scheduler/PersistentScheduler.swift:139-154 | the retry loop from run k on: run k, then removal on success, evaluation and removal on give-up, evaluation, the resume and the loop from run k+1 on a retry; its properties are `RetryFromShape`, `RetryFromEvaluation`, `RetryFromEvaluationCount` and `RetryEndsWithRemoval` |
| PersistentSchedulers.Retry | Accord/Sources/Accord/Scheduler/PersistentScheduler.swift:139-154 | the retry loop of one runnable, from run 0; its properties are `RetryShape`, `RetryEvaluation`, `RetryEvaluatesEveryFailure` and `RetryRemovesOnceAtEnd`: together, the k-th run's failure, and only a failure, is evaluated with `(error, k)` |
| PersistentSchedulers.RetryFromEvaluationCount | Accord/Sources/Accord/Scheduler/PersistentScheduler.swift:143-147 | from run k on, the evaluator is called once per run, except for a run that completed, which can only be the last |
| PersistentSchedulers.RetryStartsWithFirstRun | Accord/Sources/Accord/Scheduler/PersistentScheduler.swift:140-142 | the loop does nothing exactly when the runnable has no run in the window, and otherwise starts with run 0 |
| PersistentSchedulers.RetryEndsWithRemoval | Accord/Sources/Accord/Scheduler/PersistentScheduler.swift:149-152 | the loop has ended, by success or by give-up, exactly when its last step is the removal from the storage |
| PersistentSchedulers.RunWithRetry | Accord/Sources/Accord/Scheduler/PersistentScheduler.swift:140-148 | the `retryWhen` loop, written as a loop with a zero-based attempt counter, produces exactly the end and the side effects of the retry-loop function `Retry` |
| PersistentSchedulers.RetryShape | Accord/Sources/Accord/Scheduler/PersistentScheduler.swift:143-148 | the runs are numbered 0…n-1; every run but the last failed and was resumed; the loop succeeds iff the last run completed; it gives up iff the evaluator answered `giveUp` to the last run's error, and then ends with exactly that error; it is still running only when every outcome was a resumed failure; the evaluator is called once per run except a completed last run |
| PersistentSchedulers.RetryEvaluation | Accord/Sources/Accord/Scheduler/PersistentScheduler.swift:143-147 | the evaluator's j-th call is about the j-th run, which failed, and receives that run's error and attempt j |
| PersistentSchedulers.RetryEvaluatesEveryFailure | Accord/Sources/Accord/Scheduler/PersistentScheduler.swift:143-147 | the converse: every run k of the loop that failed is evaluated, and the evaluator's k-th call receives that run's error and attempt k |
| PersistentSchedulers.RetryRemovesOnceAtEnd | Accord/Sources/Accord/Scheduler/PersistentScheduler.swift:149-152 | `storage.remove` is called exactly once for a loop that ends (by success or give-up) and never for one still retrying; the removal is always the loop's last step |
| PersistentSchedulers.FirstRunSucceeds | Tests/AccordTests/PersistentSchedulerTests.swift:34-57 | a runnable that succeeds the first time runs once, is never evaluated, and is removed |
| PersistentSchedulers.FailureWithGiveUp | Tests/AccordTests/PersistentSchedulerTests.swift:59-80 | under the default `giveUp` evaluator, a failing runnable runs once, is evaluated once with attempt 0, is removed, and its loop gives up with its error |
| PersistentSchedulers.TwoFailuresThenSuccess | Accord/Sources/Accord/Scheduler/PersistentScheduler.swift:143-148 | under `retryImmediately`, two failures then a success give runs 0, 1, 2, evaluations with attempts 0 and 1, and a single removal |
| PersistentSchedulers.BatchRemovesOnlyLoggedIds | Accord/Sources/Accord/Scheduler/PersistentScheduler.swift:139-154 | after a batch, the storage holds exactly what it held before, minus the runnables whose ids the batch removed |
| PersistentSchedulers.ContainedBatchFinishesEveryMember | Accord/Sources/Accord/Scheduler/PersistentScheduler.swift:28-31 | with the give-up contained, a batch never errors, and every member whose loop ended is gone from the storage |
| PersistentSchedulers.RunBatchSpec | Accord/Sources/Accord/Scheduler/PersistentScheduler.swift:121-154 | a batch only removes from the storage, and only a give-up that propagates errors it |
| PersistentSchedulers.ScheduleSpec | Accord/Sources/Accord/Scheduler/PersistentScheduler.swift:92-96 | a live pipeline accepts the runnable; the pipeline dies on `schedule` only by a count-triggered release whose give-up propagates |
| PersistentSchedulers.FlushSpec | Accord/Sources/Accord/Scheduler/PersistentScheduler.swift:116-126 | the end of a window accepts nothing, empties a live pipeline's buffer, and kills the pipeline only by a give-up that propagates |
| PersistentSchedulers.ReplaySpec | Accord/Sources/Accord/Scheduler/PersistentScheduler.swift:102-108 | with the give-up contained, replay never changes whether the pipeline is alive |
| PersistentSchedulers.ScheduleKeepsInv | Accord/Sources/Accord/Scheduler/PersistentScheduler.swift:116-120 | `schedule` keeps the batching invariant: every accepted runnable is in exactly one batch or in the open buffer, in arrival order; with a positive count, no batch is larger than `maxConcurrentRunnables` and the buffer is smaller than it |
| PersistentSchedulers.FlushKeepsInv | Accord/Sources/Accord/Scheduler/PersistentScheduler.swift:116-120 | the end of a time window keeps the same invariant |
| PersistentSchedulers.ReplayKeepsInv | Accord/Sources/Accord/Scheduler/PersistentScheduler.swift:102-108 | replaying stored runnables keeps the same invariant |
| PersistentSchedulers.ScheduleAppendsFirst | Accord/Sources/Accord/Scheduler/PersistentScheduler.swift:112-120 | the first side effect of `schedule` is the storage append; while the buffer is not full, the storage holds the runnable and the buffer contains it when `schedule` returns |
| PersistentSchedulers.DeadIsFinal | Accord/Sources/Accord/Scheduler/PersistentScheduler.swift:124-126 | once the subscription has errored, schedule, flush and replay change nothing |
| PersistentSchedulers.GiveUpStopsLaterScheduling | Accord/Sources/Accord/Scheduler/PersistentScheduler.swift:124-126 | as written: a give-up in a released batch kills the pipeline, and a runnable scheduled later is neither appended nor run |
| PersistentSchedulers.ContainedGiveUpKeepsScheduling | Accord/Sources/Accord/Scheduler/PersistentScheduler.swift:19-31 | corrected: with the give-up contained, the pipeline stays alive, and the later runnable is appended and accepted |
| PersistentSchedulers.ContainedNeverDies | Accord/Sources/Accord/Scheduler/PersistentScheduler.swift:19-31 | with the give-up contained, a live pipeline stays alive after any schedule or flush |
| PersistentSchedulers.ContainedReplayStaysAlive | Accord/Sources/Accord/Scheduler/PersistentScheduler.swift:25-26 | with the give-up contained, the start-up replay leaves a live pipeline alive |
| PersistentSchedulers.ReplayAcceptsAll | Accord/Sources/Accord/Scheduler/PersistentScheduler.swift:102-108 | replay pushes every stored runnable through `schedule`; while the pipeline is alive, each is accepted again, in stored order |
| PersistentSchedulers.PersistentScheduler.constructor | Accord/Sources/Accord/Scheduler/PersistentScheduler.swift:75-82 | keeps the configuration, storage and evaluator; its state is the replay of everything the storage held, through an empty pipeline; the batching invariant holds |
| PersistentSchedulers.PersistentScheduler.ReadFromStorage | Accord/Sources/Accord/Scheduler/PersistentScheduler.swift:102-108 | the new state is the replay of the storage's list through the pipeline |
| PersistentSchedulers.PersistentScheduler.Schedule | Accord/Sources/Accord/Scheduler/PersistentScheduler.swift:92-96 | the new state is `ScheduleSpec` of the old: appended, buffered, and the batch released at the count; a dead pipeline ignores the runnable |
| PersistentSchedulers.PersistentScheduler.Flush | Accord/Sources/Accord/Scheduler/PersistentScheduler.swift:116-120 | the new state is `FlushSpec` of the old: the buffer is released as a batch and run |
| PersistentSchedulers.PersistentScheduler.ReleaseBuffer | Accord/Sources/Accord/Scheduler/PersistentScheduler.swift:121-126 | the buffer becomes the next batch and runs; the subscription dies iff the batch errored |
| PersistentSchedulers.PersistentScheduler.RunBatch | Accord/Sources/Accord/Scheduler/PersistentScheduler.swift:139-154 | the members run in batch order; the storage, log and error flag are those of `RunBatchSpec`; under `Propagate`, the first give-up disposes of the rest |
| PersistentSchedulers.PersistentScheduler.RunMember | Accord/Sources/Accord/Scheduler/PersistentScheduler.swift:140-152 | one member's retry loop, then its removal from the storage iff the loop ended |
| PersistentSchedulerScenarios.SingleRunSpec | Accord/Sources/Accord/Scheduler/PersistentScheduler.swift:111-128 | one runnable scheduled with a count of 3 stays stored and buffered; the window then runs it alone and settles it |
| PersistentSchedulerScenarios.ReplayTwoSpec | Accord/Sources/Accord/Scheduler/PersistentScheduler.swift:80-81 | replaying two stored runnables appends each of them a second time and buffers both |
| PersistentSchedulerScenarios.InitScenario | Tests/AccordTests/PersistentSchedulerTests.swift:14-32 | the scheduler keeps the configuration it was given |
| PersistentSchedulerScenarios.ExecuteScenario | Tests/AccordTests/PersistentSchedulerTests.swift:34-57 | the storage holds one runnable after `schedule`; after the window, the runnable has run and the storage is empty |
| PersistentSchedulerScenarios.ExecutionFailureScenario | Tests/AccordTests/PersistentSchedulerTests.swift:59-80 | exactly one evaluation, with attempt 0; the storage ends empty; the subscription is dead |
| PersistentSchedulerScenarios.ReplayScenario | Accord/Sources/Accord/Scheduler/PersistentScheduler.swift:75-82 | two stored runnables are stored twice after start-up; after the window, removal by id empties the storage |
| FileSchedulerStorages.VersionNamed | Sources/Accord/Scheduler/FileSchedulerStorage.swift:18-20 | a recognised version string is that version's raw value |
| FileSchedulerStorages.VersionNamedRoundTrip | Sources/Accord/Scheduler/FileSchedulerStorage.swift:18-20 | every version is recognised from its raw value |
| FileSchedulerStorages.Representations | Sources/Accord/Scheduler/FileSchedulerStorage.swift:58 | one representation per runnable, position by position |
| FileSchedulerStorages.FileSchedulerStorage.Write | Sources/Accord/Scheduler/FileSchedulerStorage.swift:99-102 | the file is replaced only when the dictionary is a property list and the disk accepts it; the dropped Bool says which |
| FileSchedulerStorages.FileSchedulerStorage.ReadRaw | Sources/Accord/Scheduler/FileSchedulerStorage.swift:64-84 | a missing file is first written with an empty list; then the file is checked and its raw items returned, or the error |
| FileSchedulerStorages.FileSchedulerStorage.Read | Sources/Accord/Scheduler/FileSchedulerStorage.swift:86-89 | the raw items are decoded by the factory, and undecodable ones are skipped |
| FileSchedulerStorages.FileSchedulerStorage.FlushAll | Sources/Accord/Scheduler/FileSchedulerStorage.swift:38-47 | a vanished storage yields `[]` and touches nothing; otherwise `read`, with its errors propagated |
| FileSchedulerStorages.FileSchedulerStorage.Append | Sources/Accord/Scheduler/FileSchedulerStorage.swift:49-53 | the raw items plus the new representation are written back; a read error is returned unchanged |
| FileSchedulerStorages.FileSchedulerStorage.Remove | Sources/Accord/Scheduler/FileSchedulerStorage.swift:55-59 | the decoded runnables without the id are written back as representations; a read error is returned unchanged |
| FileSchedulerStorages.MakeStorageDictionary | Sources/Accord/Scheduler/FileSchedulerStorage.swift:91-97 | the dictionary has exactly the keys `items`, `lastSaved` and `version`; `items` is the argument and `lastSaved` is the clock's time |
| FileSchedulerStorages.WritableIffRawValue | Sources/Accord/Scheduler/FileSchedulerStorage.swift:91-102 | the dictionary is a property list, and so can be written, iff the version is stamped with its raw value |
| FileSchedulerStorages.ParseRaw | Sources/Accord/Scheduler/FileSchedulerStorage.swift:69-81 | the checks `readRaw` makes on an existing file; an answer it accepts is the `items` entry of a dictionary |
| FileSchedulerStorages.ReadRawEffect | Sources/Accord/Scheduler/FileSchedulerStorage.swift:64-84 | `readRaw` answers with the parse of the file it leaves; only a missing file is touched, and only to become a dictionary |
| FileSchedulerStorages.ReadEffect | Sources/Accord/Scheduler/FileSchedulerStorage.swift:86-89 | `read` leaves the file as `readRaw` left it, fails exactly when `readRaw` does and with its error, and otherwise yields no more runnables than raw items |
| FileSchedulerStorages.AppendEffect | Sources/Accord/Scheduler/FileSchedulerStorage.swift:49-53 | a failed `append` reports the read's error; a file it changes reads back items ending with the new representation |
| FileSchedulerStorages.RemoveEffect | Sources/Accord/Scheduler/FileSchedulerStorage.swift:55-59 | a failed `remove` reports the read's error; a file it changes reads back no more items than the read returned |
| FileSchedulerStorages.ParseRawAccepts | Sources/Accord/Scheduler/FileSchedulerStorage.swift:69-76 | `readRaw` succeeds iff the root is a dictionary, `version` is a string naming a known version, and `items` is a list of dictionaries; those items are its answer |
| FileSchedulerStorages.NoMigrationError | Sources/Accord/Scheduler/FileSchedulerStorage.swift:77-81 | with a single known version, `unsupportedMigration` is never thrown |
| FileSchedulerStorages.ReadLeavesExistingFile | Sources/Accord/Scheduler/FileSchedulerStorage.swift:64-89 | reading an existing file never changes it, and yields the decodable runnables in stored order |
| FileSchedulerStorages.MissingFileStartsEmpty | Sources/Accord/Scheduler/FileSchedulerStorage.swift:65-67 | for every stamp and disk answer: a missing file is handed to `write` with an empty list, and the read parses whatever that write leaves; as written, or on a refusing disk, the file stays missing and the read fails with `unreadableStorage`; corrected (raw-value stamp, accepting disk): the file reads back as empty |
| FileSchedulerStorages.AppendKeepsRawItems | Sources/Accord/Scheduler/FileSchedulerStorage.swift:49-53 | for every stamp and disk answer: after a successful read, `append` hands `write` every raw item, undecodable ones included, with the new one at the end, and reports success; as written, or on a refusing disk, the file is left as the read left it; corrected: the file reads back exactly those items |
| FileSchedulerStorages.AppendFailsWithRead | Sources/Accord/Scheduler/FileSchedulerStorage.swift:49-53 | `append` fails exactly when the read fails, with the read's error |
| FileSchedulerStorages.Compacted | Sources/Accord/Scheduler/FileSchedulerStorage.swift:56-58 | the list `remove` writes: decoded, filtered by id, encoded again |
| FileSchedulerStorages.RemoveCompacts | Sources/Accord/Scheduler/FileSchedulerStorage.swift:55-59 | for every stamp and disk answer: after a successful read, `remove` hands `write` the decodable runnables minus every one with the id, so undecodable representations are dropped, and reports success; as written, or on a refusing disk, the file is left as the read left it; corrected: the file reads back exactly that list |
| FileSchedulerStorages.DecodeRepresentations | Sources/Accord/Scheduler/FileSchedulerStorage.swift:86-89 | a factory that decodes each runnable from its own representation gives back the whole list |
| FileSchedulerStorages.RemoveIdempotent | Sources/Accord/Scheduler/FileSchedulerStorage.swift:55-59 | for every stamp and disk answer, on an existing readable file: a second `remove` of the same id succeeds and leaves the file reading as the first left it, provided the factory decodes every runnable it produced from that runnable's own representation (corrected: by rewriting the same items; as written: because neither removal changes the file) |
| FileSchedulerStorages.EnumStampNeverWritten | Sources/Accord/Scheduler/FileSchedulerStorage.swift:91-102 | as written: the enum stamp makes every write a no-op, so a missing file stays missing, `readRaw` fails with `unreadableStorage`, and `append` fails |
| FileSchedulerStorages.RawValueStampReadsBack | Sources/Accord/Scheduler/FileSchedulerStorage.swift:69-97 | corrected: stamped with the raw value, the dictionary is a property list, is written, and reads back exactly its items |
| Contents.WithoutContentIdMembers | Tests/AccordTests/Mocks/LocalStorageMock.swift:41 | a removal by id keeps exactly the contents with another id |
| LocalStorageMocks.Performed | Tests/AccordTests/Mocks/LocalStorageMock.swift:33-48 | the list a perform leaves: at most one item longer, and, for every action but `delete`, ending with the content |
| LocalStorageMocks.LocalStorageMock.CurrentContent | Tests/AccordTests/Mocks/LocalStorageMock.swift:20-22 | returns the list accepted by the last successful perform |
| LocalStorageMocks.LocalStorageMock.Perform | Tests/AccordTests/Mocks/LocalStorageMock.swift:30-51 | content of another type fails with `invalidType` and changes nothing; otherwise the new list replaces the old |
| LocalStorageMocks.InsertAppends | Tests/AccordTests/Mocks/LocalStorageMock.swift:37-38 | `insert` adds the content at the end and keeps every earlier item, even one with the same id |
| LocalStorageMocks.ReplaceLeavesOne | Tests/AccordTests/Mocks/LocalStorageMock.swift:39-42 | after `update` or `sync`, exactly one item has the id: the content, at the end |
| LocalStorageMocks.DeleteRemovesAll | Tests/AccordTests/Mocks/LocalStorageMock.swift:43-46 | after `delete`, the items are exactly those with another id |
| LocalStorageMocks.OthersKeepOrder | Tests/AccordTests/Mocks/LocalStorageMock.swift:39-46 | apart from the content's id, `update`, `sync` and `delete` leave the list unchanged, order included |
| RemoteProviderMocks.FirstIndex | Tests/AccordTests/Mocks/RemoteProviderMock.swift:58 | `firstIndex(where:)` finds the first position with the id, or reports that there is none |
| RemoteProviderMocks.NewContent | Tests/AccordTests/Mocks/RemoteProviderMock.swift:38-65 | the list a provider runnable will install: none exactly for `sync`; `insert` is one item longer, `update` keeps the length, `delete` never grows the list |
| RemoteProviderMocks.ObservedChange | Tests/AccordTests/Mocks/RemoteProviderMock.swift:31-33 | the one change the mock reports: a `sync` with neither content |
| RemoteProviderMocks.RemoteProviderMock.Inject | Tests/AccordTests/Mocks/RemoteProviderMock.swift:21-23 | appends the content to the relay's list |
| RemoteProviderMocks.RemoteProviderMock.Objects | Tests/AccordTests/Mocks/RemoteProviderMock.swift:25-29 | returns the relay's current list |
| RemoteProviderMocks.RemoteProviderMock.PerformAction | Tests/AccordTests/Mocks/RemoteProviderMock.swift:35-66 | content of another type fails with `invalidType`; `sync` never emits; the other actions emit a runnable with the list computed from the relay now, and change nothing |
| RemoteProviderMocks.RemoteProviderMock.Run | Tests/AccordTests/Mocks/RemoteProviderMock.swift:81-86 | the relay takes the list computed when the runnable was made |
| RemoteProviderMocks.UpdateReplacesFirst | Tests/AccordTests/Mocks/RemoteProviderMock.swift:53-62 | `update` replaces the first item with the id and nothing else; without such an item, the list is unchanged |
| RemoteProviderMocks.DeleteAndInsertContents | Tests/AccordTests/Mocks/RemoteProviderMock.swift:39-52 | `delete` keeps exactly the items with another id; `insert` appends the content to the unchanged list |
| DataChangeCalculators.ActionFor | Sources/Accord/Data/DataChangeCalculator.swift:13-26 | each change type is answered with the storage action of the same name (see `ActionForIsOneToOne`) |
| DataChangeCalculators.WriteFor | Sources/Accord/Data/DataChangeCalculator.swift:12-27 | a write happens iff the needed payload is there (`old` for `delete`, `current` otherwise); its action is named after the change type, and it carries that payload |
| DataChangeCalculators.Compute | Sources/Accord/Data/DataChangeCalculator.swift:12-27 | without its payload, a change completes and writes nothing; otherwise the one write is performed on the local storage and its outcome returned |
| DataChangeCalculators.ActionForIsOneToOne | Sources/Accord/Data/DataChangeCalculator.swift:13-26 | distinct change types ask for distinct actions, and every action is asked for by some change type |
| DataChangeCalculators.ObservedChangeWritesNothing | Tests/AccordTests/Mocks/RemoteProviderMock.swift:31-33 | the change the provider mock reports has no content, so it writes nothing |
| AccordDataManagers.StaticRunnablesMock.Schedule | Accord/Tests/AccordTests/Mocks/StaticRunnablesMock.swift:14-16 | the runnable is appended to the list |
| AccordDataManagers.AccordDataManager.constructor | Sources/Accord/Data/AccordDataManager.swift:49-51 | keeps the scheduler; no entity is registered |
| AccordDataManagers.AccordDataManager.Register | Sources/Accord/Data/AccordDataManager.swift:57-61 | the entity is stored under its id, replacing any entity with that id |
| AccordDataManagers.ActionSpec | Sources/Accord/Data/AccordDataManager.swift:157-169 | an action schedules at most one runnable, and only when the entity has a provider; a failed local write leaves the list and schedules nothing |
| AccordDataManagers.AccordDataManager.Action | Sources/Accord/Data/AccordDataManager.swift:157-169 | the local write comes first; only if it succeeds and a provider exists is a runnable requested and, once emitted, scheduled; the result is `ActionSpec` |
| AccordDataManagers.Lookup | Sources/Accord/Data/AccordDataManager.swift:132-145 | the lookup succeeds iff the manager is alive and the id is registered, and then yields that entity; otherwise `deallocatedInstance` or `unknownEntity`, in that order |
| AccordDataManagers.AccordDataManager.Operation | Sources/Accord/Data/AccordDataManager.swift:91-145 | the lookup (132-145), then the `flatMapCompletable` of `add`, `update` and `remove` (91-122): a failed lookup (deallocated manager, unknown id) is the result, and nothing changes; otherwise the action runs on the entity found, and no other entity's storage changes |
| AccordDataManagers.AccordDataManager.Add | Sources/Accord/Data/AccordDataManager.swift:91-94 | lookup, then the action with `.insert`; a failed lookup changes no storage, and a successful one changes no storage but the entity's own |
| AccordDataManagers.AccordDataManager.Update | Sources/Accord/Data/AccordDataManager.swift:105-108 | lookup, then the action with `.update`; the same frame as `add` |
| AccordDataManagers.AccordDataManager.Remove | Sources/Accord/Data/AccordDataManager.swift:119-122 | lookup, then the action with `.delete`; the same frame as `add` |
| AccordDataManagers.RegisteredKeys | Sources/Accord/Data/AccordDataManager.swift:57-61 | after a series of registrations, there is one entry per distinct id, mapped to the entity last registered with it |
| AccordDataManagers.RegisteredKeepsUnmentioned | Sources/Accord/Data/AccordDataManager.swift:57-61 | registrations under other ids leave an entry alone |
| AccordDataManagers.RegisterThenLookup | Sources/Accord/Data/AccordDataManager.swift:132-145 | right after registering, the lookup finds the entity unless the manager is gone; other ids answer as before |
| AccordDataManagers.LocalWriteFirst | Sources/Accord/Data/AccordDataManager.swift:157-169 | a failed local write is the result and schedules nothing; a successful one decides the local list whatever the provider does |
| AccordDataManagers.OneRunnablePerOperation | Sources/Accord/Data/AccordDataManager.swift:161-164 | a successful add, update or remove schedules exactly one runnable when the entity has a provider, and none otherwise |
| AccordDataManagers.AsWrittenRemoveReinserts | Sources/Accord/Data/AccordDataManager.swift:161 | as written: the provider is asked for `.insert`, so the runnable a `remove` schedules puts the removed object into the remote list |
| AccordDataManagers.SameActionRemoveDeletes | Sources/Accord/Data/AccordDataManager.swift:147-150 | corrected: with the operation's own action, the runnable a `remove` schedules leaves no item with the id remotely, as locally |
| AccordDataManagerScenarios.RegisterScenario | Tests/AccordTests/AccordDataManagerTests.swift:25-36 | one registered entity gives one entry |
| AccordDataManagerScenarios.UnknownEntityScenario | Tests/AccordTests/AccordDataManagerTests.swift:38-53 | with nothing registered, the lookup fails at once with `unknownEntity` |
| AccordDataManagerScenarios.AddScenario | Tests/AccordTests/AccordDataManagerTests.swift:115-139 | `add` completes; the object is local; one runnable is scheduled |
| AccordDataManagerScenarios.UpdateScenario | Tests/AccordTests/AccordDataManagerTests.swift:141-172 | after add and update, the local list is exactly the updated object, and two runnables are scheduled |
| AccordDataManagerScenarios.RemoveScenario | Tests/AccordTests/AccordDataManagerTests.swift:174-203 | after add and remove, the object is gone locally and two runnables are scheduled; the second would put the object back remotely |
| AccordDataManagerScenarios.SnapshotScenario | Tests/AccordTests/Mocks/RemoteProviderMock.swift:81-86 | a provider runnable installs its snapshot over injected content, and the last one run wins |

## Left out

- Concurrency is sequentialised. This covers the dispatch queues, `queue.sync`, `observeOn`, `subscribeOn`, the entity's `scheduler`, and the concurrent run of a batch's members. Members run in batch order, and each retry loop runs to its end before the next member starts.
- PersistentSchedulers.ScheduleAppendsFirst: states that the storage holds the runnable when `schedule` returns only while the buffer is not full. In the source, `schedule` is wrapped in `queue.sync` (PersistentScheduler.swift:93), and the pipeline delivers on a serial scheduler (lines 51-53 and 142). When the count is reached inside `queue.sync`, `buffer` emits at once and `flatMap(Completable.zip)` (line 124) subscribes every member, so each member's first `run()` happens inside `schedule`. Only what follows `observeOn(scheduler)` (line 142) is deferred: the run's outcome, the evaluation, any retry and `storage.remove`. So the runnable is still stored when `schedule` returns, for every count. The model runs the whole batch, removals included, inside `Schedule`, so with a count of 1 the runnable may already be removed on return.
- PersistentSchedulers.PersistentScheduler.RunBatch: under `Propagate`, the members after the first give-up never run in the model. In the source, `Completable.zip` (PersistentScheduler.swift:139-154) subscribes to every member before any finishes. Their first `run()` and its side effects can therefore happen, and a member disposed before its loop ended also stays in the storage. The model records neither the runs of those members nor their interleaving with the failing one.
- PersistentSchedulers.RunBatchSpec: the function that specifies `RunBatch` has the same gap. Under `Propagate` the members after the first give-up are neither run nor logged, although in the source `Completable.zip` has already subscribed their first `run()` (PersistentScheduler.swift:124 and 139-154).
- Wall-clock time is not modelled. The end of the buffer's window is the explicit `Flush` event. The delay of `retryAfter` is recorded, not waited for. In RxSwift a window of an empty buffer releases an empty batch; the model does the same.
- The scheduler is modelled over the in-memory `SchedulerStorageMock`, as in its tests. A storage whose `append` or `remove` throws inside a `do` block is not modelled. The file storage is modelled on its own.
- `observeObjects(forContentType:inEntity:)` and `observe(entity:forObjectsOfType:)` are not modelled. Neither are the mocks' `observeObjects`, beyond the one change the provider mock reports. These are streaming plumbing. `observe` also calls `refreshFromRemote`, which the `LocalStorage` protocol does not declare.
- JSON or `Codable` encoding of representations, and UUID generation, are not modelled. A representation is an opaque map, and `freshId` is the new runnable's id.
- File I/O is abstracted. `FileManager`, `NSDictionary` encoding and `Date()` are abstract: the file is a value, and `now` and `diskOk` are parameters.
- Deallocation through `[weak self]` is one `alive` flag per call. For the file storage this is the flag passed to `FlushAll`.
- `readFromStorage` delivers the stored runnables through `observeOn(scheduler)` (PersistentScheduler.swift:104), that is asynchronously. Nothing orders that delivery after `observeRunnables()` subscribes (line 81). If it came first, the subject would drop every replayed runnable. The model assumes the subscription comes first, and replays the runnables inside the constructor, before any later `schedule`.
- A retry that happens after a runnable's `script` is exhausted is outside the modelled window. Such a runnable is neither removed nor finished.
- The older `Accord/` copies of the data manager, the protocols and the mocks are not part of this model. Neither are protocol-only declarations, `register(entity:for:)`, `Constants.swift` or `Package.swift`.
- `ExpectableRunnable` and `FailingRunnable` appear only as runnables with the scripts `[Completed]` and `[Failed(…)]`. `RetryPolicyEvaluatorMock` appears only as a constant evaluator.

## Findings

| source | as written | input that shows it | evidently intended | confidence | as-written member | corrected member |
|---|---|---|---|---|---|---|
| Accord/Sources/Accord/Scheduler/PersistentScheduler.swift:124-126 | `do(onError:)` only observes a give-up error, so the error reaches `Completable.zip` and `flatMap` and ends the scheduler's only subscription | count 1, a runnable whose first run fails, the default `giveUp` evaluator, then any later runnable | its documentation (lines 28-31): a cancelled runnable is removed and the scheduler goes on running later runnables | not executed | PersistentSchedulers.GiveUpStopsLaterScheduling | PersistentSchedulers.ContainedGiveUpKeepsScheduling |
| Sources/Accord/Scheduler/FileSchedulerStorage.swift:95 | `makeStorageDictionary` stores the enum `StorageVersion.v1_0_0` itself, which is no property-list object, so `NSDictionary.write` writes nothing; the Bool it returns is discarded (lines 100-101) | a fresh storage (no file), then `append(runnable:)` with any runnable | store the raw value `"1.0.0"`, which `readRaw` (line 71) expects, so that the file is created and reads back its items | not executed | FileSchedulerStorages.EnumStampNeverWritten | FileSchedulerStorages.RawValueStampReadsBack |
| Sources/Accord/Data/AccordDataManager.swift:161 | the remote provider is always asked for `.insert`, whatever the operation | `remove` of an object on an entity with a remote provider | its documentation (lines 147-150): schedule the same action on the remote provider | not executed | AccordDataManagers.AsWrittenRemoveReinserts | AccordDataManagers.SameActionRemoveDeletes |

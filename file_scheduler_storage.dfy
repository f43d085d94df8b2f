/** The scheduler storage kept in a property-list file
    (Sources/Accord/Scheduler/FileSchedulerStorage.swift).

    The file is an abstract value: missing, present but not a dictionary, or a
    dictionary of property-list values. Every operation reads the whole list of
    runnable representations, changes it and writes the whole dictionary back.
    The clock (`Date()`) and the outcome of the disk write are parameters:
    `now` and `diskOk`. Whatever `NSDictionary.write(toFile:atomically:)`
    answers is discarded by the code, so a write can fail without anyone
    noticing. */
module FileSchedulerStorages {
  import opened Common
  import opened Runnables

  datatype StorageVersion = V1_0_0

  /** `FileSchedulerStorage.storageVersion`. */
  const CurrentVersion: StorageVersion := V1_0_0

  function RawValue(v: StorageVersion): string
  {
    match v case V1_0_0 => "1.0.0"
  }

  /** `StorageVersion(rawValue:)`. */
  function VersionNamed(s: string): (v: Option<StorageVersion>)
    ensures v.Some? ==> RawValue(v.value) == s
  {
    if s == RawValue(V1_0_0) then Some(V1_0_0) else None
  }

  /** Every version is recognised by its raw value. */
  lemma VersionNamedRoundTrip(w: StorageVersion)
    ensures VersionNamed(RawValue(w)) == Some(w)
  {
    match w
    case V1_0_0 =>
  }

  /** The `StorageKey` raw values. */
  const ItemsKey := "items"
  const LastSavedKey := "lastSaved"
  const VersionKey := "version"

  /** A value in the file's dictionary. `Boxed` is a Swift enum value placed in
      the dictionary as it is: it is no property-list object, so a dictionary
      holding one cannot be written. `Other` is any property-list value of a shape
      the storage does not expect (a number, an array of non-dictionaries, …). */
  datatype PlistValue =
    | PString(text: string)
    | PDate(time: nat)
    | PItems(items: seq<Representation>)
    | Boxed(version: StorageVersion)
    | Other

  datatype StoredFile = Missing | NotADictionary | Dictionary(entries: map<string, PlistValue>)

  datatype StorageError = UnreadableStorage | UnsupportedMigration(toVersion: StorageVersion)

  /** How `makeStorageDictionary` stamps the version: with the enum itself (the
      code as written) or with its raw value (what `readRaw` expects). */
  datatype VersionStamp = EnumValue | RawValueString

  /** `RunnableFactoryType.make(fromRepresentation:)`. */
  type RunnableFactory = Representation -> Option<Runnable>

  /** `makeStorageDictionary(items:)`. */
  function MakeStorageDictionary(items: seq<Representation>, now: nat, stamp: VersionStamp): (d: map<string, PlistValue>)
    // exactly the three keys, with the items given and the clock's time
    ensures d.Keys == {ItemsKey, LastSavedKey, VersionKey}
    ensures d[ItemsKey] == PItems(items) && d[LastSavedKey] == PDate(now)
  {
    map[ItemsKey := PItems(items), LastSavedKey := PDate(now),
        VersionKey := if stamp == EnumValue then Boxed(CurrentVersion) else PString(RawValue(CurrentVersion))]
  }

  /** Only property-list objects can be written to a property-list file. */
  predicate IsPropertyList(d: map<string, PlistValue>)
  {
    forall k :: k in d ==> !d[k].Boxed?
  }

  /** The file after `write(toFile:atomically:)`: replaced when the dictionary is
      a property list and the disk accepts it, left as it was otherwise. */
  function WriteOutcome(file: StoredFile, d: map<string, PlistValue>, diskOk: bool): StoredFile
  {
    if diskOk && IsPropertyList(d) then Dictionary(d) else file
  }

  /** The checks of `readRaw` on whatever the file holds once it exists. */
  function ParseRaw(file: StoredFile): (r: Result<seq<Representation>, StorageError>)
    ensures r.Ok? ==> file.Dictionary? && ItemsKey in file.entries && file.entries[ItemsKey] == PItems(r.value)
  {
    match file
    case Dictionary(d) =>
      if && VersionKey in d && d[VersionKey].PString? && VersionNamed(d[VersionKey].text).Some?
         && ItemsKey in d && d[ItemsKey].PItems?
      then
        var version := VersionNamed(d[VersionKey].text).value;
        if version == CurrentVersion then Ok(d[ItemsKey].items) else Err(UnsupportedMigration(version))
      else Err(UnreadableStorage)
    case _ => Err(UnreadableStorage)
  }

  /** `runnables.map { $0.toRepresentation() }`. */
  function Representations(rs: seq<Runnable>): (reps: seq<Representation>)
    ensures |reps| == |rs| && forall i :: 0 <= i < |rs| ==> reps[i] == rs[i].representation
  {
    if rs == [] then [] else [rs[0].representation] + Representations(rs[1..])
  }

  /** What an operation leaves in the file, and what it returns. */
  datatype Effect<T> = Effect(file: StoredFile, result: T)

  /** `readRaw()`: a missing file is first written with an empty list, then the
      file is read and checked. */
  function ReadRawEffect(file: StoredFile, now: nat, diskOk: bool, stamp: VersionStamp)
    : (e: Effect<Result<seq<Representation>, StorageError>>)
    // the answer is the parse of the file the read leaves
    ensures e.result == ParseRaw(e.file)
    // only a missing file is touched, and only to become a dictionary
    ensures !file.Missing? ==> e.file == file
    ensures e.file == file || e.file.Dictionary?
  {
    var prepared := if file.Missing? then WriteOutcome(file, MakeStorageDictionary([], now, stamp), diskOk) else file;
    Effect(prepared, ParseRaw(prepared))
  }

  /** `read()`: the raw items decoded by the factory; undecodable ones are skipped. */
  function ReadEffect(file: StoredFile, now: nat, diskOk: bool, stamp: VersionStamp, factory: RunnableFactory)
    : (e: Effect<Result<seq<Runnable>, StorageError>>)
    // the file `readRaw` leaves; its error, or no more runnables than raw items
    ensures var raw := ReadRawEffect(file, now, diskOk, stamp);
      && e.file == raw.file
      && (e.result.Err? <==> raw.result.Err?)
      && (raw.result.Err? ==> e.result.error == raw.result.error)
      && (raw.result.Ok? ==> |e.result.value| <= |raw.result.value|)
  {
    var raw := ReadRawEffect(file, now, diskOk, stamp);
    Effect(raw.file, match raw.result case Ok(items) => Ok(CompactMap(items, factory)) case Err(e) => Err(e))
  }

  /** `append(runnable:)`: the raw items, undecodable ones included, plus the new
      representation at the end. */
  function AppendEffect(file: StoredFile, runnable: Runnable, now: nat, diskOk: bool, stamp: VersionStamp)
    : (e: Effect<Outcome<StorageError>>)
    // a failed append reports the read's error; a file it changes becomes a dictionary whose items end with the new one
    ensures e.result.Fail? ==> ReadRawEffect(file, now, diskOk, stamp).result == Err(e.result.error)
    ensures e.file == ReadRawEffect(file, now, diskOk, stamp).file
         || (e.file.Dictionary? && ParseRaw(e.file).Ok? && |ParseRaw(e.file).value| > 0
             && ParseRaw(e.file).value[|ParseRaw(e.file).value| - 1] == runnable.representation)
  {
    var raw := ReadRawEffect(file, now, diskOk, stamp);
    match raw.result
    case Err(e) => Effect(raw.file, Fail(e))
    case Ok(items) =>
      Effect(WriteOutcome(raw.file, MakeStorageDictionary(items + [runnable.representation], now, stamp), diskOk), Pass)
  }

  /** `remove(runnable:)`: the decoded runnables without the runnable's id,
      written back as representations. */
  function RemoveEffect(file: StoredFile, runnable: Runnable, now: nat, diskOk: bool, stamp: VersionStamp,
                        factory: RunnableFactory): (e: Effect<Outcome<StorageError>>)
    // a failed remove reports the read's error; a file it changes reads back no more items than it held
    ensures e.result.Fail? ==> ReadRawEffect(file, now, diskOk, stamp).result == Err(e.result.error)
    ensures var raw := ReadRawEffect(file, now, diskOk, stamp);
      e.file == raw.file || (raw.result.Ok? && ParseRaw(e.file).Ok? && |ParseRaw(e.file).value| <= |raw.result.value|)
  {
    var decoded := ReadEffect(file, now, diskOk, stamp, factory);
    match decoded.result
    case Err(e) => Effect(decoded.file, Fail(e))
    case Ok(rs) =>
      var kept := WithoutId(rs, runnable.id);
      Effect(WriteOutcome(decoded.file, MakeStorageDictionary(Representations(kept), now, stamp), diskOk), Pass)
  }

  class FileSchedulerStorage {
    const factory: RunnableFactory
    const stamp: VersionStamp
    /** What is on disk at `fileURL`. */
    var file: StoredFile

    constructor (file: StoredFile, factory: RunnableFactory, stamp: VersionStamp)
      ensures this.file == file && this.factory == factory && this.stamp == stamp
    {
      this.file := file;
      this.factory := factory;
      this.stamp := stamp;
    }

    /** `write(items:)`; `written` is the Bool that the code drops. */
    method Write(items: seq<Representation>, now: nat, diskOk: bool) returns (written: bool)
      modifies this
      ensures written == (diskOk && IsPropertyList(MakeStorageDictionary(items, now, stamp)))
      ensures file == WriteOutcome(old(file), MakeStorageDictionary(items, now, stamp), diskOk)
    {
      var d := MakeStorageDictionary(items, now, stamp);
      written := diskOk && IsPropertyList(d);
      if written {
        file := Dictionary(d);
      }
    }

    method ReadRaw(now: nat, diskOk: bool) returns (r: Result<seq<Representation>, StorageError>)
      modifies this
      ensures var e := ReadRawEffect(old(file), now, diskOk, stamp); file == e.file && r == e.result
    {
      if file.Missing? {
        var written := Write([], now, diskOk);
      }
      r := ParseRaw(file);
    }

    method Read(now: nat, diskOk: bool) returns (r: Result<seq<Runnable>, StorageError>)
      modifies this
      ensures var e := ReadEffect(old(file), now, diskOk, stamp, factory); file == e.file && r == e.result
    {
      var raw := ReadRaw(now, diskOk);
      match raw
      case Err(e) => r := Err(e);
      case Ok(items) => r := Ok(CompactMap(items, factory));
    }

    /** `flushAll()`; `alive` is false when the storage was deallocated before the
        deferred read ran, which then yields an empty list. */
    method FlushAll(alive: bool, now: nat, diskOk: bool) returns (r: Result<seq<Runnable>, StorageError>)
      modifies this
      ensures !alive ==> r == Ok([]) && file == old(file)
      ensures alive ==> var e := ReadEffect(old(file), now, diskOk, stamp, factory); file == e.file && r == e.result
    {
      if !alive {
        return Ok([]);
      }
      r := Read(now, diskOk);
    }

    method Append(runnable: Runnable, now: nat, diskOk: bool) returns (r: Outcome<StorageError>)
      modifies this
      ensures var e := AppendEffect(old(file), runnable, now, diskOk, stamp); file == e.file && r == e.result
    {
      var raw := ReadRaw(now, diskOk);
      if raw.Err? {
        return Fail(raw.error);
      }
      var items := raw.value;
      items := items + [runnable.representation];
      var written := Write(items, now, diskOk);
      r := Pass;
    }

    method Remove(runnable: Runnable, now: nat, diskOk: bool) returns (r: Outcome<StorageError>)
      modifies this
      ensures var e := RemoveEffect(old(file), runnable, now, diskOk, stamp, factory); file == e.file && r == e.result
    {
      var decoded := Read(now, diskOk);
      if decoded.Err? {
        return Fail(decoded.error);
      }
      var items := decoded.value;
      items := WithoutId(items, runnable.id);
      var written := Write(Representations(items), now, diskOk);
      r := Pass;
    }
  }

  // ---------------------------------------------------------------------------
  // Properties
  // ---------------------------------------------------------------------------

  /** A dictionary built by `makeStorageDictionary` can be written exactly when
      the version is stamped with its raw value. */
  lemma WritableIffRawValue(items: seq<Representation>, now: nat, stamp: VersionStamp)
    ensures IsPropertyList(MakeStorageDictionary(items, now, stamp)) <==> stamp == RawValueString
  {
    var d := MakeStorageDictionary(items, now, stamp);
    if stamp == EnumValue {
      assert d[VersionKey].Boxed?;
    }
  }

  /** `readRaw` answers with the items exactly when the file is a dictionary whose
      `version` is a string naming a known version and whose `items` is a list
      of dictionaries; any other shape is `unreadableStorage`. */
  lemma ParseRawAccepts(file: StoredFile)
    ensures ParseRaw(file).Ok? <==>
      (&& file.Dictionary? && VersionKey in file.entries && file.entries[VersionKey].PString?
       && VersionNamed(file.entries[VersionKey].text).Some?
       && ItemsKey in file.entries && file.entries[ItemsKey].PItems?)
    ensures ParseRaw(file).Ok? ==> ParseRaw(file).value == file.entries[ItemsKey].items
  {
    if file.Dictionary? {
      var d := file.entries;
      if VersionKey in d && d[VersionKey].PString? && VersionNamed(d[VersionKey].text).Some? {
        assert VersionNamed(d[VersionKey].text).value == CurrentVersion;
      }
    }
  }

  /** With a single known version, `unsupportedMigration` is never thrown: every
      error of `readRaw` is `unreadableStorage`. */
  lemma NoMigrationError(file: StoredFile, now: nat, diskOk: bool, stamp: VersionStamp)
    ensures var r := ReadRawEffect(file, now, diskOk, stamp).result;
      r.Err? ==> r.error == UnreadableStorage
  {
    var prepared := ReadRawEffect(file, now, diskOk, stamp).file;
    if prepared.Dictionary? {
      var d := prepared.entries;
      if VersionKey in d && d[VersionKey].PString? && VersionNamed(d[VersionKey].text).Some? {
        assert VersionNamed(d[VersionKey].text).value == CurrentVersion;
      }
    }
  }

  /** A file that exists is only read: `readRaw`, `read` and so `flushAll` leave
      it as it is, and `read` yields the decodable runnables in stored order. */
  lemma ReadLeavesExistingFile(file: StoredFile, now: nat, diskOk: bool, stamp: VersionStamp, factory: RunnableFactory)
    requires !file.Missing?
    ensures ReadRawEffect(file, now, diskOk, stamp) == Effect(file, ParseRaw(file))
    ensures var e := ReadEffect(file, now, diskOk, stamp, factory);
      && e.file == file
      && (e.result.Ok? <==> ParseRaw(file).Ok?)
      && (e.result.Ok? ==> e.result.value == CompactMap(ParseRaw(file).value, factory))
  {
  }

  /** Corrected: a dictionary stamped with the raw value is a property list, so it
      is written, and `readRaw` gives back exactly the items it was written with. */
  lemma RawValueStampReadsBack(file: StoredFile, items: seq<Representation>, now: nat)
    ensures var d := MakeStorageDictionary(items, now, RawValueString);
      && IsPropertyList(d)
      && WriteOutcome(file, d, true) == Dictionary(d)
      && ParseRaw(Dictionary(d)) == Ok(items)
  {
    var d := MakeStorageDictionary(items, now, RawValueString);
    assert d[VersionKey] == PString("1.0.0");
    assert VersionNamed("1.0.0") == Some(V1_0_0);
  }

  /** As written: the stamped enum is no property-list object, so no write ever
      reaches the disk. A missing file therefore stays missing, `readRaw` fails
      with `unreadableStorage`, and `append` on a fresh storage fails. */
  lemma EnumStampNeverWritten(file: StoredFile, items: seq<Representation>, now: nat, diskOk: bool, runnable: Runnable)
    ensures WriteOutcome(file, MakeStorageDictionary(items, now, EnumValue), diskOk) == file
    ensures ReadRawEffect(Missing, now, diskOk, EnumValue) == Effect(Missing, Err(UnreadableStorage))
    ensures AppendEffect(Missing, runnable, now, diskOk, EnumValue) == Effect(Missing, Fail(UnreadableStorage))
  {
    var d := MakeStorageDictionary(items, now, EnumValue);
    assert d[VersionKey].Boxed?;
    var empty := MakeStorageDictionary([], now, EnumValue);
    assert empty[VersionKey].Boxed?;
  }

  /** A missing file is handed to `write` with an empty list before it is read,
      and `readRaw` answers with whatever that leaves. The write lands only with
      the raw-value stamp on a disk that accepts it, and the file then reads as
      empty; as written (enum stamp), or on a refusing disk, the file stays
      missing and `readRaw` fails with `unreadableStorage`. */
  lemma MissingFileStartsEmpty(now: nat, diskOk: bool, stamp: VersionStamp)
    ensures var e := ReadRawEffect(Missing, now, diskOk, stamp);
      && e.file == WriteOutcome(Missing, MakeStorageDictionary([], now, stamp), diskOk)
      && e.result == ParseRaw(e.file)
    ensures stamp == RawValueString && diskOk ==>
      ReadRawEffect(Missing, now, diskOk, stamp) == Effect(Dictionary(MakeStorageDictionary([], now, stamp)), Ok([]))
    ensures !(stamp == RawValueString && diskOk) ==>
      ReadRawEffect(Missing, now, diskOk, stamp) == Effect(Missing, Err(UnreadableStorage))
  {
    if stamp == RawValueString {
      RawValueStampReadsBack(Missing, [], now);
    } else {
      EnumStampNeverWritten(Missing, [], now, diskOk, Runnable("", [], map[]));
    }
  }

  /** `append` hands `write` every raw item, the undecodable ones included, with
      the new representation at the end, and reports success whatever the write
      does. Corrected stamp and an accepting disk: the file then reads back
      those items. Otherwise (enum stamp as written, or a refusing disk) the
      file is left as the read left it. */
  lemma AppendKeepsRawItems(file: StoredFile, runnable: Runnable, now: nat, diskOk: bool, stamp: VersionStamp,
                            items: seq<Representation>)
    requires ReadRawEffect(file, now, diskOk, stamp).result == Ok(items)
    ensures var raw := ReadRawEffect(file, now, diskOk, stamp);
      var e := AppendEffect(file, runnable, now, diskOk, stamp);
      && e.result == Pass
      && e.file == WriteOutcome(raw.file, MakeStorageDictionary(items + [runnable.representation], now, stamp), diskOk)
    ensures stamp == RawValueString && diskOk ==>
      ParseRaw(AppendEffect(file, runnable, now, diskOk, stamp).file) == Ok(items + [runnable.representation])
    ensures !(stamp == RawValueString && diskOk) ==>
      AppendEffect(file, runnable, now, diskOk, stamp).file == ReadRawEffect(file, now, diskOk, stamp).file
  {
    if stamp == RawValueString {
      RawValueStampReadsBack(file, items + [runnable.representation], now);
    } else {
      EnumStampNeverWritten(ReadRawEffect(file, now, diskOk, stamp).file, items + [runnable.representation], now,
                            diskOk, runnable);
    }
  }

  /** `append` fails exactly when reading fails, with the read error, and then
      writes nothing beyond the initial empty file. */
  lemma AppendFailsWithRead(file: StoredFile, runnable: Runnable, now: nat, diskOk: bool, stamp: VersionStamp)
    ensures var raw := ReadRawEffect(file, now, diskOk, stamp);
      var e := AppendEffect(file, runnable, now, diskOk, stamp);
      && (e.result.Fail? <==> raw.result.Err?)
      && (raw.result.Err? ==> e.result.error == raw.result.error && e.file == raw.file)
  {
  }

  /** The list `remove` hands to `write`: the decodable runnables minus every one
      with the runnable's id, as representations. */
  function Compacted(items: seq<Representation>, factory: RunnableFactory, id: string): seq<Representation>
  {
    Representations(WithoutId(CompactMap(items, factory), id))
  }

  /** `remove` hands `write` the decodable runnables minus every one with the
      runnable's id, so undecodable representations are dropped on the way, and
      reports success whatever the write does. Corrected stamp and an accepting
      disk: the file then reads back that list. Otherwise the file is left as
      the read left it. */
  lemma RemoveCompacts(file: StoredFile, runnable: Runnable, now: nat, diskOk: bool, stamp: VersionStamp,
                       factory: RunnableFactory, items: seq<Representation>)
    requires ReadRawEffect(file, now, diskOk, stamp).result == Ok(items)
    ensures var raw := ReadRawEffect(file, now, diskOk, stamp);
      var e := RemoveEffect(file, runnable, now, diskOk, stamp, factory);
      && e.result == Pass
      && e.file == WriteOutcome(raw.file, MakeStorageDictionary(Compacted(items, factory, runnable.id), now, stamp), diskOk)
    ensures stamp == RawValueString && diskOk ==>
      ParseRaw(RemoveEffect(file, runnable, now, diskOk, stamp, factory).file) == Ok(Compacted(items, factory, runnable.id))
    ensures !(stamp == RawValueString && diskOk) ==>
      RemoveEffect(file, runnable, now, diskOk, stamp, factory).file == ReadRawEffect(file, now, diskOk, stamp).file
  {
    if stamp == RawValueString {
      RawValueStampReadsBack(file, Compacted(items, factory, runnable.id), now);
    } else {
      EnumStampNeverWritten(ReadRawEffect(file, now, diskOk, stamp).file, Compacted(items, factory, runnable.id), now,
                            diskOk, runnable);
    }
  }

  /** The factory gives every runnable back from its own representation. */
  predicate DecodesOwnRepresentation(factory: RunnableFactory, rs: seq<Runnable>)
  {
    forall x :: x in rs ==> factory(x.representation) == Some(x)
  }

  lemma {:induction false} DecodeRepresentations(factory: RunnableFactory, rs: seq<Runnable>)
    requires DecodesOwnRepresentation(factory, rs)
    ensures CompactMap(Representations(rs), factory) == rs
  {
    if rs != [] {
      assert Representations(rs)[1..] == Representations(rs[1..]);
      DecodeRepresentations(factory, rs[1..]);
    }
  }

  /** `remove` is idempotent: removing the same id again leaves the file reading
      as the first removal left it, as long as the factory decodes the
      runnables it produced back from their representations. With the
      corrected stamp on an accepting disk the second removal rewrites the same
      items; otherwise neither removal changes the file. */
  lemma RemoveIdempotent(file: StoredFile, runnable: Runnable, now: nat, later: nat, diskOk: bool, stamp: VersionStamp,
                         factory: RunnableFactory, items: seq<Representation>)
    requires !file.Missing? && ParseRaw(file) == Ok(items)
    requires DecodesOwnRepresentation(factory, CompactMap(items, factory))
    ensures var once := RemoveEffect(file, runnable, now, diskOk, stamp, factory);
      var twice := RemoveEffect(once.file, runnable, later, diskOk, stamp, factory);
      twice.result == Pass && ParseRaw(twice.file) == ParseRaw(once.file)
  {
    RemoveCompacts(file, runnable, now, diskOk, stamp, factory, items);
    var once := RemoveEffect(file, runnable, now, diskOk, stamp, factory);
    if stamp == RawValueString && diskOk {
      var decoded := CompactMap(items, factory);
      var kept := WithoutId(decoded, runnable.id);
      WithoutIdMembers(decoded, runnable.id);
      assert DecodesOwnRepresentation(factory, kept);
      DecodeRepresentations(factory, kept);
      RemoveCompacts(once.file, runnable, later, diskOk, stamp, factory, Representations(kept));
      RemoveAllIdempotent(decoded, HasId(runnable.id));
    } else {
      assert once.file == file;
      RemoveCompacts(once.file, runnable, later, diskOk, stamp, factory, items);
    }
  }
}

/** The in-memory remote provider of the data manager's tests
    (Tests/AccordTests/Mocks/RemoteProviderMock.swift): a relay holding the
    remote list, and runnables that overwrite it with a list computed when they
    were made. */
module RemoteProviderMocks {
  import opened Common
  import opened Contents

  datatype RemoteProviderError = InvalidType

  /** `RemoteProviderRunnableMock`: its id (a fresh UUID string) and the list
      computed at construction, which running it puts into the relay. Its JSON
      representation is not part of this model. */
  datatype RemoteProviderRunnableMock = RemoteProviderRunnableMock(id: string, newContent: seq<ContentMock>)

  /** The `Single<Runnable>` that `performAction` returns: it emits a runnable,
      fails, or never emits (`.never()`). */
  datatype RunnableRequest =
    | Emits(runnable: RemoteProviderRunnableMock)
    | Errs(error: RemoteProviderError)
    | NeverEmits

  /** `firstIndex(where: { $0.id == id })`. */
  function FirstIndex(s: seq<ContentMock>, id: string): (r: Option<nat>)
    ensures r.Some? ==> r.value < |s| && s[r.value].id == id && forall j :: 0 <= j < r.value ==> s[j].id != id
    ensures r.None? ==> forall j :: 0 <= j < |s| ==> s[j].id != id
  {
    if s == [] then None
    else if s[0].id == id then Some(0)
    else match FirstIndex(s[1..], id)
      case None => None
      case Some(i) => Some(i + 1)
  }

  /** The list a runnable made by `performAction` will install: `insert`
      appends, `delete` removes every item with the id, `update` replaces the
      first item with the id (if any), and `sync` makes no runnable. */
  function NewContent(current: seq<ContentMock>, action: DataAction, c: ContentMock): (r: Option<seq<ContentMock>>)
    // only sync makes no runnable; insert grows the list by one, update keeps its length, delete never grows it
    ensures r.None? <==> action.Sync?
    ensures action.Insert? ==> |r.value| == |current| + 1
    ensures action.Update? ==> |r.value| == |current|
    ensures action.Delete? ==> |r.value| <= |current|
  {
    match action
    case Insert => Some(current + [c])
    case Delete => Some(WithoutContentId(current, c.id))
    case Update =>
      (match FirstIndex(current, c.id)
       case None => Some(current)
       case Some(i) => Some(current[..i] + [c] + current[i + 1..]))
    case Sync => None
  }

  /** `observeObjects()`: the one change every provider mock reports, a `sync`
      change carrying no content. */
  function ObservedChange(): Change
  {
    Change(None, None, ChangeType.Sync)
  }

  class RemoteProviderMock {
    /** The value of `contentRelay`. */
    var contentRelay: seq<ContentMock>

    constructor ()
      ensures contentRelay == []
    {
      contentRelay := [];
    }

    /** `inject(content:)`: the content is appended to the relay. */
    method Inject(c: ContentMock)
      modifies this
      ensures contentRelay == old(contentRelay) + [c]
    {
      contentRelay := contentRelay + [c];
    }

    /** `objects()`: the relay's current list. */
    method Objects() returns (objects: seq<ContentMock>)
      ensures objects == contentRelay
    {
      objects := contentRelay;
    }

    /** `performAction(withContent:action:)`; `freshId` stands for the UUID the
        new runnable draws. Nothing changes until the runnable is run. */
    method PerformAction(c: Content, action: DataAction, freshId: string) returns (r: RunnableRequest)
      ensures c.OfOtherType? ==> r == Errs(InvalidType)
      ensures c.Mock? && action.Sync? ==> r == NeverEmits
      ensures c.Mock? && !action.Sync? ==>
        r.Emits? && r.runnable.id == freshId && Some(r.runnable.newContent) == NewContent(contentRelay, action, c.value)
    {
      if c.OfOtherType? {
        return Errs(InvalidType);
      }
      var item := c.value;
      match action {
        case Insert =>
          r := Emits(RemoteProviderRunnableMock(freshId, contentRelay + [item]));
        case Delete =>
          var newContent := contentRelay;
          newContent := WithoutContentId(newContent, item.id);
          r := Emits(RemoteProviderRunnableMock(freshId, newContent));
        case Update =>
          var newContent := contentRelay;
          var index := FirstIndex(newContent, item.id);
          if index.Some? {
            newContent := newContent[..index.value] + [item] + newContent[index.value + 1..];
          }
          r := Emits(RemoteProviderRunnableMock(freshId, newContent));
        case Sync =>
          r := NeverEmits;
      }
    }

    /** `RemoteProviderRunnableMock.run()`: the relay takes the runnable's list. */
    method Run(runnable: RemoteProviderRunnableMock)
      modifies this
      ensures contentRelay == runnable.newContent
    {
      contentRelay := runnable.newContent;
    }
  }

  /** `update` replaces the first item with the content's id and nothing else;
      without such an item the list is unchanged. */
  lemma UpdateReplacesFirst(current: seq<ContentMock>, c: ContentMock)
    ensures var r := NewContent(current, DataAction.Update, c);
      && r.Some? && |r.value| == |current|
      && ((forall j :: 0 <= j < |current| ==> current[j].id != c.id) ==> r.value == current)
      && forall i :: 0 <= i < |current| && current[i].id == c.id && (forall j :: 0 <= j < i ==> current[j].id != c.id) ==>
           r.value[i] == c && forall j :: 0 <= j < |current| && j != i ==> r.value[j] == current[j]
  {
    var idx := FirstIndex(current, c.id);
    if idx.Some? {
      var i := idx.value;
      var r := current[..i] + [c] + current[i + 1..];
      assert forall j :: 0 <= j < |current| && j != i ==> r[j] == current[j];
    }
  }

  /** `delete` keeps exactly the items with another id; `insert` appends. */
  lemma DeleteAndInsertContents(current: seq<ContentMock>, c: ContentMock)
    ensures forall x :: x in NewContent(current, DataAction.Delete, c).value <==> x in current && x.id != c.id
    ensures NewContent(current, DataAction.Insert, c).value[..|current|] == current
    ensures NewContent(current, DataAction.Insert, c).value[|current|] == c
  {
    WithoutContentIdMembers(current, c.id);
  }
}

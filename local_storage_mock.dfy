/** The in-memory local storage of the data manager's tests
    (Tests/AccordTests/Mocks/LocalStorageMock.swift): a relay holding the
    current list of contents, replaced by every successful `perform`. */
module LocalStorageMocks {
  import opened Common
  import opened Contents

  datatype LocalStorageError = InvalidType

  /** The list `perform(action:withContent:)` computes from the relay's current
      value. */
  function Performed(current: seq<ContentMock>, action: DataAction, c: ContentMock): (r: seq<ContentMock>)
    // at most one item is added, and every action but delete ends with the content
    ensures |r| <= |current| + 1
    ensures !action.Delete? ==> |r| > 0 && r[|r| - 1] == c
  {
    match action
    case Insert => current + [c]
    case Update => WithoutContentId(current, c.id) + [c]
    case Sync => WithoutContentId(current, c.id) + [c]
    case Delete => WithoutContentId(current, c.id)
  }

  class LocalStorageMock {
    /** The value of the `content` relay. */
    var content: seq<ContentMock>

    constructor ()
      ensures content == []
    {
      content := [];
    }

    /** `currentContent()`. */
    method CurrentContent() returns (cs: seq<ContentMock>)
      ensures cs == content
    {
      cs := content;
    }

    /** `perform(action:withContent:)`: content of another type is refused and
        nothing changes; otherwise the new list is computed and accepted. */
    method Perform(action: DataAction, c: Content) returns (r: Outcome<LocalStorageError>)
      modifies this
      ensures c.OfOtherType? ==> r == Fail(InvalidType) && content == old(content)
      ensures c.Mock? ==> r == Pass && content == Performed(old(content), action, c.value)
    {
      if c.OfOtherType? {
        return Fail(InvalidType);
      }
      var item := c.value;
      var newContent := content;
      match action {
        case Insert =>
          newContent := newContent + [item];
        case Update =>
          newContent := WithoutContentId(newContent, item.id);
          newContent := newContent + [item];
        case Sync =>
          newContent := WithoutContentId(newContent, item.id);
          newContent := newContent + [item];
        case Delete =>
          newContent := WithoutContentId(newContent, item.id);
      }
      content := newContent;
      r := Pass;
    }
  }

  /** `insert` appends the content at the end, keeping every earlier item, even
      one with the same id. */
  lemma InsertAppends(current: seq<ContentMock>, c: ContentMock)
    ensures var r := Performed(current, DataAction.Insert, c);
      |r| == |current| + 1 && r[..|current|] == current && r[|current|] == c
  {
  }

  /** `update` and `sync` leave exactly one item with the content's id: the
      content itself, at the end. */
  lemma {:induction false} ReplaceLeavesOne(current: seq<ContentMock>, action: DataAction, c: ContentMock)
    requires action == DataAction.Update || action == DataAction.Sync
    ensures var r := Performed(current, action, c);
      && |r| > 0 && r[|r| - 1] == c
      && forall i :: 0 <= i < |r| - 1 ==> r[i].id != c.id
  {
    var kept := WithoutContentId(current, c.id);
    WithoutContentIdMembers(current, c.id);
    var r := Performed(current, action, c);
    assert r == kept + [c];
    forall i | 0 <= i < |r| - 1
      ensures r[i].id != c.id
    {
      assert r[i] == kept[i] && kept[i] in kept;
    }
  }

  /** After `delete` no item has the content's id, and every other item is
      still there. */
  lemma DeleteRemovesAll(current: seq<ContentMock>, c: ContentMock)
    ensures var r := Performed(current, DataAction.Delete, c);
      forall x :: x in r <==> x in current && x.id != c.id
  {
    WithoutContentIdMembers(current, c.id);
  }

  /** Items with other ids are untouched and keep their relative order: apart
      from the content's id, `update`, `sync` and `delete` change nothing. */
  lemma OthersKeepOrder(current: seq<ContentMock>, action: DataAction, c: ContentMock)
    requires !action.Insert?
    ensures WithoutContentId(Performed(current, action, c), c.id) == WithoutContentId(current, c.id)
  {
    var kept := WithoutContentId(current, c.id);
    RemoveAllIdempotent(current, HasContentId(c.id));
    if !action.Delete? {
      RemoveAllAppend(kept, [c], HasContentId(c.id));
      assert WithoutContentId([c], c.id) == [];
    }
  }
}

/** The values the data side passes around: contents, the actions a storage
    performs, and the changes a remote provider reports
    (Sources/Accord/Models/Change.swift, ChangeType.swift, DataAction.swift, and
    the tests' ContentMock). */
module Contents {
  import opened Common

  /** The tests' `ContentMock`. */
  datatype ContentMock = ContentMock(id: string, stringProperty: string, intProperty: int, boolProperty: bool)

  /** A value handed over as some `AccordableContent`: a `ContentMock`, or a
      content of another type (which the test doubles refuse). */
  datatype Content = Mock(value: ContentMock) | OfOtherType(otherId: string)

  datatype DataAction = Insert | Update | Delete | Sync

  datatype ChangeType = Sync | Insert | Update | Delete

  /** `Change<T>`: the content after the change (`current`) and the content
      before it (`old`, here `before`, since `old` is a Dafny keyword). */
  datatype Change = Change(current: Option<Content>, before: Option<Content>, changeType: ChangeType)

  /** The condition `{ $0.id == id }` on contents. */
  function HasContentId(id: string): ContentMock -> bool
  {
    (c: ContentMock) => c.id == id
  }

  /** `removeAll(where: { $0.id == id })` on a list of contents. */
  function WithoutContentId(s: seq<ContentMock>, id: string): seq<ContentMock>
  {
    RemoveAll(s, HasContentId(id))
  }

  lemma WithoutContentIdMembers(s: seq<ContentMock>, id: string)
    ensures forall x :: x in WithoutContentId(s, id) <==> x in s && x.id != id
    ensures (forall x :: x in s ==> x.id != id) ==> WithoutContentId(s, id) == s
  {
    RemoveAllMembers(s, HasContentId(id));
  }
}

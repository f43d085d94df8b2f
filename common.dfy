/** Value types shared by every part of the model, and the two Swift collection
    operations the core relies on: `removeAll(where:)` and `compactMap`. */
module Common {

  datatype Option<T> = None | Some(value: T)

  /** The value of a `Single`: it either emits a value or fails with an error. */
  datatype Result<T, E> = Ok(value: T) | Err(error: E)

  /** The value of a `Completable`: it either completes or fails with an error. */
  datatype Outcome<E> = Pass | Fail(error: E)

  /** Swift's `removeAll(where:)`, as a value: the elements of `s` that do not
      match, in their original order. */
  function RemoveAll<T>(s: seq<T>, matches: T -> bool): (r: seq<T>)
    ensures |r| <= |s|
  {
    if s == [] then []
    else (if matches(s[0]) then [] else [s[0]]) + RemoveAll(s[1..], matches)
  }

  /** The survivors are exactly the elements that do not match; when nothing
      matches, nothing is removed. */
  lemma {:induction false} RemoveAllMembers<T>(s: seq<T>, matches: T -> bool)
    ensures forall x :: x in RemoveAll(s, matches) <==> x in s && !matches(x)
    ensures (forall x :: x in s ==> !matches(x)) ==> RemoveAll(s, matches) == s
  {
    if s != [] {
      RemoveAllMembers(s[1..], matches);
      assert s == [s[0]] + s[1..];
    }
  }

  /** Removing distributes over concatenation, so the survivors keep the
      relative order they had. */
  lemma {:induction false} RemoveAllAppend<T>(a: seq<T>, b: seq<T>, matches: T -> bool)
    ensures RemoveAll(a + b, matches) == RemoveAll(a, matches) + RemoveAll(b, matches)
  {
    if a == [] {
      assert a + b == b;
    } else {
      assert (a + b)[1..] == a[1..] + b;
      RemoveAllAppend(a[1..], b, matches);
    }
  }

  /** Removing twice with the same condition is removing once. */
  lemma {:induction false} RemoveAllIdempotent<T>(s: seq<T>, matches: T -> bool)
    ensures RemoveAll(RemoveAll(s, matches), matches) == RemoveAll(s, matches)
  {
    if s != [] {
      var head := if matches(s[0]) then [] else [s[0]];
      RemoveAllAppend(head, RemoveAll(s[1..], matches), matches);
      RemoveAllIdempotent(s[1..], matches);
      if !matches(s[0]) {
        assert head == [s[0]] && [s[0]][1..] == [];
      }
    }
  }

  /** Swift's `compactMap`: apply `f` and keep the present results, in order. */
  function CompactMap<A, B>(s: seq<A>, f: A -> Option<B>): (r: seq<B>)
    ensures |r| <= |s|
  {
    if s == [] then []
    else OptionToSeq(f(s[0])) + CompactMap(s[1..], f)
  }

  function OptionToSeq<T>(o: Option<T>): seq<T>
  {
    match o case Some(y) => [y] case None => []
  }

  lemma CompactMapCons<A, B>(x: A, s: seq<A>, f: A -> Option<B>)
    ensures CompactMap([x] + s, f) == OptionToSeq(f(x)) + CompactMap(s, f)
  {
    assert ([x] + s)[0] == x && ([x] + s)[1..] == s;
  }

  /** `CompactMap` over the first three elements, one at a time. */
  lemma CompactMapPrefix3<A, B>(a: A, b: A, c: A, rest: seq<A>, f: A -> Option<B>)
    ensures CompactMap([a, b, c] + rest, f)
         == OptionToSeq(f(a)) + OptionToSeq(f(b)) + OptionToSeq(f(c)) + CompactMap(rest, f)
  {
    assert [a, b, c] + rest == [a] + ([b] + ([c] + rest));
    CompactMapCons(a, [b] + ([c] + rest), f);
    CompactMapCons(b, [c] + rest, f);
    CompactMapCons(c, rest, f);
  }

  lemma {:induction false} CompactMapAppend<A, B>(a: seq<A>, b: seq<A>, f: A -> Option<B>)
    ensures CompactMap(a + b, f) == CompactMap(a, f) + CompactMap(b, f)
  {
    if a == [] {
      assert a + b == b;
    } else {
      assert (a + b)[1..] == a[1..] + b;
      CompactMapAppend(a[1..], b, f);
    }
  }
}

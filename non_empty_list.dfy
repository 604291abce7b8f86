/** NonEmptyList: an ordinary sequence known to hold at least one element. A
    value of the type is the sequence itself, not a wrapper around it. */
module NonEmptyList {
  import opened Maybe
  import opened Tuple
  import opened Js

  type NonEmptyList<T(00)> = s: seq<T> | |s| >= 1 ghost witness var x: T :| true; [x]

  /** What calling a function that may throw gives. */
  datatype Attempt<+T> = Returns(value: T) | Throws

  /** `NonEmptyList(list)`: the list itself, typed as non-empty. */
  function Of<T(00)>(list: NonEmptyList<T>): (r: NonEmptyList<T>)
    ensures r == list
  {
    list
  }

  /** `isNonEmpty`: holds exactly of the sequences with at least one element. */
  function IsNonEmpty<T>(list: seq<T>): (b: bool)
    ensures b <==> |list| >= 1
  {
    list != []
  }

  /** `fromArray`: `Nothing` for the empty sequence, otherwise `Just` of the
      sequence itself. */
  function FromArray<T(00)>(source: seq<T>): (r: Maybe<NonEmptyList<T>>)
    ensures r == Nothing <==> source == []
    ensures r.Just? ==> r.value == source
  {
    if IsNonEmpty(source) then Just(source) else Nothing
  }

  /** `fromTuple`: the pair as a two-element list, first component first. */
  function FromTuple<T(00)>(t: Tuple<T, T>): (r: NonEmptyList<T>)
    ensures |r| == 2 && Head(r) == t.fst && Last(r) == t.snd
  {
    [t.fst, t.snd]
  }

  /** `head`: the first element. */
  function Head<T(00)>(list: NonEmptyList<T>): (x: T)
    ensures list == [x] + list[1..]
  {
    list[0]
  }

  /** `last`: the final element. */
  function Last<T(00)>(list: NonEmptyList<T>): (x: T)
    ensures list == list[..|list| - 1] + [x]
  {
    list[|list| - 1]
  }

  /** `unsafeCoerce`: throws on the empty sequence, otherwise returns the sequence
      unchanged. */
  function UnsafeCoerce<T(00)>(source: seq<T>): (r: Attempt<NonEmptyList<T>>)
    ensures r.Throws? <==> source == []
    ensures r.Returns? ==> r.value == source
  {
    if IsNonEmpty(source) then Returns(source) else Throws
  }

  /** A non-empty list converts back to itself. */
  lemma FromArrayOfNonEmpty<T(00)>(list: NonEmptyList<T>)
    ensures FromArray(list) == Just(Of(list))
  {
  }

  /** `fromArray` and `unsafeCoerce` accept the same sequences and return the same list. */
  lemma FromArrayAgreesWithUnsafeCoerce<T(00)>(source: seq<T>)
    ensures FromArray(source).Just? <==> UnsafeCoerce(source).Returns?
    ensures FromArray(source).Just? ==> FromArray(source).value == UnsafeCoerce(source).value
  {
  }

  /** In a list of one element, `head` and `last` are that element. */
  lemma HeadLastOfSingleton<T(00)>(list: NonEmptyList<T>)
    requires |list| == 1
    ensures Head(list) == list[0] == Last(list)
  {
  }

  /** The scenarios of the NonEmptyList suite, with their exact expected results. */
  lemma Examples()
    ensures Of([5]) == [5]
    ensures !IsNonEmpty<int>([]) && IsNonEmpty([1])
    ensures FromArray<int>([]) == Nothing && FromArray([1]) == Just(Of([1]))
    ensures FromTuple(Tuple(Num(1), Str("test"))) == Of([Num(1), Str("test")])
    ensures Head(Of([1])) == 1 && Last(Of([1])) == 1
    ensures UnsafeCoerce<int>([]) == Throws && UnsafeCoerce([1]) == Returns(Of([1]))
  {
  }
}

/** The decoders' failures, collapsed from Python's AssertionError, KeyError,
    TypeError and ValueError into one datatype, and the Result type that
    carries them. */
module Results {
  import opened Json

  datatype Option<+T> = None | Some(value: T)

  datatype Error =
    /** A bare `assert` failed; Python attaches no message to it. */
    | AssertionFailed
    /** `obj[key]` on a mapping without `key` (KeyError). */
    | MissingKey(key: string)
    /** `assertType`: "expected type T, got U". */
    | WrongType(expected: Kind, got: Kind)
    /** `assertOptionalType`: "expected type Optional[T], got U". */
    | WrongOptionalType(expected: Kind, got: Kind)
    /** `assertSeq` / `assertSeqOfPairs`: "expected a Sequence, got U". */
    | NotASequence(got: Kind)
    /** `assertSeq`: "[i]: expected type T, got U". */
    | WrongElementType(index: nat, expected: Kind, got: Kind)
    /** `y1, y2 = xs` with fewer than two items (ValueError, "got n"). */
    | NotEnoughValuesToUnpack(count: nat)
    /** `y1, y2 = xs` with more than two items (ValueError). */
    | TooManyValuesToUnpack
    /** `SetFamily.fromJson` on an unknown `type` string. */
    | UnrecognizedType(typeName: string)

  datatype Result<+T> = Success(value: T) | Failure(error: Error)
  {
    predicate IsFailure()
    {
      Failure?
    }

    function PropagateFailure<U>(): Result<U>
      requires Failure?
    {
      Failure(error)
    }

    function Extract(): T
      requires Success?
    {
      value
    }
  }

  /** A Python list comprehension whose element expression may raise: the
      list of all values when every element succeeds, otherwise the error of
      the first element (in order) that failed. */
  function Collect<T>(rs: seq<Result<T>>): (r: Result<seq<T>>)
    ensures r.Success? <==> forall i :: 0 <= i < |rs| ==> rs[i].Success?
    ensures r.Success? ==>
      |r.value| == |rs| && forall i :: 0 <= i < |rs| ==> rs[i] == Success(r.value[i])
    ensures r.Failure? ==>
      exists i :: 0 <= i < |rs| && rs[i] == Failure(r.error) &&
        forall j :: 0 <= j < i ==> rs[j].Success?
  {
    if rs == [] then Success([])
    else
      match rs[0]
      case Failure(e) => Failure(e)
      case Success(x) =>
        match Collect(rs[1..])
        case Failure(e) => Failure(e)
        case Success(xs) => Success([x] + xs)
  }

  /** The failing element Collect reports is the first failing one. */
  lemma CollectFirstFailure<T>(rs: seq<Result<T>>, i: nat)
    requires i < |rs| && rs[i].Failure?
    requires forall j :: 0 <= j < i ==> rs[j].Success?
    ensures Collect(rs) == Failure(rs[i].error)
  {
  }
}

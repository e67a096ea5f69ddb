/** The tri-state value of one load: `LoadingState<R>` with its cases `Loading`,
    `Failure(error)` and `Success(data)`, and the two type-test getters
    `isLoading` and `isSuccess`. There is no `isFailure`: a failure is the
    value for which neither getter holds. */
module LoadingStates {
  import opened Wrappers

  /** Kotlin splits its throwables into `Exception`s (what a `catch (e: Exception)`
      catches) and `Error`s (what it lets through, such as `NotImplementedError`). */
  datatype ThrowableKind = Exception | Error

  /** A `Throwable` object. Kotlin's `Throwable` does not override `equals`, so
      two throwables are equal only when they are the same object: `id` stands
      for that object identity, and one object has one kind and one message.
      The message is nullable, as `Throwable.message` is. */
  datatype Throwable = Throwable(id: nat, kind: ThrowableKind, message: Option<string>) {

    /** `this is Exception`: whether `catch (e: Exception)` catches it. */
    predicate IsException()
      ensures IsException() <==> kind != Error
    {
      kind == Exception
    }
  }

  /** `Loading` is an `object` (a singleton); `Failure` and `Success` are data
      classes, so they compare by their payload. */
  datatype LoadingState<+R> = Loading | Failure(error: Throwable) | Success(data: R) {

    /** `isLoading`: `this is Loading`; it holds exactly for the one `Loading` value. */
    predicate IsLoading()
      ensures IsLoading() <==> this == Loading
    {
      match this
      case Loading => true
      case _ => false
    }

    /** `isSuccess`: `this is Success<*>`; it holds exactly for the `Success`
        values, whatever the payload. */
    predicate IsSuccess()
      ensures IsSuccess() ==> Success? && this == Success(data)
      ensures !IsSuccess() ==> this == Loading || (Failure? && this == Failure(error))
    {
      match this
      case Success(_) => true
      case _ => false
    }
  }

  /** Exactly one of the three cases holds, and the two getters never hold together. */
  lemma ExactlyOneCase<R>(v: LoadingState<R>)
    ensures !(v.IsLoading() && v.IsSuccess())
    ensures CountTrue([v.IsLoading(), v.IsSuccess(), v.Failure?]) == 1
  {
    var bs := [v.IsLoading(), v.IsSuccess(), v.Failure?];
    assert bs[1..] == [v.IsSuccess(), v.Failure?] && bs[1..][1..] == [v.Failure?] && bs[1..][1..][1..] == [];
    assert CountTrue(bs) == CountTrue([v.IsSuccess(), v.Failure?]) + (if v.IsLoading() then 1 else 0);
    assert CountTrue([v.IsSuccess(), v.Failure?]) == CountTrue([v.Failure?]) + (if v.IsSuccess() then 1 else 0);
    assert CountTrue([v.Failure?]) == if v.Failure? then 1 else 0;
  }

  function CountTrue(bs: seq<bool>): nat {
    if bs == [] then 0 else (if bs[0] then 1 else 0) + CountTrue(bs[1..])
  }

  /** A failure is exactly the value for which neither getter holds. */
  lemma FailureIsNeither<R>(v: LoadingState<R>)
    ensures v.Failure? <==> !v.IsLoading() && !v.IsSuccess()
    ensures forall e :: v == Failure(e) ==> !v.IsLoading() && !v.IsSuccess()
  {
  }

  /** Data-class equality: `Success` and `Failure` are equal exactly when their
      payloads are. */
  lemma PayloadEquality<R>(a: R, b: R, e1: Throwable, e2: Throwable)
    ensures Success(a) == Success(b) <==> a == b
    ensures LoadingState<R>.Failure(e1) == LoadingState<R>.Failure(e2) <==> e1 == e2
    // two distinct throwable objects make distinct failures, even with equal messages
    ensures e1.id != e2.id ==> LoadingState<R>.Failure(e1) != LoadingState<R>.Failure(e2)
    ensures Success(a) != Failure(e1) && Success(a) != Loading && LoadingState<R>.Failure(e1) != Loading
  {
  }

  /** `Loading` is one object: every value that is loading is that value. */
  lemma LoadingIsSingleton<R>(u: LoadingState<R>, v: LoadingState<R>)
    requires u.IsLoading() && v.IsLoading()
    ensures u == v
  {
  }
}

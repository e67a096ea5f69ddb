/** `LoadingContent`: which slot the widget renders for the current state, and
    what the failure slot's `retry` does, in its three overloads:
    keyed (the caller owns the key and its update), seeded (the caller's
    `initialValue` is also the key, and `retry` is the caller's), and key-less
    (a remembered boolean key whose update negates it). */
module LoadingContents {
  import opened Wrappers
  import opened LoadingStates
  import opened RetryableLoading

  /** What tapping retry in the failure slot does: call `updateRetryKey` with
      the key of the composition that rendered it, or call the caller's `retry`. */
  datatype RetryAction<K> = UpdateRetryKey(key: K) | CallerRetry

  /** The slot rendered inside the widget's box. */
  datatype Slot<T, K> = LoadingSlot | SuccessSlot(data: T) | FailureSlot(error: Throwable, retry: RetryAction<K>)

  /** Keyed overload: `Loading` renders `loading`, `Success(d)` renders
      `success(d)`, `Failure(e)` renders `failure(e, retry)` where `retry`
      calls `updateRetryKey(retryKey)`. */
  function KeyedContent<T, K>(state: LoadingState<T>, retryKey: K): (r: Slot<T, K>)
    ensures r.LoadingSlot? <==> state.IsLoading()
    ensures r.SuccessSlot? <==> state.IsSuccess()
    ensures r.SuccessSlot? ==> r.data == state.data
    ensures r.FailureSlot? <==> state.Failure?
    ensures r.FailureSlot? ==> r.error == state.error && r.retry == UpdateRetryKey(retryKey)
  {
    match state
    case Loading => LoadingSlot
    case Success(d) => SuccessSlot(d)
    case Failure(e) => FailureSlot(e, UpdateRetryKey(retryKey))
  }

  /** Seeded overload: the same dispatch, but `retry` is the caller's own.
      (This overload's key is the seed itself.) */
  function SeededContent<T>(state: LoadingState<T>): (r: Slot<T, LoadingState<T>>)
    ensures r.LoadingSlot? <==> state.IsLoading()
    ensures r.SuccessSlot? <==> state.IsSuccess()
    ensures r.SuccessSlot? ==> r.data == state.data
    ensures r.FailureSlot? <==> state.Failure?
    ensures r.FailureSlot? ==> r.error == state.error && r.retry == CallerRetry
  {
    match state
    case Loading => LoadingSlot
    case Success(d) => SuccessSlot(d)
    case Failure(e) => FailureSlot(e, CallerRetry)
  }

  /** The key-less overload's `updateRetryKey`: `{ k -> key = !k }`. */
  function KeylessUpdate(k: bool): (r: bool)
    ensures r != k
  {
    !k
  }

  /** The state a slot displays: the inverse of the dispatch. */
  function SlotState<T, K>(slot: Slot<T, K>): LoadingState<T> {
    match slot
    case LoadingSlot => Loading
    case SuccessSlot(d) => Success(d)
    case FailureSlot(e, _) => Failure(e)
  }

  /** The dispatch loses nothing: the rendered slot determines the state. */
  lemma DispatchIsLossless<T, K>(state: LoadingState<T>, retryKey: K)
    ensures SlotState(KeyedContent(state, retryKey)) == state
    ensures SlotState(SeededContent(state)) == state
  {
  }

  /** Keyed and key-less overloads: their controller is composed with the
      default seed `Loading`. From a failure, tapping retry passes the rendered
      key to the update; if the update changes it, the next composition shows
      `Loading` and invokes the loader once more. */
  lemma {:induction false} RetryFromFailureReloads<T, K>(s: Session<T, K>, k: K, update: K -> K)
    requires s.lastKey == Some(k) && s.state.Failure?
    requires update(k) != k
    ensures KeyedContent(s.state, k).FailureSlot?
    ensures var next := update(KeyedContent(s.state, k).retry.key);
            AfterCompose(s, Loading, next).state == Loading &&
            AfterCompose(s, Loading, next).inFlight &&
            AfterCompose(s, Loading, next).loads == s.loads + 1
  {
    var slot := KeyedContent(s.state, k);
    assert slot.retry == UpdateRetryKey(k);
    assert Some(update(slot.retry.key)) != s.lastKey;
  }

  /** In the key-less overload every retry is a key change, so it always reloads. */
  lemma KeylessRetryReloads<T>(s: Session<T, bool>, k: bool)
    requires s.lastKey == Some(k) && s.state.Failure?
    ensures var next := KeylessUpdate(KeyedContent(s.state, k).retry.key);
            next == !k &&
            AfterCompose(s, Loading, next).state == Loading &&
            AfterCompose(s, Loading, next).loads == s.loads + 1
  {
    RetryFromFailureReloads(s, k, KeylessUpdate);
  }

  /** Seeded overload: the seed is also the key. A new seed that is not a
      success reloads; a new seed that is a success changes nothing, so the
      widget keeps showing the state it had rather than the new seed. */
  lemma SeedIsTheKey<T>(s: Session<T, LoadingState<T>>, seed: LoadingState<T>)
    requires s.lastKey != Some(seed)
    ensures !seed.IsSuccess() ==> AfterCompose(s, seed, seed).state == Loading
    ensures !seed.IsSuccess() ==> AfterCompose(s, seed, seed).loads == s.loads + 1
    ensures seed.IsSuccess() ==> AfterCompose(s, seed, seed).state == s.state
    ensures seed.IsSuccess() ==> SlotState(SeededContent(AfterCompose(s, seed, seed).state)) == s.state
  {
  }

  /** Seeded overload: failures compare by throwable identity, so a new
      `Failure` seed holding a different throwable object is a new key and
      reloads, even when both throwables carry the same message. */
  lemma NewFailureSeedReloads<T>(s: Session<T, LoadingState<T>>, e1: Throwable, e2: Throwable)
    requires s.lastKey == Some(Failure(e1)) && e1.id != e2.id
    ensures AfterCompose(s, Failure(e2), Failure(e2)).state == Loading
    ensures AfterCompose(s, Failure(e2), Failure(e2)).loads == s.loads + 1
  {
    assert LoadingState<T>.Failure(e1) != LoadingState<T>.Failure(e2);
  }
}

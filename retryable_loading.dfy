/** The retry-keyed loading controller, `rememberRetryableLoadingState`.

    One controller is a remembered state cell plus a `LaunchedEffect(retryKey)`.
    The model sees it as a sequence of events: a composition with some
    `initialValue` and `retryKey`, or the completion of the running loader
    call with a value or a throwable. `Session` is the observable state after
    each event and `AfterCompose` / `AfterResult` are the transitions; the
    classes `RetryableLoadingState` and `ToggleLoadingState` are the same state
    held in fields, and their methods are proved to follow the transitions. */
module RetryableLoading {
  import opened Wrappers
  import opened LoadingStates

  /** What one call of `loader()` does: return a value or throw. */
  datatype Outcome<T> = Returned(value: T) | Threw(thrown: Throwable)

  /** The observable state of one controller.
      - `state`: the remembered cell the caller observes;
      - `lastKey`: the key of the running `LaunchedEffect`, `None` before the first composition;
      - `initialValue`: the `initialValue` argument of the latest composition;
      - `inFlight`: a loader call has been started and has not completed;
      - `loads`: how many times the loader has been invoked. */
  datatype Session<T, K> = Session(
    state: LoadingState<T>,
    lastKey: Option<K>,
    initialValue: LoadingState<T>,
    inFlight: bool,
    loads: nat)

  /** The cell as `remember { mutableStateOf(initialValue) }` creates it, before any effect runs. */
  function Seed<T, K>(initialValue: LoadingState<T>): (r: Session<T, K>)
    ensures r.state == initialValue && r.initialValue == initialValue
    ensures r.lastKey == None && !r.inFlight && r.loads == 0
  {
    Session(initialValue, None, initialValue, false, 0)
  }

  /** The start of the effect body: unless the composition's `initialValue` is a
      success, publish `Loading` and invoke the loader. A new effect supersedes
      one that is still running. */
  function Launch<T, K>(s: Session<T, K>): (r: Session<T, K>)
    ensures r.lastKey == s.lastKey && r.initialValue == s.initialValue
    ensures s.initialValue.IsSuccess() ==> r.state == s.state && !r.inFlight && r.loads == s.loads
    ensures !s.initialValue.IsSuccess() ==> r.state == Loading && r.inFlight && r.loads == s.loads + 1
  {
    if s.initialValue.IsSuccess() then s.(inFlight := false)
    else s.(state := Loading, inFlight := true, loads := s.loads + 1)
  }

  /** One composition with `initialValue` and `retryKey`. The effect is
      (re)launched only when the key differs from the key of the previous
      composition (the first composition always launches it). */
  function AfterCompose<T, K(==)>(s: Session<T, K>, initialValue: LoadingState<T>, retryKey: K): (r: Session<T, K>)
    ensures r.lastKey == Some(retryKey) && r.initialValue == initialValue
    // the cell is never re-seeded: it keeps its value or becomes Loading
    ensures r.state == s.state || r.state == Loading
    // the loader runs at most once per composition, and exactly when the key
    // changed and the seed is not a success
    ensures r.loads == s.loads || r.loads == s.loads + 1
    ensures r.loads == s.loads + 1 <==> s.lastKey != Some(retryKey) && !initialValue.IsSuccess()
    ensures s.lastKey != Some(retryKey) && !initialValue.IsSuccess() ==> r.state == Loading && r.inFlight
    // an unchanged key starts nothing and changes nothing the caller sees
    ensures s.lastKey == Some(retryKey) ==> r.state == s.state && r.inFlight == s.inFlight && r.loads == s.loads
    // a success seed suppresses the reload on every key change
    ensures initialValue.IsSuccess() ==> r.state == s.state && r.loads == s.loads
    // a key change whose seed is a success ends the superseded loader call
    ensures s.lastKey != Some(retryKey) && initialValue.IsSuccess() ==> !r.inFlight
  {
    var s' := s.(initialValue := initialValue);
    if s.lastKey == Some(retryKey) then s' else Launch(s'.(lastKey := Some(retryKey)))
  }

  /** The running loader call completes. A returned value is published as
      `Success`; a thrown `Exception` is captured as `Failure`; a thrown `Error`
      is not caught, so the cell keeps `Loading` and the throwable escapes the
      effect (see `Escaped`). With no loader call running nothing happens. */
  function AfterResult<T, K>(s: Session<T, K>, outcome: Outcome<T>): (r: Session<T, K>)
    ensures !s.inFlight ==> r == s
    ensures !r.inFlight && r.lastKey == s.lastKey && r.initialValue == s.initialValue && r.loads == s.loads
    ensures s.inFlight && outcome.Returned? ==> r.state == Success(outcome.value)
    ensures s.inFlight && outcome.Threw? && outcome.thrown.IsException() ==> r.state == Failure(outcome.thrown)
    ensures s.inFlight && outcome.Threw? && !outcome.thrown.IsException() ==> r.state == s.state
  {
    if !s.inFlight then s
    else match outcome
      case Returned(v) => s.(state := Success(v), inFlight := false)
      case Threw(t) =>
        if t.IsException() then s.(state := Failure(t), inFlight := false)
        else s.(inFlight := false)
  }

  /** The throwable that escapes the effect when the running loader call completes. */
  function Escaped<T, K>(s: Session<T, K>, outcome: Outcome<T>): (r: Option<Throwable>)
    // exceptions are captured, never propagated; only a thrown Error escapes
    ensures r.Some? <==> s.inFlight && outcome.Threw? && !outcome.thrown.IsException()
    ensures r.Some? ==> r.value == outcome.thrown
  {
    if s.inFlight && outcome.Threw? && !outcome.thrown.IsException() then Some(outcome.thrown) else None
  }

  /** An event the controller reacts to. */
  datatype Event<T, K> = Composed(initialValue: LoadingState<T>, retryKey: K) | LoaderDone(outcome: Outcome<T>)

  function Step<T, K(==)>(s: Session<T, K>, e: Event<T, K>): Session<T, K> {
    match e
    case Composed(init, k) => AfterCompose(s, init, k)
    case LoaderDone(o) => AfterResult(s, o)
  }

  function Run<T, K(==)>(s: Session<T, K>, events: seq<Event<T, K>>): Session<T, K>
    decreases |events|
  {
    if events == [] then s else Run(Step(s, events[0]), events[1..])
  }

  /** Reference count: the compositions in `events` whose key differs from the
      key of the composition before them (`prev` for the first one). */
  function KeyChanges<T, K(==)>(prev: Option<K>, events: seq<Event<T, K>>): nat
    decreases |events|
  {
    if events == [] then 0
    else match events[0]
      case Composed(_, k) => (if prev != Some(k) then 1 else 0) + KeyChanges(Some(k), events[1..])
      case LoaderDone(_) => KeyChanges(prev, events[1..])
  }

  /** Every composition in `events` passes a seed whose `isSuccess` is `success`. */
  ghost predicate SeedsAre<T, K>(events: seq<Event<T, K>>, success: bool) {
    forall i :: 0 <= i < |events| && events[i].Composed? ==> events[i].initialValue.IsSuccess() == success
  }

  /** The loader is invoked at most once per key change, exactly once per key
      change when no seed is a success, and never when every seed is a success. */
  lemma {:induction false} LoadsFollowKeyChanges<T, K>(s: Session<T, K>, events: seq<Event<T, K>>)
    ensures Run(s, events).loads <= s.loads + KeyChanges(s.lastKey, events)
    ensures SeedsAre(events, false) ==> Run(s, events).loads == s.loads + KeyChanges(s.lastKey, events)
    ensures SeedsAre(events, true) ==> Run(s, events).loads == s.loads
    decreases |events|
  {
    if events != [] {
      var rest := events[1..];
      assert SeedsAre(events, false) ==> SeedsAre(rest, false) by {
        forall i | 0 <= i < |rest| ensures rest[i] == events[i + 1] {}
      }
      assert SeedsAre(events, true) ==> SeedsAre(rest, true) by {
        forall i | 0 <= i < |rest| ensures rest[i] == events[i + 1] {}
      }
      LoadsFollowKeyChanges(Step(s, events[0]), rest);
    }
  }

  /** The key-compare idempotence: composing again with the key of the running
      effect changes neither the published state nor the loader count, whatever
      seed is passed. */
  lemma {:induction false} UnchangedKeyIsIdle<T, K>(s: Session<T, K>, init: LoadingState<T>, n: nat)
    requires s.lastKey.Some?
    ensures var r := Run(s, Repeat(Composed(init, s.lastKey.value), n));
            r.state == s.state && r.loads == s.loads && r.inFlight == s.inFlight && r.lastKey == s.lastKey
    decreases n
  {
    if n > 0 {
      var e := Composed(init, s.lastKey.value);
      assert Repeat(e, n)[0] == e && Repeat(e, n)[1..] == Repeat(e, n - 1);
      UnchangedKeyIsIdle(Step(s, e), init, n - 1);
    }
  }

  function Repeat<X>(x: X, n: nat): (r: seq<X>)
    ensures |r| == n && forall i :: 0 <= i < n ==> r[i] == x
  {
    if n == 0 then [] else [x] + Repeat(x, n - 1)
  }

  /** Controller invariant: whenever a loader call is running, the caller sees `Loading`. */
  ghost predicate LoadingWhileInFlight<T, K>(s: Session<T, K>) {
    s.inFlight ==> s.state == Loading
  }

  lemma {:induction false} LoadingWhileInFlightPreserved<T, K>(s: Session<T, K>, events: seq<Event<T, K>>)
    requires LoadingWhileInFlight(s)
    ensures LoadingWhileInFlight(Run(s, events))
    decreases |events|
  {
    if events != [] {
      LoadingWhileInFlightPreserved(Step(s, events[0]), events[1..]);
    }
  }

  /** The values an event can write into the cell. */
  ghost function Writes<T, K>(e: Event<T, K>): set<LoadingState<T>> {
    match e
    case Composed(_, _) => {Loading}
    case LoaderDone(Returned(v)) => {Success(v)}
    case LoaderDone(Threw(t)) => if t.IsException() then {Failure(t)} else {}
  }

  ghost function AllWrites<T, K>(events: seq<Event<T, K>>): set<LoadingState<T>>
    decreases |events|
  {
    if events == [] then {} else Writes(events[0]) + AllWrites(events[1..])
  }

  /** Nothing is invented: after any run the cell holds its earlier value,
      `Loading`, a value some loader call returned, or an `Exception` some
      loader call threw. */
  lemma {:induction false} StateComesFromEvents<T, K>(s: Session<T, K>, events: seq<Event<T, K>>)
    ensures Run(s, events).state == s.state || Run(s, events).state in AllWrites(events)
    decreases |events|
  {
    if events != [] {
      var e := events[0];
      StateComesFromEvents(Step(s, e), events[1..]);
      assert Step(s, e).state == s.state || Step(s, e).state in Writes(e);
    }
  }

  /** With a success seed at every composition the published value never
      changes: the seed shown first stays, and no loader call is ever started. */
  lemma {:induction false} SuccessSeedFreezesState<T, K>(s: Session<T, K>, events: seq<Event<T, K>>)
    requires !s.inFlight && SeedsAre(events, true)
    ensures Run(s, events).state == s.state && !Run(s, events).inFlight && Run(s, events).loads == s.loads
    decreases |events|
  {
    if events != [] {
      var rest := events[1..];
      assert SeedsAre(rest, true) by {
        forall i | 0 <= i < |rest| ensures rest[i] == events[i + 1] {}
      }
      SuccessSeedFreezesState(Step(s, events[0]), rest);
    }
  }

  /** One cycle from a fresh cell with a non-success seed: `Loading` while the
      loader runs, then `Success(v)` or `Failure(e)`. */
  lemma FirstCycle<T, K>(init: LoadingState<T>, key: K, outcome: Outcome<T>)
    requires !init.IsSuccess()
    ensures AfterCompose(Seed(init), init, key).state == Loading
    ensures AfterCompose(Seed(init), init, key).loads == 1
    ensures outcome.Returned? ==>
      AfterResult(AfterCompose(Seed(init), init, key), outcome).state == Success(outcome.value)
    ensures outcome.Threw? && outcome.thrown.IsException() ==>
      AfterResult(AfterCompose(Seed(init), init, key), outcome).state == Failure(outcome.thrown)
  {
  }

  /** The cell holding one controller's state, updated in place. */
  class RetryableLoadingState<T, K(==)> {
    var state: LoadingState<T>
    var lastKey: Option<K>
    var initialValue: LoadingState<T>
    var inFlight: bool
    ghost var loads: nat

    ghost function Snapshot(): Session<T, K>
      reads this
    {
      Session(state, lastKey, initialValue, inFlight, loads)
    }

    /** `remember { mutableStateOf(initialValue) }`: the cell is seeded once, here. */
    constructor (initialValue: LoadingState<T>)
      ensures state == initialValue && this.initialValue == initialValue
      ensures lastKey == None && !inFlight && loads == 0
      ensures Snapshot() == Seed(initialValue)
    {
      state := initialValue;
      lastKey := None;
      this.initialValue := initialValue;
      inFlight := false;
      loads := 0;
    }

    /** One composition: compare the key with the running effect's and, when it
        changed, run the start of the effect body. */
    method OnKey(initialValue: LoadingState<T>, retryKey: K)
      modifies this
      ensures lastKey == Some(retryKey) && this.initialValue == initialValue
      ensures old(lastKey) == Some(retryKey) ==>
        state == old(state) && inFlight == old(inFlight) && loads == old(loads)
      ensures old(lastKey) != Some(retryKey) && !initialValue.IsSuccess() ==>
        state == Loading && inFlight && loads == old(loads) + 1
      ensures old(lastKey) != Some(retryKey) && initialValue.IsSuccess() ==>
        state == old(state) && !inFlight && loads == old(loads)
      ensures Snapshot() == AfterCompose(old(Snapshot()), initialValue, retryKey)
    {
      this.initialValue := initialValue;
      if lastKey != Some(retryKey) {
        lastKey := Some(retryKey);
        if !initialValue.IsSuccess() {
          state := Loading;
          inFlight := true;
          loads := loads + 1;
        } else {
          inFlight := false;
        }
      }
    }

    /** The running loader call completes with `outcome`; returns the throwable
        that escapes the effect, if any. */
    method Complete(outcome: Outcome<T>) returns (escaped: Option<Throwable>)
      requires inFlight
      modifies this
      ensures !inFlight && lastKey == old(lastKey) && initialValue == old(initialValue) && loads == old(loads)
      ensures outcome.Returned? ==> state == Success(outcome.value) && escaped == None
      ensures outcome.Threw? && outcome.thrown.IsException() ==> state == Failure(outcome.thrown) && escaped == None
      ensures outcome.Threw? && !outcome.thrown.IsException() ==> state == old(state) && escaped == Some(outcome.thrown)
      ensures Snapshot() == AfterResult(old(Snapshot()), outcome)
      ensures escaped == Escaped(old(Snapshot()), outcome)
    {
      escaped := None;
      match outcome {
        case Returned(v) =>
          state := Success(v);
        case Threw(t) =>
          if t.IsException() {
            state := Failure(t);
          } else {
            escaped := Some(t);
          }
      }
      inFlight := false;
    }
  }

  /** The boolean-key overload: the controller's own key, plus the `update`
      closure that negates it. */
  datatype ToggleSession<T> = ToggleSession(retryKey: bool, session: Session<T, bool>)

  /** `update`: `retryKey = !retryKey`. */
  function Toggled<T>(t: ToggleSession<T>): (r: ToggleSession<T>)
    ensures r.retryKey != t.retryKey && r.session == t.session
  {
    t.(retryKey := !t.retryKey)
  }

  /** One composition of the overload: the inner controller sees the current key. */
  function ComposeToggle<T>(t: ToggleSession<T>, initialValue: LoadingState<T>): (r: ToggleSession<T>)
    ensures r.retryKey == t.retryKey && r.session.lastKey == Some(t.retryKey)
    ensures t.session.lastKey != Some(t.retryKey) && !initialValue.IsSuccess() ==>
      r.session.state == Loading && r.session.inFlight && r.session.loads == t.session.loads + 1
    ensures t.session.lastKey == Some(t.retryKey) ==>
      r.session.state == t.session.state && r.session.loads == t.session.loads
  {
    t.(session := AfterCompose(t.session, initialValue, t.retryKey))
  }

  /** `n` retries, each an `update` followed by the recomposition it causes. */
  function Retries<T>(t: ToggleSession<T>, initialValue: LoadingState<T>, n: nat): ToggleSession<T>
    decreases n
  {
    if n == 0 then t else Retries(ComposeToggle(Toggled(t), initialValue), initialValue, n - 1)
  }

  /** Every retry is a key change: with a non-success seed each of `n` retries
      invokes the loader once more and publishes `Loading`. */
  lemma {:induction false} EveryRetryReloads<T>(t: ToggleSession<T>, initialValue: LoadingState<T>, n: nat)
    requires t.session.lastKey == Some(t.retryKey) && !initialValue.IsSuccess()
    ensures var r := Retries(t, initialValue, n);
            r.session.loads == t.session.loads + n &&
            r.session.lastKey == Some(r.retryKey) &&
            r.retryKey == (if n % 2 == 0 then t.retryKey else !t.retryKey) &&
            (n > 0 ==> r.session.state == Loading && r.session.inFlight)
    decreases n
  {
    if n > 0 {
      var t' := ComposeToggle(Toggled(t), initialValue);
      EveryRetryReloads(t', initialValue, n - 1);
    }
  }

  /** The key is compared with the key of the previous composition, not counted:
      two `update` calls before one recomposition bring the key back, so no
      reload happens. */
  lemma TwoUpdatesBeforeComposeCancel<T>(t: ToggleSession<T>, initialValue: LoadingState<T>)
    requires t.session.lastKey == Some(t.retryKey)
    ensures ComposeToggle(Toggled(Toggled(t)), initialValue).session.loads == t.session.loads
    ensures ComposeToggle(Toggled(Toggled(t)), initialValue).session.state == t.session.state
  {
  }

  /** `rememberRetryableLoadingState(initialValue, loader)`: the remembered
      boolean key and the cell of the keyed controller it calls. */
  class ToggleLoadingState<T> {
    var retryKey: bool
    const cell: RetryableLoadingState<T, bool>

    ghost function Snapshot(): ToggleSession<T>
      reads this, cell
    {
      ToggleSession(retryKey, cell.Snapshot())
    }

    /** `remember { mutableStateOf(false) }` and the keyed controller's own seeding. */
    constructor (initialValue: LoadingState<T>)
      ensures retryKey == false && fresh(cell)
      ensures Snapshot() == ToggleSession(false, Seed(initialValue))
    {
      retryKey := false;
      cell := new RetryableLoadingState(initialValue);
    }

    /** One composition of the overload. */
    method Compose(initialValue: LoadingState<T>)
      modifies cell
      ensures retryKey == old(retryKey)
      ensures cell.lastKey == Some(retryKey)
      ensures old(cell.lastKey) != Some(retryKey) && !initialValue.IsSuccess() ==>
        cell.state == Loading && cell.inFlight && cell.loads == old(cell.loads) + 1
      ensures Snapshot() == ComposeToggle(old(Snapshot()), initialValue)
    {
      cell.OnKey(initialValue, retryKey);
    }

    /** The returned `update` closure. */
    method Update()
      modifies this
      ensures retryKey == !old(retryKey)
      ensures Snapshot() == Toggled(old(Snapshot()))
    {
      retryKey := !retryKey;
    }

    /** The loader call started by a composition completes. */
    method Complete(outcome: Outcome<T>) returns (escaped: Option<Throwable>)
      requires cell.inFlight
      modifies cell
      ensures retryKey == old(retryKey)
      ensures outcome.Returned? ==> cell.state == Success(outcome.value)
      ensures outcome.Threw? && outcome.thrown.IsException() ==> cell.state == Failure(outcome.thrown)
      ensures Snapshot() == ToggleSession(retryKey, AfterResult(old(cell.Snapshot()), outcome))
      ensures escaped == Escaped(old(cell.Snapshot()), outcome)
    {
      escaped := cell.Complete(outcome);
    }
  }

  /** A caller of the overload: compose, fail, retry, succeed. */
  method RetryAfterFailure<T>(v: T, e: Throwable) returns (shown: LoadingState<T>)
    requires e.IsException()
    ensures shown == Success(v)
  {
    var c := new ToggleLoadingState<T>(Loading);
    c.Compose(Loading);
    assert c.cell.state == Loading && c.cell.inFlight;
    var escaped := c.Complete(Threw(e));
    assert c.cell.state == Failure(e);
    c.Update();
    c.Compose(Loading);
    assert c.cell.state == Loading && c.cell.loads == 2;
    escaped := c.Complete(Returned(v));
    shown := c.cell.state;
  }
}

# ComposeLoading, modelled in Dafny

ComposeLoading is a small Jetpack Compose helper for asynchronous loads. It has
three parts, and this project models all three:

- a tri-state value, `LoadingState<R>`, that is `Loading`, `Success(data)` or
  `Failure(error)`;
- a retry-keyed controller, `rememberRetryableLoadingState`. It seeds a
  remembered cell with `initialValue`. On every change of `retryKey` it
  publishes `Loading`, calls the loader, and publishes `Success(result)` or
  `Failure(exception)`. This happens only when that composition's
  `initialValue` is not already a success;
- the render dispatchers. `LoadingContent` picks the slot to show and wires
  the retry. The `loadingList` overloads emit lazy-layout units: one for
  loading, one per element for a success, one for a failure.

Files:

- `wrappers.dfy` (`Wrappers`): `Option`, for Kotlin's nullable values.
- `loading_state.dfy` (`LoadingStates`): the value type, its type-test
  getters, and `Throwable`. A throwable is either an `Exception` or an
  `Error`, because `catch (e: Exception)` catches only the first kind. It
  carries an identity (`id`), because Kotlin throwables compare as objects,
  and a nullable message.
- `retryable_loading.dfy` (`RetryableLoading`): the controller.
  - `Session` is its observable state: the cell, the key of the running
    effect, the latest seed, whether a loader call is running, and how many
    loader calls have started.
  - `AfterCompose` and `AfterResult` are its two transitions. `Run` folds
    them over a sequence of events.
  - Class `RetryableLoadingState` holds the same state in fields. Its
    constructor, `OnKey` and `Complete` are proved to follow the transitions.
  - Class `ToggleLoadingState` is the boolean-key overload. It holds a
    remembered key, the `update` that negates it, and the keyed controller it
    calls.
- `loading_content.dfy` (`LoadingContents`): the three `LoadingContent`
  overloads, as slot dispatch plus retry wiring.
- `loading_list.dfy` (`LoadingLists`): the lazy list, lazy grid and lazy
  staggered grid dispatchers. Each is a function from
  `LoadingState<seq<T>>` to a sequence of render units, and each unit carries
  its key, span, content type and body. `LoadingComposable.kt:125-244` holds
  identical copies of these dispatchers (the two grid ones under the names
  `loadingGrid` and `loadingStaggeredGrid`), so they are modelled once.

How the model reads the Compose code:

- The first composition always launches the effect. The model gives the cell
  no key before that (`lastKey == None`), so the first `OnKey` counts as a key
  change.
- A composition with an unchanged key changes nothing.
- A key change while a loader call is still running starts a new cycle in
  place of the old one.

Three behaviours a reader might expect do not hold in the code; the model
follows the code each time:

- The guard `!initialValue.isSuccess` is checked again on every key change.
  So a success seed suppresses every reload, not only the first one
  (`SuccessSeedFreezesState`).
- `loadingList` has no "empty", header or footer branch. `Success([])` emits
  no units at all.
- A loader that throws an `Error` (anything that is not an `Exception`) is not
  caught. That call publishes nothing, and the throwable escapes the effect.

## Model

| member | source | states |
|---|---|---|
| LoadingStates.LoadingState.IsLoading | lib/src/main/java/com/funny/compose/loading/LoadingState.kt:15-16 | `isLoading` holds exactly for the `Loading` value |
| LoadingStates.LoadingState.IsSuccess | lib/src/main/java/com/funny/compose/loading/LoadingState.kt:17-18 | `isSuccess` holds exactly for `Success(d)`, whatever `d` is; otherwise the value is `Loading` or a `Failure` |
| LoadingStates.Throwable.IsException | lib/src/main/java/com/funny/compose/loading/LoadingComposable.kt:295 | `catch (e: Exception)` catches a throwable exactly when it is not an `Error` |
| LoadingStates.ExactlyOneCase | lib/src/main/java/com/funny/compose/loading/LoadingState.kt:10-18 | the two getters never hold together, and exactly one of loading, success and failure holds |
| LoadingStates.FailureIsNeither | lib/src/main/java/com/funny/compose/loading/LoadingState.kt:12-18 | a value is a failure exactly when neither getter holds; `Failure(e)` has both false |
| LoadingStates.PayloadEquality | lib/src/main/java/com/funny/compose/loading/LoadingState.kt:11-13 | data-class equality: `Success(a) == Success(b)` iff `a == b`, the same for `Failure`, values of different cases are never equal, and failures holding distinct throwable objects differ |
| LoadingStates.LoadingIsSingleton | lib/src/main/java/com/funny/compose/loading/LoadingState.kt:11 | any two loading values are the same value |
| RetryableLoading.Seed | lib/src/main/java/com/funny/compose/loading/LoadingComposable.kt:287-289 | the new cell holds `initialValue`; no effect has run, no key is recorded and no loader call has started |
| RetryableLoading.Launch | lib/src/main/java/com/funny/compose/loading/LoadingComposable.kt:291-292 | the effect body: with a success seed nothing is published and no loader call runs; otherwise `Loading` is published and exactly one loader call starts |
| RetryableLoading.AfterCompose | lib/src/main/java/com/funny/compose/loading/LoadingComposable.kt:287-292 | a composition records the key and seed; the cell is never re-seeded (it keeps its value or becomes `Loading`); the loader starts at most once, and exactly when the key changed and the seed is not a success, and then the state is `Loading`; an unchanged key changes nothing; a success seed never changes the state, and on a key change it ends the superseded call |
| RetryableLoading.AfterResult | lib/src/main/java/com/funny/compose/loading/LoadingComposable.kt:293-298 | a returned `v` publishes `Success(v)`; a thrown exception `e` publishes `Failure(e)`; a thrown `Error` leaves the state; the cycle ends; key, seed and load count are unchanged |
| RetryableLoading.Escaped | lib/src/main/java/com/funny/compose/loading/LoadingComposable.kt:293-298 | a throwable escapes exactly when it is not an `Exception`; exceptions are captured, never propagated |
| RetryableLoading.LoadsFollowKeyChanges | lib/src/main/java/com/funny/compose/loading/LoadingComposable.kt:290-291 | over any event sequence, loader calls are at most the number of key changes; they equal it when no seed is a success, and are zero when every seed is |
| RetryableLoading.UnchangedKeyIsIdle | lib/src/main/java/com/funny/compose/loading/LoadingComposable.kt:290 | any number of compositions with the running effect's key leave the state, the in-flight flag and the load count unchanged |
| RetryableLoading.LoadingWhileInFlightPreserved | lib/src/main/java/com/funny/compose/loading/LoadingComposable.kt:291-298 | invariant over any event sequence: while a loader call runs, the published state is `Loading` |
| RetryableLoading.StateComesFromEvents | lib/src/main/java/com/funny/compose/loading/LoadingComposable.kt:287-298 | after any event sequence, the cell holds its earlier value, `Loading`, a value a loader returned, or an exception a loader threw |
| RetryableLoading.SuccessSeedFreezesState | lib/src/main/java/com/funny/compose/loading/LoadingComposable.kt:291 | if every composition passes a success seed, the state never changes and the loader never runs, on every key change |
| RetryableLoading.FirstCycle | lib/src/main/java/com/funny/compose/loading/LoadingComposable.kt:287-298 | from a fresh cell with a non-success seed: `Loading` and one loader call, then `Success(v)` or `Failure(e)` |
| RetryableLoading.RetryableLoadingState.constructor | lib/src/main/java/com/funny/compose/loading/LoadingComposable.kt:287-289 | the cell is seeded with `initialValue`; no effect has run yet |
| RetryableLoading.RetryableLoadingState.OnKey | lib/src/main/java/com/funny/compose/loading/LoadingComposable.kt:290-292 | a changed key with a non-success seed publishes `Loading` and counts one loader call; otherwise the state is kept; the new fields equal `AfterCompose` of the old ones |
| RetryableLoading.RetryableLoadingState.Complete | lib/src/main/java/com/funny/compose/loading/LoadingComposable.kt:293-298 | publishes `Success(v)` or `Failure(e)`, or for an `Error` keeps the state and returns it as escaped; the new fields equal `AfterResult` of the old ones |
| RetryableLoading.Toggled | lib/src/main/java/com/funny/compose/loading/LoadingComposable.kt:260-264 | `update` negates the key, so the new key always differs from the old |
| RetryableLoading.ComposeToggle | lib/src/main/java/com/funny/compose/loading/LoadingComposable.kt:265-270 | the inner controller is composed with the overload's current key: a new key with a non-success seed publishes `Loading` and starts one loader call; the key the overload last composed with does nothing |
| RetryableLoading.EveryRetryReloads | lib/src/main/java/com/funny/compose/loading/LoadingComposable.kt:257-271 | with a non-success seed, `n` retries (update, then recompose) make exactly `n` loader calls; after at least one retry the state is `Loading`, and the key has the parity of `n` |
| RetryableLoading.TwoUpdatesBeforeComposeCancel | lib/src/main/java/com/funny/compose/loading/LoadingComposable.kt:257-264 | two updates before one recomposition restore the key, so neither the state nor the load count changes |
| RetryableLoading.ToggleLoadingState.constructor | lib/src/main/java/com/funny/compose/loading/LoadingComposable.kt:257-259 | the key starts `false` and the inner cell is freshly seeded |
| RetryableLoading.ToggleLoadingState.Compose | lib/src/main/java/com/funny/compose/loading/LoadingComposable.kt:265-270 | the inner controller is composed with the current key; the key itself is unchanged |
| RetryableLoading.ToggleLoadingState.Update | lib/src/main/java/com/funny/compose/loading/LoadingComposable.kt:262 | the key is negated and nothing else changes |
| RetryableLoading.ToggleLoadingState.Complete | lib/src/main/java/com/funny/compose/loading/LoadingComposable.kt:293-298 | the inner loader call completes as in `AfterResult`; the key is unchanged |
| RetryableLoading.RetryAfterFailure | lib/src/main/java/com/funny/compose/loading/LoadingComposable.kt:253-271 | a caller's run: load, fail with an exception, retry, succeed; it ends showing `Success(v)` |
| LoadingContents.KeyedContent | lib/src/main/java/com/funny/compose/loading/LoadingComposable.kt:54-60 | `Loading` gives the loading slot; `Success(d)` gives `success(d)`; `Failure(e)` gives `failure(e, retry)`, where retry calls `updateRetryKey(retryKey)`; each holds in both directions |
| LoadingContents.SeededContent | lib/src/main/java/com/funny/compose/loading/LoadingComposable.kt:89-97 | the same dispatch, with the retry being the caller's own |
| LoadingContents.KeylessUpdate | lib/src/main/java/com/funny/compose/loading/LoadingComposable.kt:118-121 | the key-less overload's update returns a different key |
| LoadingContents.DispatchIsLossless | lib/src/main/java/com/funny/compose/loading/LoadingComposable.kt:54-60 | the rendered slot determines the state, in the keyed and the seeded overloads |
| LoadingContents.RetryFromFailureReloads | lib/src/main/java/com/funny/compose/loading/LoadingComposable.kt:49-59 | from a failure, retry passes the rendered key to the update; if the update changes the key, the next composition (seeded `Loading`) shows `Loading` and makes one more loader call |
| LoadingContents.KeylessRetryReloads | lib/src/main/java/com/funny/compose/loading/LoadingComposable.kt:118-121 | in the key-less overload, retry from a failure always reloads |
| LoadingContents.SeedIsTheKey | lib/src/main/java/com/funny/compose/loading/LoadingComposable.kt:86-88 | the seeded overload uses the seed as the key: a new non-success seed reloads, and a new success seed leaves the shown state unchanged |
| LoadingContents.NewFailureSeedReloads | lib/src/main/java/com/funny/compose/loading/LoadingComposable.kt:86-88 | in the seeded overload, a `Failure` seed holding a different throwable object is a key change and reloads, whatever the messages |
| LoadingLists.LazyListUnits | lib/src/main/java/com/funny/compose/loading/LoaidngList.kt:38-51 | `Loading` emits one unit keyed `"loading"`; `Success(xs)` emits one unit per element, in order, keyed by the caller's `key` (none for an empty list), with no span and a null content type; `Failure(e)` emits one keyless unit that renders `e` |
| LoadingLists.LazyGridUnits | lib/src/main/java/com/funny/compose/loading/LoaidngList.kt:75-93 | loading and failure emit one keyless unit each spanning `maxLineSpan`; each element, in order, gets a unit with the caller's key, span and content type |
| LoadingLists.LazyStaggeredGridUnits | lib/src/main/java/com/funny/compose/loading/LoaidngList.kt:117-135 | loading and failure emit one keyless unit each spanning `StaggeredGridItemSpan.FullLine`; each element, in order, gets a unit with the caller's key, span and content type |
| LoadingLists.EmitItems | lib/src/main/java/com/funny/compose/loading/LoaidngList.kt:40-45 | `items` emits one unit per element, in list order, each built from that element |
| LoadingLists.ElementsOfEmitItems | lib/src/main/java/com/funny/compose/loading/LoaidngList.kt:40-45 | the elements rendered by `items(xs)` are exactly `xs`, in order |
| LoadingLists.RenderingIsLossless | lib/src/main/java/com/funny/compose/loading/LoaidngList.kt:38-51 | in all three dispatchers the emitted units determine the state, so no two states render alike (an empty success differs from loading and from failure) |
| LoadingLists.DistinctElementsGetDistinctKeys | lib/src/main/java/com/funny/compose/loading/LoaidngList.kt:40-41 | a key function that tells the elements apart gives every element unit its own key |
| LoadingLists.FixtureRendering | app/src/main/java/com/funny/compose/loading/LoadingFunctions.kt:23-28 | rendering the demo list `"Item 0"`..`"Item 99"` with `key = { it }` emits 100 units in order, the first keyed `"Item 0"` |

## Left out

- Compose runtime mechanics (`remember`, `mutableStateOf`, `LaunchedEffect`, recomposition, `State` observation): only their sequential effect is modelled, as a seeded cell, a key compare and two writes.
- Coroutines: suspension, dispatchers, and cancellation of an effect whose key changed. A key change during a running loader call starts a new cycle. The superseded call's late result is not modelled, and neither is `catch (e: Exception)` catching a `CancellationException`.
- `e.printStackTrace()`, the `log` helpers and the `DEBUG`/`TAG` configuration: logging only.
- `Box`, `Modifier`, `DefaultLoading`, `DefaultFailure`, and what the slot and span lambdas draw. A span is an opaque tag. A content type is what the caller's function returns for an element.
- The loader itself: each call's outcome (a returned value or a throwable) is an input of the model.
- The demo application (Examples.kt, Catalog.kt, App.kt, MainActivity.kt, and LoadingFunctions.kt apart from the `loadList` fixture): UI and Android plumbing. The `empty`, `successHeader` and `successFooter` arguments in Examples.kt do not exist in `loadingList` as written in `LoaidngList.kt`, so they are not modelled.

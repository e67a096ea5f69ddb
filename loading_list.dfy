/** The `loadingList` dispatchers for a lazy list, a lazy grid and a lazy
    staggered grid. Each one is a single `when` over the state that appends
    units to the framework's builder; here the builder's content is the
    returned sequence of units. A unit carries its key (`None`: the framework's
    positional default), its span, its content type (`None`: `null`) and what
    it renders. */
module LoadingLists {
  import opened Wrappers
  import opened LoadingStates

  /** A unit's identity: the literal key of the list's loading unit, or what the
      caller's `key` function returned for an element. */
  datatype ItemKey<K> = Literal(name: string) | FromElement(value: K)

  /** The span of a unit: the framework default, the grid's
      `GridItemSpan(maxLineSpan)`, the staggered grid's
      `StaggeredGridItemSpan.FullLine`, or what the caller's `span` returned
      (an opaque tag). */
  datatype Span<S> = DefaultSpan | MaxLineSpan | StaggeredFullLine | CallerSpan(tag: S)

  /** What a unit renders: `loading()`, `success(element)` or `failure(error)`. */
  datatype Body<T> = LoadingBody | ElementBody(element: T) | FailureBody(error: Throwable)

  datatype RenderUnit<T, K, S, C> = RenderUnit(key: Option<ItemKey<K>>, span: Span<S>, contentType: Option<C>, body: Body<T>)

  /** The literal key of the lazy list's loading unit. */
  const LoadingKey := "loading"

  /** The unit that `items(data, key, span, contentType)` emits for one element. */
  function ElementUnit<T, K, S, C>(x: T, key: Option<T -> K>, span: Option<T -> S>, contentType: T -> Option<C>): RenderUnit<T, K, S, C> {
    RenderUnit(
      if key.Some? then Some(FromElement(key.value(x))) else None,
      if span.Some? then CallerSpan(span.value(x)) else DefaultSpan,
      contentType(x),
      ElementBody(x))
  }

  /** `items(...)`: one unit per element, in list order. */
  function EmitItems<T, K, S, C>(xs: seq<T>, key: Option<T -> K>, span: Option<T -> S>, contentType: T -> Option<C>): (r: seq<RenderUnit<T, K, S, C>>)
    ensures |r| == |xs|
    ensures forall i :: 0 <= i < |xs| ==> r[i] == ElementUnit(xs[i], key, span, contentType)
    decreases |xs|
  {
    if xs == [] then [] else [ElementUnit(xs[0], key, span, contentType)] + EmitItems(xs[1..], key, span, contentType)
  }

  /** The lazy-list dispatcher: `item(key = "loading")`, `items(data, key)` (no
      span, content type `null`), or one keyless `item` for the failure. */
  function LazyListUnits<T, K, S, C>(value: LoadingState<seq<T>>, key: Option<T -> K>): (us: seq<RenderUnit<T, K, S, C>>)
    // loading: one unit, keyed "loading"
    ensures value.Loading? ==> us == [RenderUnit(Some(Literal("loading")), DefaultSpan, None, LoadingBody)]
    // failure: one keyless unit that renders the error
    ensures value.Failure? ==> us == [RenderUnit(None, DefaultSpan, None, FailureBody(value.error))]
    // success: one unit per element, in order, keyed by the caller's `key`
    // (none for an empty list), with no span and a null content type
    ensures value.Success? ==> |us| == |value.data|
    ensures value.Success? ==> forall i :: 0 <= i < |us| ==>
      us[i].body == ElementBody(value.data[i]) &&
      us[i].span == DefaultSpan && us[i].contentType == None &&
      us[i].key == (if key.Some? then Some(FromElement(key.value(value.data[i]))) else None)
  {
    match value
    case Loading => [RenderUnit(Some(Literal(LoadingKey)), DefaultSpan, None, LoadingBody)]
    case Success(xs) => EmitItems(xs, key, None, _ => None)
    case Failure(e) => [RenderUnit(None, DefaultSpan, None, FailureBody(e))]
  }

  /** The shape shared by both grid dispatchers: a keyless full-line unit for
      loading and for failure, and the caller's key, span and content type for
      each element. */
  function FullLineUnits<T, K, S, C>(value: LoadingState<seq<T>>, fullLine: Span<S>, key: Option<T -> K>, span: Option<T -> S>, contentType: T -> Option<C>): (us: seq<RenderUnit<T, K, S, C>>)
    ensures value.Loading? ==> us == [RenderUnit(None, fullLine, None, LoadingBody)]
    ensures value.Failure? ==> us == [RenderUnit(None, fullLine, None, FailureBody(value.error))]
    ensures value.Success? ==> us == EmitItems(value.data, key, span, contentType)
  {
    match value
    case Loading => [RenderUnit(None, fullLine, None, LoadingBody)]
    case Success(xs) => EmitItems(xs, key, span, contentType)
    case Failure(e) => [RenderUnit(None, fullLine, None, FailureBody(e))]
  }

  /** The lazy-grid dispatcher (`fullLineItem` spans `maxLineSpan`). */
  function LazyGridUnits<T, K, S, C>(value: LoadingState<seq<T>>, key: Option<T -> K>, span: Option<T -> S>, contentType: T -> Option<C>): (us: seq<RenderUnit<T, K, S, C>>)
    // loading and failure: one keyless unit spanning the full line (`GridItemSpan(maxLineSpan)`)
    ensures value.Loading? ==> us == [RenderUnit(None, MaxLineSpan, None, LoadingBody)]
    ensures value.Failure? ==> us == [RenderUnit(None, MaxLineSpan, None, FailureBody(value.error))]
    // success: one unit per element, in order, with the caller's key, span and content type
    ensures value.Success? ==> |us| == |value.data|
    ensures value.Success? ==> forall i :: 0 <= i < |us| ==>
      us[i].body == ElementBody(value.data[i]) &&
      us[i].span == (if span.Some? then CallerSpan(span.value(value.data[i])) else DefaultSpan) &&
      us[i].contentType == contentType(value.data[i]) &&
      us[i].key == (if key.Some? then Some(FromElement(key.value(value.data[i]))) else None)
  {
    FullLineUnits(value, MaxLineSpan, key, span, contentType)
  }

  /** The staggered-grid dispatcher (`fullLineItem` spans `FullLine`). */
  function LazyStaggeredGridUnits<T, K, S, C>(value: LoadingState<seq<T>>, key: Option<T -> K>, span: Option<T -> S>, contentType: T -> Option<C>): (us: seq<RenderUnit<T, K, S, C>>)
    // loading and failure: one keyless unit spanning the full line (`StaggeredGridItemSpan.FullLine`)
    ensures value.Loading? ==> us == [RenderUnit(None, StaggeredFullLine, None, LoadingBody)]
    ensures value.Failure? ==> us == [RenderUnit(None, StaggeredFullLine, None, FailureBody(value.error))]
    // success: one unit per element, in order, with the caller's key, span and content type
    ensures value.Success? ==> |us| == |value.data|
    ensures value.Success? ==> forall i :: 0 <= i < |us| ==>
      us[i].body == ElementBody(value.data[i]) &&
      us[i].span == (if span.Some? then CallerSpan(span.value(value.data[i])) else DefaultSpan) &&
      us[i].contentType == contentType(value.data[i]) &&
      us[i].key == (if key.Some? then Some(FromElement(key.value(value.data[i]))) else None)
  {
    FullLineUnits(value, StaggeredFullLine, key, span, contentType)
  }

  /** The elements rendered by a sequence of units, in order. */
  function Elements<T, K, S, C>(units: seq<RenderUnit<T, K, S, C>>): seq<T>
    decreases |units|
  {
    if units == [] then []
    else (if units[0].body.ElementBody? then [units[0].body.element] else []) + Elements(units[1..])
  }

  /** Reads the state back from what was rendered. */
  function Unrender<T, K, S, C>(units: seq<RenderUnit<T, K, S, C>>): LoadingState<seq<T>> {
    if |units| == 1 && units[0].body.LoadingBody? then Loading
    else if |units| == 1 && units[0].body.FailureBody? then Failure(units[0].body.error)
    else Success(Elements(units))
  }

  lemma {:induction false} ElementsOfEmitItems<T, K, S, C>(xs: seq<T>, key: Option<T -> K>, span: Option<T -> S>, contentType: T -> Option<C>)
    ensures Elements(EmitItems(xs, key, span, contentType)) == xs
    decreases |xs|
  {
    if xs != [] {
      var us := EmitItems(xs, key, span, contentType);
      assert us[1..] == EmitItems(xs[1..], key, span, contentType);
      ElementsOfEmitItems(xs[1..], key, span, contentType);
      assert xs == [xs[0]] + xs[1..];
    }
  }

  /** Rendering is lossless in all three dispatchers: the emitted units
      determine the state, so no two states render alike. */
  lemma {:induction false} RenderingIsLossless<T, K, S, C>(value: LoadingState<seq<T>>, key: Option<T -> K>, span: Option<T -> S>, contentType: T -> Option<C>)
    ensures Unrender(LazyListUnits<T, K, S, C>(value, key)) == value
    ensures Unrender(LazyGridUnits(value, key, span, contentType)) == value
    ensures Unrender(LazyStaggeredGridUnits(value, key, span, contentType)) == value
  {
    if value.Success? {
      var xs := value.data;
      ElementsOfEmitItems<T, K, S, C>(xs, key, None, _ => None);
      ElementsOfEmitItems(xs, key, span, contentType);
      if |xs| == 1 {
        assert EmitItems<T, K, S, C>(xs, key, None, _ => None)[0].body == ElementBody(xs[0]);
        assert EmitItems(xs, key, span, contentType)[0].body == ElementBody(xs[0]);
      }
    }
  }

  /** With a key function that tells the elements apart, every element unit
      has its own key, as the lazy layouts require. */
  lemma DistinctElementsGetDistinctKeys<T, K, S, C>(xs: seq<T>, key: T -> K, span: Option<T -> S>, contentType: T -> Option<C>)
    requires forall i, j :: 0 <= i < j < |xs| ==> key(xs[i]) != key(xs[j])
    ensures var us := EmitItems(xs, Some(key), span, contentType);
      forall i, j :: 0 <= i < j < |us| ==> us[i].key != us[j].key
  {
  }

  /** The list the demo's `loadList` returns: "Item 0" to "Item 99". */
  function LoadListFixture(): (r: seq<string>)
    ensures |r| == 100
  {
    seq(100, i requires 0 <= i < 100 => "Item " + Decimal(i))
  }

  function Decimal(n: nat): string
    decreases n
  {
    if n < 10 then [DigitChar(n)] else Decimal(n / 10) + [DigitChar(n % 10)]
  }

  function DigitChar(d: nat): char
    requires d < 10
  {
    ('0' as int + d) as char
  }

  /** Rendering the fixture with `key = { it }` emits 100 units, each keyed and
      rendering its own string, in order. */
  lemma FixtureRendering(key: string -> string)
    requires forall x :: key(x) == x
    ensures var us := LazyListUnits<string, string, bool, bool>(Success(LoadListFixture()), Some(key));
      |us| == 100 &&
      us[0].body == ElementBody("Item 0") && us[0].key == Some(FromElement("Item 0")) &&
      us[99].body == ElementBody("Item 99") &&
      Elements(us) == LoadListFixture()
  {
    var xs := LoadListFixture();
    ElementsOfEmitItems<string, string, bool, bool>(xs, Some(key), None, _ => None);
    assert DigitChar(0) == '0' && DigitChar(9) == '9';
    assert Decimal(0) == "0";
    assert Decimal(99) == Decimal(9) + ['9'] == "99";
    assert xs[0] == "Item 0" && xs[99] == "Item 99";
  }
}

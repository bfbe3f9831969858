/** `Renderer` of RenderContext.tsx: the `VisualizationType` dispatch over
    the aggregations, the pixel loop, and the render cache (`render` over
    `renderCache`/`renderQueue`). The canvas, `ImageData`, `toBlob` and the
    colour scale are outside the model: the scale is a parameter and the
    blob `toBlob` hands to its callback is an input. */
module RenderContext {
  import opened Wrappers
  import opened Numbers
  import opened Grids
  import opened Aggregation
  import opened Raster
  import opened Coalescing
  import opened DataContext

  /** `VisualizationType`, a numeric enum: MEAN = 0, MAX = 1, MIN = 2,
      REAL1 = 3, NONE = 4. */
  datatype Visualization = Mean | Maximum | Minimum | Real1 | NoOverlay

  function Code(v: Visualization): (n: int)
    ensures 0 <= n <= 4
  {
    match v
    case Mean => 0
    case Maximum => 1
    case Minimum => 2
    case Real1 => 3
    case NoOverlay => 4
  }

  /** The `switch` on `args.visualization`: `None` is its `default` case. */
  function FromCode(code: int): (r: Option<Visualization>)
    ensures r.Some? <==> 0 <= code <= 4
  {
    if code == 0 then Some(Mean)
    else if code == 1 then Some(Maximum)
    else if code == 2 then Some(Minimum)
    else if code == 3 then Some(Real1)
    else if code == 4 then Some(NoOverlay)
    else None
  }

  /** Each case label selects its own member and every member has a label. */
  lemma CodeRoundTrip(v: Visualization, code: int)
    ensures FromCode(Code(v)) == Some(v)
    ensures FromCode(code).Some? ==> Code(FromCode(code).value) == code
  {
  }

  /** `{ visualization, time }`: serialised by `JSON.stringify`, which keeps
      distinct pairs distinct, so the pair is the key. The visualization is
      the raw number, since any number can arrive here at run time. */
  datatype RenderKey = RenderKey(visualization: int, time: string)

  datatype RenderError =
    | UnknownVisualization(code: int)  // the `default` case throws
    | NoRealizations                   // destructuring `data[0]` of an empty list
    | DataFailed(error: DataError)     // a rejected data request

  /** The frame the `switch` produces. `meta` is what `getMetadata`
      returned and `load` answers each data request of the data cache. */
  function Dispatch(code: int, time: string, meta: Result<Metadata, DataError>,
                    load: DataKey -> Result<Field, DataError>): (r: Result<Frame, RenderError>)
    ensures FromCode(code).None? ==> r == Err(UnknownVisualization(code))
    ensures code == 4 ==> r == Ok(Grid(0, 0, []))
    ensures code == 3 && load(DataKey(1, time)).Ok? ==> r == Ok(Lift(load(DataKey(1, time)).value))
    ensures code == 3 && load(DataKey(1, time)).Err? ==> r == Err(DataFailed(load(DataKey(1, time)).error))
    ensures 0 <= code <= 2 && r.Ok? ==>
              && meta.Ok? && meta.value.realMin < meta.value.realMax
              && load(DataKey(meta.value.realMin, time)).Ok?
              && var first := load(DataKey(meta.value.realMin, time)).value;
                 r.value.width == first.width && r.value.height == first.height
                 && |r.value.cells| == first.width * first.height
  {
    match FromCode(code)
    case None => Err(UnknownVisualization(code))
    case Some(NoOverlay) => Ok(Grid(0, 0, []))
    case Some(Real1) =>
      (match load(DataKey(1, time))
       case Ok(g) => Ok(Lift(g))
       case Err(e) => Err(DataFailed(e)))
    case Some(v) =>
      match GetAllRealizations(meta, time, load)
      case Err(e) => Err(DataFailed(e))
      case Ok(data) =>
        var agg := match v
          case Mean => MeanOf(data)
          case Maximum => ExtremumOf(Max, data)
          case _ => ExtremumOf(Min, data);
        if agg.None? then Err(NoRealizations) else Ok(agg.value)
  }

  /** `NONE` requests no data: its frame is the same whatever the metadata
      and the data cache would answer. */
  lemma NoOverlayFetchesNothing(time: string, meta: Result<Metadata, DataError>, meta': Result<Metadata, DataError>,
                                load: DataKey -> Result<Field, DataError>, load': DataKey -> Result<Field, DataError>)
    ensures Dispatch(4, time, meta, load) == Dispatch(4, time, meta', load')
    ensures Dispatch(4, time, meta, load).Ok? && Dispatch(4, time, meta, load).value.width == 0
    ensures Dispatch(4, time, meta, load).value.height == 0 && Dispatch(4, time, meta, load).value.cells == []
  {
  }

  /** `REAL1` asks for realization 1 alone, ignores the metadata, and its
      frame gives back exactly the grid the data cache returned. */
  lemma Real1IsPassthrough(time: string, meta: Result<Metadata, DataError>, meta': Result<Metadata, DataError>,
                           load: DataKey -> Result<Field, DataError>, g: Field)
    requires load(DataKey(1, time)) == Ok(g)
    ensures Dispatch(3, time, meta, load) == Dispatch(3, time, meta', load)
    ensures Dispatch(3, time, meta, load).Ok?
    ensures forall h :: Lift(h) == Dispatch(3, time, meta, load).value ==> h == g
  {
    forall h | Lift(h) == Dispatch(3, time, meta, load).value
      ensures h == g
    {
      LiftIsInjective(h, g);
    }
  }

  /** The three aggregations read every realization of the metadata range,
      and only its first realization decides the frame's dimensions. */
  lemma AggregationsUseEveryRealization(code: int, time: string, m: Metadata,
                                        load: DataKey -> Result<Field, DataError>)
    requires 0 <= code <= 2
    requires m.realMin < m.realMax
    requires forall i :: m.realMin <= i < m.realMax ==> load(DataKey(i, time)).Ok?
    ensures var data := seq(m.realMax - m.realMin, i requires 0 <= i < m.realMax - m.realMin =>
                              load(DataKey(m.realMin + i, time)).value);
            Dispatch(code, time, Ok(m), load)
              == Ok((if code == 0 then MeanOf(data)
                     else if code == 1 then ExtremumOf(Max, data)
                     else ExtremumOf(Min, data)).value)
  {
    var data := seq(m.realMax - m.realMin, i requires 0 <= i < m.realMax - m.realMin =>
                      load(DataKey(m.realMin + i, time)).value);
    var got := GetAllRealizations(Ok(m), time, load);
    assert got.Ok?;
    assert got.value == data;
  }

  // ----------------------------------------------------------- drawing

  /** `ImageData` contents and the size `render` returns. */
  datatype Drawing = Drawing(width: nat, height: nat, pixels: seq<byte>)

  /** Everything `render` does between queueing the key and calling
      `toBlob`: the dispatch, then the pixel loop over the frame. */
  function Draw(code: int, time: string, meta: Result<Metadata, DataError>,
                load: DataKey -> Result<Field, DataError>, gradient: Val -> Color): (r: Result<Drawing, RenderError>)
    ensures r.Err? <==> Dispatch(code, time, meta, load).Err?
    ensures r.Err? ==> r.error == Dispatch(code, time, meta, load).error
    ensures r.Ok? ==> var f := Dispatch(code, time, meta, load).value;
              && r.value.width == f.width && r.value.height == f.height
              && |r.value.pixels| == 4 * f.width * f.height
              && forall i: nat, j: nat, c: nat {:trigger ByteIndex(f.width, i, j, c)} ::
                   i < f.width && j < f.height && c < 4 ==>
                   ByteIndex(f.width, i, j, c) < |r.value.pixels| &&
                   r.value.pixels[ByteIndex(f.width, i, j, c)]
                     == Channel(gradient(Relative(CellAt(f, SourceIndex(f.width, f.height, i, j)))), c)
  {
    match Dispatch(code, time, meta, load)
    case Err(e) => Err(e)
    case Ok(f) => Ok(Drawing(f.width, f.height, Image(f, gradient)))
  }

  // -------------------------------------------------------- the cache

  /** What `toBlob` hands to its callback when it is not `null`. */
  datatype Blob = Blob(bytes: seq<byte>)

  /** `RenderCacheEntry`. */
  datatype RenderEntry = RenderEntry(width: nat, height: nat, data: Blob)

  type RenderSystem = System<RenderKey, RenderEntry>

  /** A working call of `render` draws its own key: the `switch` on the
      key's visualization, then the pixel loop. A failure (an unknown
      visualization, a failed data request, no realization) throws with the
      key still queued. Otherwise the call returns `[width, height]` of the
      frame at once, and the key stays queued until the `toBlob` callback
      runs. */
  function Drawn(s: RenderSystem, id: nat, meta: Result<Metadata, DataError>,
                 load: DataKey -> Result<Field, DataError>, gradient: Val -> Color)
    : (r: (RenderSystem, Option<(nat, nat)>))
    requires id < |s.calls| && s.calls[id].Working?
    ensures var k := s.calls[id].key;
            var f := Dispatch(k.visualization, k.time, meta, load);
            && |r.0.calls| == |s.calls|
            && (r.1.Some? <==> f.Ok?)
            && (f.Ok? ==> r.0 == s && r.1.value == (f.value.width, f.value.height))
            && (f.Err? ==> r.0.cache == s.cache && r.0.calls[id].Abandoned?)
  {
    var k := s.calls[id].key;
    match Draw(k.visualization, k.time, meta, load, gradient)
    case Err(_) => (Next(s, Throw(id)), None)
    case Ok(drawing) => (s, Some((drawing.width, drawing.height)))
  }

  /** The `toBlob` callback of a call whose drawing succeeded: the entry
      (the drawing's size and the blob) is stored only if the blob is not
      `null`; the key is dequeued either way. */
  function BlobReady(s: RenderSystem, id: nat, meta: Result<Metadata, DataError>,
                     load: DataKey -> Result<Field, DataError>, gradient: Val -> Color,
                     blob: Option<Blob>): (t: RenderSystem)
    requires id < |s.calls| && s.calls[id].Working?
    requires var k := s.calls[id].key; Draw(k.visualization, k.time, meta, load, gradient).Ok?
    ensures var k := s.calls[id].key;
            var f := Dispatch(k.visualization, k.time, meta, load).value;
            && t.cache.inFlight == s.cache.inFlight - {k}
            && (blob.None? ==> t.cache.completed == s.cache.completed)
            && (blob.Some? ==> t.cache.completed == s.cache.completed[k := RenderEntry(f.width, f.height, blob.value)])
  {
    var k := s.calls[id].key;
    var d := Draw(k.visualization, k.time, meta, load, gradient).value;
    Next(s, Complete(id, if blob.Some? then Some(RenderEntry(d.width, d.height, blob.value)) else None))
  }

  /** The size a served call returns: the cached `[width, height]`. */
  function ReturnedSize(p: Phase<RenderKey, RenderEntry>): Option<(nat, nat)> {
    if p.Served? then Some((p.value.width, p.value.height)) else None
  }

  /** A call whose key is in `renderCache` (after the wait loop) returns the
      cached width and height and never queues the key. */
  lemma CachedRenderReturnsStoredSize(s: RenderSystem, id: nat)
    requires Inv(s)
    requires id < |s.calls| && s.calls[id].Polling? && s.calls[id].key in s.cache.completed
    ensures var t := Next(s, Poll(id));
            var e := s.cache.completed[s.calls[id].key];
            && t.cache.inFlight == s.cache.inFlight
            && ReturnedSize(t.calls[id]) == Some((e.width, e.height))
  {
    StoredKeyIsServed(s, id);
  }

  /** A failed drawing strands the key: `renderQueue` keeps it forever, so
      every later call for it waits and nothing is ever cached for it. */
  lemma FailedDrawStrandsKey(s: RenderSystem, id: nat, meta: Result<Metadata, DataError>,
                             load: DataKey -> Result<Field, DataError>, gradient: Val -> Color,
                             later: seq<Event<RenderKey, RenderEntry>>)
    requires Inv(s)
    requires id < |s.calls| && s.calls[id].Working?
    requires var k := s.calls[id].key; Dispatch(k.visualization, k.time, meta, load).Err?
    ensures var k := s.calls[id].key;
            var u := Run(Drawn(s, id, meta, load, gradient).0, later);
            k in u.cache.inFlight && k !in u.cache.completed
  {
    ThrowStrands(s, id);
    NextKeepsInv(s, Throw(id));
    StrandedForever(Next(s, Throw(id)), s.calls[id].key, later);
  }

  /** An unknown visualization makes the drawing fail. */
  lemma UnknownVisualizationFails(code: int, time: string, meta: Result<Metadata, DataError>,
                                  load: DataKey -> Result<Field, DataError>, gradient: Val -> Color)
    requires !(0 <= code <= 4)
    ensures Draw(code, time, meta, load, gradient) == Err(UnknownVisualization(code))
  {
  }

  /** A key with an unknown visualization throws after it was queued: the
      call returns nothing, and the key is never dequeued nor cached,
      whatever happens later. */
  lemma UnknownVisualizationStrandsKey(s: RenderSystem, id: nat, meta: Result<Metadata, DataError>,
                                       load: DataKey -> Result<Field, DataError>, gradient: Val -> Color,
                                       later: seq<Event<RenderKey, RenderEntry>>)
    requires Inv(s)
    requires id < |s.calls| && s.calls[id].Working?
    requires !(0 <= s.calls[id].key.visualization <= 4)
    ensures Drawn(s, id, meta, load, gradient).1 == None
    ensures var k := s.calls[id].key;
            var u := Run(Drawn(s, id, meta, load, gradient).0, later);
            k in u.cache.inFlight && k !in u.cache.completed
  {
    var k := s.calls[id].key;
    UnknownVisualizationFails(k.visualization, k.time, meta, load, gradient);
    FailedDrawStrandsKey(s, id, meta, load, gradient, later);
  }

  /** A `null` blob dequeues the key without caching anything, so the next
      call for the key renders again; a real blob is cached with the size
      of the key's own frame, which the key had no entry for before. */
  lemma BlobDecidesCaching(s: RenderSystem, id: nat, meta: Result<Metadata, DataError>,
                           load: DataKey -> Result<Field, DataError>, gradient: Val -> Color,
                           blob: Option<Blob>)
    requires Inv(s)
    requires id < |s.calls| && s.calls[id].Working?
    requires var k := s.calls[id].key; Draw(k.visualization, k.time, meta, load, gradient).Ok?
    ensures var k := s.calls[id].key;
            var f := Dispatch(k.visualization, k.time, meta, load).value;
            var t := BlobReady(s, id, meta, load, gradient, blob);
            && k !in s.cache.completed
            && k !in t.cache.inFlight
            && (blob.None? ==> k !in t.cache.completed)
            && (blob.Some? ==> k in t.cache.completed
                               && t.cache.completed[k] == RenderEntry(f.width, f.height, blob.value))
  {
    var k := s.calls[id].key;
    var d := Draw(k.visualization, k.time, meta, load, gradient).value;
    CompleteDequeues(s, id, if blob.Some? then Some(RenderEntry(d.width, d.height, blob.value)) else None);
  }

  /** The entry cached for a `NONE` key is a 0 x 0 image: what is cached
      under a key is drawn from that key. */
  lemma NoOverlayCachesEmptyEntry(s: RenderSystem, id: nat, meta: Result<Metadata, DataError>,
                                  load: DataKey -> Result<Field, DataError>, gradient: Val -> Color,
                                  b: Blob)
    requires id < |s.calls| && s.calls[id].Working? && s.calls[id].key.visualization == 4
    ensures var k := s.calls[id].key;
            Draw(k.visualization, k.time, meta, load, gradient).Ok?
            && BlobReady(s, id, meta, load, gradient, Some(b)).cache.completed[k] == RenderEntry(0, 0, b)
  {
  }
}

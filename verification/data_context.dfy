/** `DataProvider` of DataContext.tsx: the per-realization grid cache
    (`render` over `dataCache`/`dataQueue`), the realization range of
    `getAllRealizations` and the memoised `getMetadata`. Network access and
    NetCDF decoding are outside the model: what they produce is an input. */
module DataContext {
  import opened Wrappers
  import opened Numbers
  import opened Grids
  import opened Coalescing

  /** `{ realization, time }`. The cache is keyed by
      `JSON.stringify(args)`, which maps distinct pairs to distinct strings,
      so the pair itself serves as the key. */
  datatype DataKey = DataKey(realization: int, time: string)

  datatype Metadata = Metadata(realMin: int, realMax: int, hourMin: string, hourMax: string)

  datatype DataError =
    | Unreadable          // `fetch`, `arrayBuffer` or `NetCDFReader` failed
    | IncompleteDataset   // no `x` or no `y` dimension
    | MissingVariable     // no `precipitation_amount_1hsum` variable
    | InvalidArrayLength  // `Array(real_max - real_min)` with a negative length

  /** The decoded file for one key: the sizes of its `x` and `y` dimensions
      and its data variable, each absent when the file lacks it. */
  datatype Response =
    | Failed
    | Dataset(x: Option<nat>, y: Option<nat>, variable: Option<seq<Val>>)

  /** The tail of `render` after the fetch: width is the `x` size, height
      the `y` size, and the cells are the data variable as it is, whatever
      its length. */
  function Load(resp: Response): (r: Result<Field, DataError>)
    ensures r.Ok? <==> resp.Dataset? && resp.x.Some? && resp.y.Some? && resp.variable.Some?
    ensures r.Ok? ==> r.value == Grid(resp.x.value, resp.y.value, resp.variable.value)
    ensures resp.Dataset? && (resp.x.None? || resp.y.None?) ==> r == Err(IncompleteDataset)
  {
    match resp
    case Failed => Err(Unreadable)
    case Dataset(x, y, variable) =>
      if x.None? || y.None? then Err(IncompleteDataset)
      else if variable.None? then Err(MissingVariable)
      else Ok(Grid(x.value, y.value, variable.value))
  }

  // ----------------------------------------------------------- the cache

  type DataSystem = System<DataKey, Field>

  /** A working call of `render` receives its response: a loaded grid is
      stored (`dataCache.set`) and its key dequeued (`dataQueue.delete`);
      any failure throws with the key still queued. */
  function Respond(s: DataSystem, id: nat, resp: Response): (t: DataSystem)
    requires id < |s.calls| && s.calls[id].Working?
    ensures |t.calls| == |s.calls|
    ensures Load(resp).Ok? ==> var k := s.calls[id].key;
              && t.cache.inFlight == s.cache.inFlight - {k}
              && t.cache.completed == s.cache.completed[k := Load(resp).value]
              && t.calls[id] == Settled(k, Some(Load(resp).value))
    ensures Load(resp).Err? ==> t.cache == s.cache && t.calls[id].Abandoned?
  {
    match Load(resp)
    case Ok(g) => Next(s, Complete(id, Some(g)))
    case Err(_) => Next(s, Throw(id))
  }

  /** A loaded grid is stored under the key, the key leaves the queue, and
      every later state still maps the key to that grid. */
  lemma LoadedGridIsKept(s: DataSystem, id: nat, resp: Response, later: seq<Event<DataKey, Field>>)
    requires Inv(s)
    requires id < |s.calls| && s.calls[id].Working?
    requires Load(resp).Ok?
    ensures var k := s.calls[id].key;
            var t := Respond(s, id, resp);
            && k !in t.cache.inFlight
            && k in t.cache.completed && t.cache.completed[k] == Load(resp).value
            && k in Run(t, later).cache.completed
            && Run(t, later).cache.completed[k] == Load(resp).value
  {
    var t := Respond(s, id, resp);
    NextKeepsInv(s, Complete(id, Some(Load(resp).value)));
    RunKeepsInv(t, later);
  }

  /** A file without an `x` or `y` dimension throws "Incomplete dataset"
      with the key still queued: from then on every caller for that key
      waits forever and nothing is ever stored for it. */
  lemma IncompleteDatasetStrandsKey(s: DataSystem, id: nat, resp: Response, later: seq<Event<DataKey, Field>>)
    requires Inv(s)
    requires id < |s.calls| && s.calls[id].Working?
    requires resp.Dataset? && (resp.x.None? || resp.y.None?)
    ensures var k := s.calls[id].key;
            var u := Run(Respond(s, id, resp), later);
            && k in u.cache.inFlight
            && k !in u.cache.completed
  {
    ThrowStrands(s, id);
    NextKeepsInv(s, Throw(id));
    StrandedForever(Next(s, Throw(id)), s.calls[id].key, later);
  }

  // ------------------------------------------------- getAllRealizations

  /** The keys `getAllRealizations` asks for: `Array(real_max - real_min)`
      (a `RangeError` when negative), each index shifted by `real_min`. */
  function RealizationKeys(meta: Metadata, time: string): (r: Result<seq<DataKey>, DataError>)
    ensures r.Err? <==> meta.realMax < meta.realMin
    ensures r.Ok? ==> |r.value| == meta.realMax - meta.realMin
    ensures r.Ok? ==> forall i :: 0 <= i < |r.value| ==> r.value[i] == DataKey(meta.realMin + i, time)
    ensures r.Ok? ==> forall key: DataKey :: key in r.value <==>
              key.time == time && meta.realMin <= key.realization < meta.realMax
    ensures r.Ok? ==> forall a, b :: 0 <= a < b < |r.value| ==>
              r.value[a].realization < r.value[b].realization
  {
    if meta.realMax < meta.realMin then Err(InvalidArrayLength)
    else
      var n := meta.realMax - meta.realMin;
      var keys := seq(n, i requires 0 <= i < n => DataKey(meta.realMin + i, time));
      assert forall key: DataKey :: key.time == time && meta.realMin <= key.realization < meta.realMax ==>
        keys[key.realization - meta.realMin] == key;
      Ok(keys)
  }

  /** `Promise.all` over the per-key loads: the grids in key order, or an
      error if any load fails (the lowest failing position is reported;
      which rejection settles first is not modelled). */
  function LoadAll(keys: seq<DataKey>, load: DataKey -> Result<Field, DataError>): (r: Result<seq<Field>, DataError>)
    ensures r.Ok? <==> forall i :: 0 <= i < |keys| ==> load(keys[i]).Ok?
    ensures r.Ok? ==> |r.value| == |keys| && forall i :: 0 <= i < |keys| ==> r.value[i] == load(keys[i]).value
    ensures r.Err? ==> exists i :: 0 <= i < |keys| && load(keys[i]) == Err(r.error)
  {
    if |keys| == 0 then Ok([])
    else
      match load(keys[0])
      case Err(e) => Err(e)
      case Ok(g) =>
        match LoadAll(keys[1..], load)
        case Err(e) => Err(e)
        case Ok(rest) => Ok([g] + rest)
  }

  /** `getAllRealizations(time)`: metadata (or its failure), then the grid
      of every realization `real_min .. real_max - 1` at `time`, in order. */
  function GetAllRealizations(meta: Result<Metadata, DataError>, time: string,
                              load: DataKey -> Result<Field, DataError>): (r: Result<seq<Field>, DataError>)
    ensures meta.Err? ==> r == Err(meta.error)
    ensures meta.Ok? && meta.value.realMax < meta.value.realMin ==> r == Err(InvalidArrayLength)
    ensures (meta.Ok? && meta.value.realMin <= meta.value.realMax &&
             forall i :: meta.value.realMin <= i < meta.value.realMax ==> load(DataKey(i, time)).Ok?) ==> r.Ok?
    ensures r.Ok? ==> |r.value| == meta.value.realMax - meta.value.realMin
    ensures r.Ok? ==> forall i :: 0 <= i < |r.value| ==>
              load(DataKey(meta.value.realMin + i, time)).Ok? &&
              r.value[i] == load(DataKey(meta.value.realMin + i, time)).value
  {
    match meta
    case Err(e) => Err(e)
    case Ok(m) =>
      match RealizationKeys(m, time)
      case Err(e) => Err(e)
      case Ok(keys) => LoadAll(keys, load)
  }

  // -------------------------------------------------------- getMetadata

  /** One `getMetadata` call that runs to the end without another call in
      between: the memoised object if there is one (no fetch), otherwise
      the fetched one, which is then memoised. A failed fetch memoises
      nothing. */
  function GetMetadata(memo: Option<Metadata>, fetched: Result<Metadata, DataError>)
    : (r: (Option<Metadata>, Result<Metadata, DataError>))
    ensures memo.Some? ==> r.0 == memo && r.1 == Ok(memo.value)
    ensures memo.None? ==> r.1 == fetched
    ensures r.1.Ok? ==> r.0 == Some(r.1.value)
    ensures r.1.Err? ==> r.0 == memo
  {
    match memo
    case Some(m) => (memo, Ok(m))
    case None =>
      match fetched
      case Ok(m) => (Some(m), Ok(m))
      case Err(e) => (None, Err(e))
  }

  /** The answers of a run of `getMetadata` calls, each with what its fetch
      would return. */
  function GetMetadataRun(memo: Option<Metadata>, fetches: seq<Result<Metadata, DataError>>)
    : seq<Result<Metadata, DataError>>
    decreases |fetches|
  {
    if |fetches| == 0 then []
    else
      var (memo', answer) := GetMetadata(memo, fetches[0]);
      [answer] + GetMetadataRun(memo', fetches[1..])
  }

  /** After the first successful load every later call returns that same
      object, whatever a fetch would have returned. */
  lemma {:induction false} MetadataMemoised(m: Metadata, fetches: seq<Result<Metadata, DataError>>)
    ensures |GetMetadataRun(Some(m), fetches)| == |fetches|
    ensures forall i :: 0 <= i < |fetches| ==> GetMetadataRun(Some(m), fetches)[i] == Ok(m)
    decreases |fetches|
  {
    if |fetches| > 0 {
      MetadataMemoised(m, fetches[1..]);
    }
  }
}

/** The request-coalescing protocol that `DataContext.render` and
    `RenderContext.render` both follow, over a `completed` map (`dataCache`
    or `renderCache`) and an `inFlight` set (`dataQueue` or `renderQueue`).

    JavaScript runs one task at a time and only switches at an `await`, so
    each call is a sequence of atomic steps:
    - `Poll`: one test of the wait loop `while (queue.has(key)) await
      sleep(100)`; once the key is not queued, the cache test and the
      `queue.add` that follow run in the same step;
    - `Complete`: the work settled normally: the key is dequeued and the
      result, if there is one, is stored;
    - `Throw`: the work threw; nothing is cleaned up.
    Timing is not modelled: a poll may happen at any moment. */
module Coalescing {
  import opened Wrappers

  datatype Cache<K(==), V> = Cache(completed: map<K, V>, inFlight: set<K>)

  /** Where one call of `render` is. */
  datatype Phase<K, V> =
    | Polling(key: K)                    // in the wait loop
    | Working(key: K)                    // queued the key; its work is pending
    | Served(key: K, value: V)           // returned the cached entry
    | Settled(key: K, result: Option<V>) // its work completed and dequeued the key
    | Abandoned(key: K)                  // its work threw; the key stays queued

  datatype System<K(==), V> = System(cache: Cache<K, V>, calls: seq<Phase<K, V>>)

  datatype Event<K, V> =
    | Call(key: K)
    | Poll(id: nat)
    | Complete(id: nat, result: Option<V>)
    | Throw(id: nat)

  /** Both structures start empty and no call is running. */
  function Init<K(==), V>(): (s: System<K, V>)
    ensures Inv(s)
    ensures s.cache.inFlight == {} && |s.cache.completed| == 0 && |s.calls| == 0
  {
    System(Cache(map[], {}), [])
  }

  predicate Enabled<K(==), V>(s: System<K, V>, e: Event<K, V>) {
    match e
    case Call(_) => true
    case Poll(id) => id < |s.calls| && s.calls[id].Polling?
    case Complete(id, _) => id < |s.calls| && s.calls[id].Working?
    case Throw(id) => id < |s.calls| && s.calls[id].Working?
  }

  /** One atomic step of one call. Only that call moves, only its key's
      queue and cache entries can change, no call forgets its key, and no
      entry is ever removed. */
  function Next<K(==), V>(s: System<K, V>, e: Event<K, V>): (t: System<K, V>)
    requires Enabled(s, e)
    ensures |t.calls| == |s.calls| + (if e.Call? then 1 else 0)
    ensures forall id :: 0 <= id < |s.calls| ==> t.calls[id].key == s.calls[id].key
    ensures forall id :: 0 <= id < |s.calls| && (e.Call? || id != e.id) ==> t.calls[id] == s.calls[id]
    ensures e.Call? ==> t.cache == s.cache
    ensures !e.Call? ==> var k := s.calls[e.id].key;
              && t.cache.inFlight - {k} == s.cache.inFlight - {k}
              && t.cache.completed - {k} == s.cache.completed - {k}
    ensures s.cache.completed.Keys <= t.cache.completed.Keys
  {
    match e
    case Call(k) => System(s.cache, s.calls + [Polling(k)])
    case Poll(id) =>
      var k := s.calls[id].key;
      if k in s.cache.inFlight then s
      else if k in s.cache.completed then
        System(s.cache, s.calls[id := Served(k, s.cache.completed[k])])
      else
        System(Cache(s.cache.completed, s.cache.inFlight + {k}), s.calls[id := Working(k)])
    case Complete(id, r) =>
      var k := s.calls[id].key;
      var completed := if r.Some? then s.cache.completed[k := r.value] else s.cache.completed;
      System(Cache(completed, s.cache.inFlight - {k}), s.calls[id := Settled(k, r)])
    case Throw(id) =>
      System(s.cache, s.calls[id := Abandoned(s.calls[id].key)])
  }

  /** The state after a sequence of steps; a step its call is not ready
      for does not happen. */
  function Run<K(==), V>(s: System<K, V>, es: seq<Event<K, V>>): (t: System<K, V>)
    ensures |s.calls| <= |t.calls| <= |s.calls| + |es|
    ensures forall id :: 0 <= id < |s.calls| ==> t.calls[id].key == s.calls[id].key
    ensures s.cache.completed.Keys <= t.cache.completed.Keys
    decreases |es|
  {
    if |es| == 0 then s
    else Run(if Enabled(s, es[0]) then Next(s, es[0]) else s, es[1..])
  }

  // ------------------------------------------------------------ invariant

  /** No key is both stored and queued. */
  ghost predicate Disjoint<K, V>(s: System<K, V>) {
    s.cache.completed.Keys !! s.cache.inFlight
  }

  /** A working call's key is queued and not yet stored. */
  ghost predicate WorkQueued<K, V>(s: System<K, V>) {
    forall id :: 0 <= id < |s.calls| && s.calls[id].Working? ==>
      s.calls[id].key in s.cache.inFlight && s.calls[id].key !in s.cache.completed
  }

  /** At most one call is doing the work for any key. */
  ghost predicate SingleFlight<K, V>(s: System<K, V>) {
    forall a, b ::
      0 <= a < |s.calls| && 0 <= b < |s.calls| && a != b && s.calls[a].Working? && s.calls[b].Working? ==>
        s.calls[a].key != s.calls[b].key
  }

  /** Every value a call obtained is the one stored under its key. */
  ghost predicate AnswersStored<K, V>(s: System<K, V>) {
    && (forall id :: 0 <= id < |s.calls| && s.calls[id].Served? ==>
          s.calls[id].key in s.cache.completed && s.cache.completed[s.calls[id].key] == s.calls[id].value)
    && (forall id :: 0 <= id < |s.calls| && s.calls[id].Settled? && s.calls[id].result.Some? ==>
          s.calls[id].key in s.cache.completed && s.cache.completed[s.calls[id].key] == s.calls[id].result.value)
  }

  ghost predicate Inv<K, V>(s: System<K, V>) {
    Disjoint(s) && WorkQueued(s) && SingleFlight(s) && AnswersStored(s)
  }

  /** The entries of `s` are all in `t`, unchanged. */
  ghost predicate Extends<K, V>(s: System<K, V>, t: System<K, V>) {
    forall k :: k in s.cache.completed ==> k in t.cache.completed && t.cache.completed[k] == s.cache.completed[k]
  }

  lemma NextKeepsInv<K, V>(s: System<K, V>, e: Event<K, V>)
    requires Inv(s) && Enabled(s, e)
    ensures Inv(Next(s, e))
    ensures Extends(s, Next(s, e))
  {
    var t := Next(s, e);
    match e
    case Call(k) =>
      assert forall id :: 0 <= id < |s.calls| ==> t.calls[id] == s.calls[id];
    case Poll(id) =>
      var k := s.calls[id].key;
      if k !in s.cache.inFlight && k !in s.cache.completed {
        forall a | 0 <= a < |s.calls| && a != id && s.calls[a].Working?
          ensures s.calls[a].key != k
        {
        }
      }
    case Complete(id, r) =>
      var k := s.calls[id].key;
      forall a | 0 <= a < |t.calls| && t.calls[a].Working?
        ensures t.calls[a].key in t.cache.inFlight && t.calls[a].key !in t.cache.completed
      {
        assert a != id;
        assert s.calls[a].key != k;
      }
    case Throw(id) =>
  }

  lemma {:induction false} RunKeepsInv<K, V>(s: System<K, V>, es: seq<Event<K, V>>)
    requires Inv(s)
    ensures Inv(Run(s, es))
    ensures Extends(s, Run(s, es))
    decreases |es|
  {
    if |es| > 0 {
      var s' := if Enabled(s, es[0]) then Next(s, es[0]) else s;
      if Enabled(s, es[0]) {
        NextKeepsInv(s, es[0]);
      }
      RunKeepsInv(s', es[1..]);
    }
  }

  // ------------------------------------------------------------ theorems

  /** In every reachable state at most one call per key is doing the work:
      no key is ever fetched or rendered twice at the same time. */
  lemma ReachableSingleFlight<K, V>(es: seq<Event<K, V>>)
    ensures SingleFlight(Run(Init(), es))
  {
    RunKeepsInv(Init<K, V>(), es);
  }

  /** Once stored, an entry stays stored and is never overwritten, however
      the calls interleave afterwards. */
  lemma EntriesNeverOverwritten<K, V>(es: seq<Event<K, V>>, more: seq<Event<K, V>>)
    ensures Extends(Run(Init(), es), Run(Run(Init(), es), more))
  {
    RunKeepsInv(Init<K, V>(), es);
    RunKeepsInv(Run(Init<K, V>(), es), more);
  }

  /** All callers that obtained a value for the same key obtained the same
      value, whether they were served from the cache or did the work. */
  lemma CallersAgree<K, V>(es: seq<Event<K, V>>, a: nat, b: nat)
    requires var s := Run(Init(), es);
      && a < |s.calls| && b < |s.calls|
      && s.calls[a].Served? && s.calls[b].Settled? && s.calls[b].result.Some?
      && s.calls[a].key == s.calls[b].key
    ensures var s := Run(Init(), es); s.calls[a].value == s.calls[b].result.value
  {
    RunKeepsInv(Init<K, V>(), es);
  }

  /** A caller whose key is queued does nothing but wait. */
  lemma QueuedKeyWaits<K, V>(s: System<K, V>, id: nat)
    requires id < |s.calls| && s.calls[id].Polling?
    requires s.calls[id].key in s.cache.inFlight
    ensures Next(s, Poll(id)) == s
  {
  }

  /** A caller whose key is stored (and, in a reachable state, therefore
      not queued) gets the stored entry and queues nothing. */
  lemma StoredKeyIsServed<K, V>(s: System<K, V>, id: nat)
    requires Inv(s)
    requires id < |s.calls| && s.calls[id].Polling?
    requires s.calls[id].key in s.cache.completed
    ensures Next(s, Poll(id)).cache == s.cache
    ensures Next(s, Poll(id)).calls[id] == Served(s.calls[id].key, s.cache.completed[s.calls[id].key])
  {
  }

  /** Otherwise the key is queued before any work starts, and the caller
      becomes the one worker for it. */
  lemma MissQueuesKey<K, V>(s: System<K, V>, id: nat)
    requires id < |s.calls| && s.calls[id].Polling?
    requires s.calls[id].key !in s.cache.inFlight && s.calls[id].key !in s.cache.completed
    ensures Next(s, Poll(id)).cache.inFlight == s.cache.inFlight + {s.calls[id].key}
    ensures Next(s, Poll(id)).cache.completed == s.cache.completed
    ensures Next(s, Poll(id)).calls[id] == Working(s.calls[id].key)
  {
  }

  /** Completion always dequeues the key; it stores an entry only when
      there is one, and the key had none before. */
  lemma CompleteDequeues<K, V>(s: System<K, V>, id: nat, r: Option<V>)
    requires Inv(s)
    requires id < |s.calls| && s.calls[id].Working?
    ensures var k := s.calls[id].key;
            var t := Next(s, Complete(id, r));
            && k !in s.cache.completed
            && t.cache.inFlight == s.cache.inFlight - {k}
            && (r.Some? ==> t.cache.completed == s.cache.completed[k := r.value])
            && (r.None? ==> t.cache.completed == s.cache.completed)
  {
  }

  /** A key that is queued and unstored while nobody works on it. */
  ghost predicate Stranded<K, V>(s: System<K, V>, k: K) {
    && k in s.cache.inFlight
    && k !in s.cache.completed
    && forall id :: 0 <= id < |s.calls| && s.calls[id].Working? ==> s.calls[id].key != k
  }

  /** A throw after the key was queued strands the key. */
  lemma ThrowStrands<K, V>(s: System<K, V>, id: nat)
    requires Inv(s)
    requires id < |s.calls| && s.calls[id].Working?
    ensures Stranded(Next(s, Throw(id)), s.calls[id].key)
  {
    var t := Next(s, Throw(id));
    forall a | 0 <= a < |t.calls| && t.calls[a].Working?
      ensures t.calls[a].key != s.calls[id].key
    {
      assert a != id;
    }
  }

  /** No single step rescues a stranded key. */
  lemma NextKeepsStranded<K, V>(s: System<K, V>, k: K, e: Event<K, V>)
    requires Inv(s) && Stranded(s, k) && Enabled(s, e)
    ensures Stranded(Next(s, e), k)
  {
    var t := Next(s, e);
    match e
    case Call(_) =>
      assert forall id :: 0 <= id < |s.calls| ==> t.calls[id] == s.calls[id];
    case Poll(id) =>
    case Complete(id, _) =>
      assert s.calls[id].key != k;
    case Throw(id) =>
  }

  /** A stranded key stays stranded forever: later callers for it wait in
      the poll loop indefinitely and no entry is ever stored for it. */
  lemma {:induction false} StrandedForever<K, V>(s: System<K, V>, k: K, es: seq<Event<K, V>>)
    requires Inv(s) && Stranded(s, k)
    ensures Stranded(Run(s, es), k)
    decreases |es|
  {
    if |es| > 0 {
      if Enabled(s, es[0]) {
        NextKeepsInv(s, es[0]);
        NextKeepsStranded(s, k, es[0]);
        StrandedForever(Next(s, es[0]), k, es[1..]);
      } else {
        StrandedForever(s, k, es[1..]);
      }
    }
  }
}

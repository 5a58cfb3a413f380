/** Which adapter handles which task format, and which live Tokio task is which worker. */
module Routing {
  import opened Counting
  import opened Wrappers
  import opened TaskQueue

  datatype DispatcherError = Empty | DuplicateFormat(format: Format)

  datatype SetupError = Build(error: DispatcherError) | FormatsMismatch

  /** Adapters are known here only by the formats they advertise. */
  datatype Dispatcher = Dispatcher(adapters: seq<seq<Format>>, formats: seq<Format>, routes: map<Format, nat>)

  /** All formats of the first `n` adapters, in advertising order. */
  function Advertised(adapters: seq<seq<Format>>, n: nat): seq<Format>
    requires n <= |adapters|
  {
    if n == 0 then [] else Advertised(adapters, n - 1) + adapters[n - 1]
  }

  /** The format list is duplicate-free and every format leads to an adapter that advertised it. */
  ghost predicate Total(d: Dispatcher) {
    && d.formats == Advertised(d.adapters, |d.adapters|)
    && d.formats != []
    && Unique(d.formats)
    && (forall format :: format in d.routes <==> format in d.formats)
    && forall format :: format in d.routes ==> d.routes[format] < |d.adapters| && format in d.adapters[d.routes[format]]
  }

  lemma {:induction false} AdvertisedPrefix(adapters: seq<seq<Format>>, n: nat, m: nat)
    requires n <= m <= |adapters|
    ensures Advertised(adapters, n) <= Advertised(adapters, m)
  {
    if n < m {
      AdvertisedPrefix(adapters, n, m - 1);
    }
  }

  /** Each adapter's formats stand together in the list, in its own order, after those of the adapters before it. */
  lemma AdvertisedInOrder(adapters: seq<seq<Format>>, n: nat)
    requires n < |adapters|
    ensures Advertised(adapters, n) + adapters[n] <= Advertised(adapters, |adapters|)
    ensures Advertised(adapters, 0) == []
  {
    AdvertisedPrefix(adapters, n + 1, |adapters|);
  }

  /** Every format of the list, and no other, leads to one of the first `n` adapters that advertised it. */
  ghost predicate Routed(routes: map<Format, nat>, formats: seq<Format>, adapters: seq<seq<Format>>, n: nat)
    requires n <= |adapters|
  {
    && (forall format :: format in routes <==> format in formats)
    && (forall format :: format in routes ==> routes[format] < n && format in adapters[routes[format]])
  }

  lemma RouteAdded(routes: map<Format, nat>, formats: seq<Format>, adapters: seq<seq<Format>>, n: nat, format: Format)
    requires n < |adapters| && Routed(routes, formats, adapters, n + 1) && Unique(formats)
    requires format in adapters[n] && format !in routes
    ensures Routed(routes[format := n], formats + [format], adapters, n + 1) && Unique(formats + [format])
  {
  }

  /** The first format of the list that stands in it a second time. */
  ghost predicate FirstRepeated(formats: seq<Format>, format: Format) {
    exists k :: 0 <= k < |formats| && formats[k] == format && Unique(formats[..k]) && format in formats[..k]
  }

  /** A format already routed appears earlier in the advertised list, so the list repeats it. */
  lemma RepeatedFormat(formats: seq<Format>, next: Format, all: seq<Format>)
    requires next in formats && Unique(formats) && formats + [next] <= all
    ensures !Unique(all) && FirstRepeated(all, next)
  {
    var i :| 0 <= i < |formats| && formats[i] == next;
    assert all[i] == (formats + [next])[i] && all[|formats|] == (formats + [next])[|formats|];
    assert all[..|formats|] == formats;
  }

  method TryNew(adapters: seq<seq<Format>>) returns (r: Result<Dispatcher, DispatcherError>)
    ensures r.Ok? ==> r.value.adapters == adapters && Total(r.value)
    ensures r.Ok? <==> Advertised(adapters, |adapters|) != [] && Unique(Advertised(adapters, |adapters|))
    ensures r == Err(Empty) <==> Advertised(adapters, |adapters|) == []
    ensures r.Err? && r.error.DuplicateFormat? ==> FirstRepeated(Advertised(adapters, |adapters|), r.error.format)
  {
    if adapters == [] {
      return Err(Empty);
    }
    ghost var all := Advertised(adapters, |adapters|);
    var routes: map<Format, nat> := map[];
    var formats: seq<Format> := [];
    for index := 0 to |adapters|
      invariant formats == Advertised(adapters, index) && Unique(formats)
      invariant Routed(routes, formats, adapters, index)
    {
      ghost var before := formats;
      AdvertisedPrefix(adapters, index + 1, |adapters|);
      for k := 0 to |adapters[index]|
        invariant formats == before + adapters[index][..k] && Unique(formats)
        invariant Routed(routes, formats, adapters, index + 1)
      {
        var format := adapters[index][k];
        assert formats + [format] <= Advertised(adapters, index + 1);
        if format in routes {
          RepeatedFormat(formats, format, all);
          return Err(DuplicateFormat(format));
        }
        RouteAdded(routes, formats, adapters, index, format);
        routes := routes[format := index];
        formats := formats + [format];
      }
    }
    if formats == [] {
      return Err(Empty);
    }
    return Ok(Dispatcher(adapters, formats, routes));
  }

  /** A worker's or a restart's dispatcher must list exactly the formats the poller claims. */
  function BuildChecked(built: Result<Dispatcher, DispatcherError>, formats: seq<Format>): Result<Dispatcher, SetupError> {
    if built.Err? then Err(Build(built.error))
    else if built.value.formats == formats then Ok(built.value)
    else Err(FormatsMismatch)
  }

  /** Whatever the poller can claim, every worker's dispatcher routes to an adapter that advertised it. */
  lemma ClaimedFormatsAreRouted(first: Dispatcher, built: Result<Dispatcher, DispatcherError>, format: Format)
    requires Total(first) && (built.Ok? ==> Total(built.value)) && format in first.formats
    requires BuildChecked(built, first.formats).Ok?
    ensures var d := BuildChecked(built, first.formats).value;
      format in d.routes && d.routes[format] < |d.adapters| && format in d.adapters[d.routes[format]]
  {
    var i :| 0 <= i < |first.formats| && first.formats[i] == format;
    assert built.value.formats[i] == format;
  }

  /**
   * Building the dispatcher of a worker or of a restart: it succeeds exactly when its adapters advertise
   * the formats of the first dispatcher in the same order.
   */
  method BuildWorker(adapters: seq<seq<Format>>, first: Dispatcher) returns (r: Result<Dispatcher, SetupError>)
    requires Total(first)
    ensures r.Ok? <==> Advertised(adapters, |adapters|) == first.formats
    ensures r.Ok? ==> r.value.adapters == adapters && Total(r.value)
    ensures r == Err(FormatsMismatch) <==>
      var all := Advertised(adapters, |adapters|); all != [] && Unique(all) && all != first.formats
  {
    var built := TryNew(adapters);
    r := BuildChecked(built, first.formats);
  }

  // ---------- Worker registry ----------

  type TaskHandle = nat

  lemma SlotsKept(before: map<TaskHandle, nat>, after: map<TaskHandle, nat>, handle: TaskHandle, replacement: TaskHandle)
    requires handle in before && replacement !in before && after == (before - {handle})[replacement := before[handle]]
    ensures after.Values == before.Values
  {
    forall slot | slot in before.Values
      ensures slot in after.Values
    {
      var h :| h in before && before[h] == slot;
      assert after[if h == handle then replacement else h] == slot;
    }
    forall slot | slot in after.Values
      ensures slot in before.Values
    {
      var h :| h in after && after[h] == slot;
      assert before[if h == replacement then handle else h] == slot;
    }
  }

  /** Live Tokio tasks and the worker slot each one serves. */
  class WorkerRegistry {
    var live: set<TaskHandle>
    var indices: map<TaskHandle, nat>
    const slots: nat

    ghost predicate Valid()
      reads this
    {
      && indices.Keys == live
      && (forall handle :: handle in indices ==> indices[handle] < slots)
      && (forall a, b :: a in indices && b in indices && indices[a] == indices[b] ==> a == b)
    }

    /** No live worker serves the slot. */
    ghost predicate Free(index: nat)
      reads this
    {
      forall handle :: handle in indices ==> indices[handle] != index
    }

    constructor (slots: nat)
      ensures Valid() && this.slots == slots && live == {} && forall index :: Free(index)
    {
      this.slots := slots;
      live := {};
      indices := map[];
    }

    /** `handle` is the identifier Tokio gives the new task, distinct from every live one. */
    method Spawn(index: nat, handle: TaskHandle)
      requires Valid() && index < slots && Free(index) && handle !in live
      modifies this
      ensures Valid() && live == old(live) + {handle} && indices == old(indices)[handle := index]
    {
      live := live + {handle};
      indices := indices[handle := index];
    }

    /** The exited task always has a registered slot, and that slot is free for its replacement. */
    method NextExit(handle: TaskHandle) returns (index: nat)
      requires Valid() && handle in live
      modifies this
      ensures Valid() && live == old(live) - {handle} && indices == old(indices) - {handle}
      ensures handle in old(indices) && index == old(indices)[handle] < slots && Free(index)
    {
      live := live - {handle};
      index := indices[handle];
      indices := indices - {handle};
    }

    /** Exit and restart keep every slot served by exactly one task. */
    method Restart(handle: TaskHandle, replacement: TaskHandle) returns (index: nat)
      requires Valid() && handle in live && replacement !in live
      modifies this
      ensures Valid() && replacement in indices && indices[replacement] == index == old(indices)[handle]
      ensures indices.Values == old(indices.Values)
    {
      index := NextExit(handle);
      Spawn(index, replacement);
      SlotsKept(old(indices), indices, handle, replacement);
    }
  }
}

/** The `ServiceList` component: market-cap details are fetched for the
    loaded services in batches of three and merged into the list by id,
    and further pages are appended by "load more". */
module ServiceList {
  import opened Wrappers
  import MarketCapUtils

  const MarketCapPollInterval: int := 600000
  const BatchSize: nat := 3
  const LoadMoreFailed := "Failed to load more services."

  /** The five market-cap fields copied from the details
      `fetchAndCalculateMarketCap` answers, each of which may itself be
      absent; a service's `cap` is None when all five are set to undefined. */
  type CapData = MarketCapUtils.Details

  datatype Service = Service(id: string, bondingCurve: string, details: string, cap: Option<CapData>)

  /** What `fetchAndCalculateMarketCap` did for one service. */
  datatype CapFetch = Fetched(data: CapData) | NullResult | Threw

  /** The market-cap fields a service ends up with: cleared when it has no
      bonding curve, when the fetch answers null, and when it throws. */
  function NewCap(s: Service, fetch: CapFetch): (r: Option<CapData>)
    ensures r.Some? <==> s.bondingCurve != "" && fetch.Fetched?
    ensures r.Some? ==> r.value == fetch.data
  {
    if s.bondingCurve == "" then None
    else match fetch
      case Fetched(d) => Some(d)
      case _ => None
  }

  function Min(a: int, b: int): int { if a < b then a else b }

  /** `list.findIndex(s => s.id === id)`. */
  function FirstIndexOf(list: seq<Service>, id: string): (r: Option<nat>)
    ensures r.Some? ==> r.value < |list| && list[r.value].id == id
    ensures r.Some? ==> forall j :: 0 <= j < r.value ==> list[j].id != id
    ensures r.None? ==> forall j :: 0 <= j < |list| ==> list[j].id != id
  {
    if |list| == 0 then None
    else if list[0].id == id then Some(0)
    else match FirstIndexOf(list[1..], id)
      case None => None
      case Some(j) => Some(j + 1)
  }

  predicate SameShape(a: seq<Service>, b: seq<Service>)
  {
    |a| == |b| && forall k :: 0 <= k < |a| ==> a[k].id == b[k].id && a[k].bondingCurve == b[k].bondingCurve
  }

  /** Writes `cap` into the first entry with the given id, if any. */
  function SetCapAtId(list: seq<Service>, id: string, cap: Option<CapData>): (r: seq<Service>)
    ensures SameShape(list, r)
    ensures FirstIndexOf(list, id).None? ==> r == list
    ensures FirstIndexOf(list, id).Some? ==> r == list[FirstIndexOf(list, id).value := list[FirstIndexOf(list, id).value].(cap := cap)]
  {
    match FirstIndexOf(list, id)
    case None => list
    case Some(k) => list[k := list[k].(cap := cap)]
  }

  /** The per-service updates of one batch, in batch order. */
  function ApplyBatchItems(data: seq<Service>, batch: seq<Service>, fetches: seq<CapFetch>): (r: seq<Service>)
    requires |fetches| == |batch|
    ensures SameShape(data, r)
    decreases |batch|
  {
    if |batch| == 0 then data
    else ApplyBatchItems(SetCapAtId(data, batch[0].id, NewCap(batch[0], fetches[0])), batch[1..], fetches[1..])
  }

  /** The state update after a batch: each updated service replaces the
      first entry of the list with its id. */
  function MergeInto(list: seq<Service>, updated: seq<Service>): (r: seq<Service>)
    ensures |r| == |list|
    decreases |updated|
  {
    if |updated| == 0 then list
    else
      var next := match FirstIndexOf(list, updated[0].id)
        case None => list
        case Some(k) => list[k := updated[0]];
      MergeInto(next, updated[1..])
  }

  function Ids(services: seq<Service>): set<string>
  {
    set s | s in services :: s.id
  }

  /** Merging keeps every id in place and leaves entries whose id was not
      updated untouched. */
  lemma {:induction false} MergeKeepsOthers(list: seq<Service>, updated: seq<Service>)
    ensures forall k :: 0 <= k < |list| ==> MergeInto(list, updated)[k].id == list[k].id
    ensures forall k :: 0 <= k < |list| && list[k].id !in Ids(updated) ==> MergeInto(list, updated)[k] == list[k]
    decreases |updated|
  {
    if |updated| > 0 {
      var next := match FirstIndexOf(list, updated[0].id)
        case None => list
        case Some(k) => list[k := updated[0]];
      MergeKeepsOthers(next, updated[1..]);
      assert Ids(updated[1..]) <= Ids(updated) by {
        forall s | s in updated[1..] ensures s in updated { }
      }
      assert updated[0].id in Ids(updated);
    }
  }

  /** Overwriting an entry with one of the same id moves no first index. */
  lemma {:induction false} FirstIndexKeptBySameIdWrite(list: seq<Service>, k: nat, u: Service, id: string)
    requires k < |list| && u.id == list[k].id
    ensures FirstIndexOf(list[k := u], id) == FirstIndexOf(list, id)
  {
    if |list| > 0 && list[0].id != id {
      if k == 0 {
        assert list[k := u][1..] == list[1..];
      } else {
        assert list[k := u][1..] == list[1..][k - 1 := u];
        FirstIndexKeptBySameIdWrite(list[1..], k - 1, u, id);
      }
    }
  }

  predicate DistinctIds(services: seq<Service>)
  {
    forall a, b :: 0 <= a < b < |services| ==> services[a].id != services[b].id
  }

  /** With distinct ids in the batch, every updated service whose id is in
      the list ends up at the first entry with that id. */
  lemma {:induction false} MergePlacesUpdates(list: seq<Service>, updated: seq<Service>)
    requires DistinctIds(updated)
    ensures forall j :: 0 <= j < |updated| && FirstIndexOf(list, updated[j].id).Some? ==>
      MergeInto(list, updated)[FirstIndexOf(list, updated[j].id).value] == updated[j]
    decreases |updated|
  {
    if |updated| > 0 {
      var u := updated[0];
      var rest := updated[1..];
      var next := match FirstIndexOf(list, u.id)
        case None => list
        case Some(k) => list[k := u];
      assert MergeInto(list, updated) == MergeInto(next, rest);
      assert DistinctIds(rest);
      MergePlacesUpdates(next, rest);
      MergeKeepsOthers(next, rest);
      forall j | 0 <= j < |updated| && FirstIndexOf(list, updated[j].id).Some?
        ensures MergeInto(list, updated)[FirstIndexOf(list, updated[j].id).value] == updated[j]
      {
        var k := FirstIndexOf(list, updated[j].id).value;
        if FirstIndexOf(list, u.id).Some? {
          FirstIndexKeptBySameIdWrite(list, FirstIndexOf(list, u.id).value, u, updated[j].id);
        }
        assert FirstIndexOf(next, updated[j].id) == FirstIndexOf(list, updated[j].id);
        if j == 0 {
          assert next[k] == u;
          assert u.id !in Ids(rest) by {
            forall s | s in rest ensures s.id != u.id {
              var m :| 0 <= m < |rest| && rest[m] == s;
              assert updated[m + 1] == s;
            }
          }
        } else {
          assert rest[j - 1] == updated[j];
        }
      }
    }
  }

  /** The number of batches the loop `for (i; i < n; i += 3)` runs from `i` on. */
  function BatchCount(n: nat, i: nat): nat
    decreases n - i
  {
    if i >= n then 0 else 1 + BatchCount(n, i + BatchSize)
  }

  /** The batches `data.slice(i, i + 3)` from `i` on. */
  function Batches(data: seq<Service>, i: nat): seq<seq<Service>>
    decreases |data| - i
  {
    if i >= |data| then [] else [data[i..Min(i + BatchSize, |data|)]] + Batches(data, i + BatchSize)
  }

  function Flatten(parts: seq<seq<Service>>): seq<Service>
  {
    if |parts| == 0 then [] else parts[0] + Flatten(parts[1..])
  }

  /** The batches cover the list in order, each holds one to three
      services, and only the last may hold fewer than three. */
  lemma {:induction false} BatchesCoverInOrder(data: seq<Service>, i: nat)
    requires i <= |data|
    ensures Flatten(Batches(data, i)) == data[i..]
    ensures |Batches(data, i)| == BatchCount(|data|, i)
    ensures forall k :: 0 <= k < |Batches(data, i)| ==> 1 <= |Batches(data, i)[k]| <= BatchSize
    ensures forall k :: 0 <= k < |Batches(data, i)| - 1 ==> |Batches(data, i)[k]| == BatchSize
    decreases |data| - i
  {
    if i < |data| {
      var hi := Min(i + BatchSize, |data|);
      BatchesCoverInOrder(data, hi);
      if hi < i + BatchSize {
        assert Batches(data, i + BatchSize) == [];
      } else {
        assert data[i..] == data[i..hi] + data[hi..];
      }
    }
  }

  /** One batch: the batch starting at `i` fetched into the service data,
      and the fetched services merged into the list. */
  function BatchStep(data: seq<Service>, all: seq<Service>, fetches: seq<CapFetch>, i: nat): (r: (seq<Service>, seq<Service>))
    requires |fetches| == |data| && i < |data|
    ensures |r.0| == |data| && |r.1| == |all|
  {
    var hi := Min(i + BatchSize, |data|);
    var newData := ApplyBatchItems(data, data[i..hi], fetches[i..hi]);
    (newData, MergeInto(all, newData[i..hi]))
  }

  /** The whole update from batch `i` on: the new service data and the
      merged list, as `fetchMarketCapsForServiceList` leaves them. */
  function Process(data: seq<Service>, all: seq<Service>, fetches: seq<CapFetch>, i: nat): (r: (seq<Service>, seq<Service>))
    requires |fetches| == |data|
    ensures |r.1| == |all|
    decreases |data| - i
  {
    if i >= |data| then (data, all)
    else
      var next := BatchStep(data, all, fetches, i);
      Process(next.0, next.1, fetches, i + BatchSize)
  }

  /** The list only changes at entries whose id is among the services
      being updated, and no id moves. */
  lemma {:induction false} ProcessTouchesOnlyListedIds(data: seq<Service>, all: seq<Service>, fetches: seq<CapFetch>, i: nat)
    requires |fetches| == |data|
    ensures forall k :: 0 <= k < |all| ==> Process(data, all, fetches, i).1[k].id == all[k].id
    ensures forall k :: 0 <= k < |all| && all[k].id !in Ids(data) ==> Process(data, all, fetches, i).1[k] == all[k]
    decreases |data| - i
  {
    if i < |data| {
      var hi := Min(i + BatchSize, |data|);
      var newData := ApplyBatchItems(data, data[i..hi], fetches[i..hi]);
      var merged := MergeInto(all, newData[i..hi]);
      MergeKeepsOthers(all, newData[i..hi]);
      assert Ids(newData[i..hi]) <= Ids(data) by {
        forall s | s in newData[i..hi] ensures s.id in Ids(data) {
          var j :| i <= j < hi && newData[j] == s;
          assert data[j] in data;
        }
      }
      assert Ids(newData) == Ids(data) by {
        forall x | x in Ids(newData) ensures x in Ids(data) {
          var s :| s in newData && s.id == x;
          var j :| 0 <= j < |newData| && newData[j] == s;
          assert data[j] in data;
        }
        forall x | x in Ids(data) ensures x in Ids(newData) {
          var s :| s in data && s.id == x;
          var j :| 0 <= j < |data| && data[j] == s;
          assert newData[j] in newData;
        }
      }
      ProcessTouchesOnlyListedIds(newData, merged, fetches, i + BatchSize);
    }
  }

  lemma ProcessStep(data: seq<Service>, all: seq<Service>, fetches: seq<CapFetch>, i: nat)
    requires |fetches| == |data| && i < |data|
    ensures Process(data, all, fetches, i)
      == Process(BatchStep(data, all, fetches, i).0, BatchStep(data, all, fetches, i).1, fetches, i + BatchSize)
  {
  }

  lemma ProcessDone(data: seq<Service>, all: seq<Service>, fetches: seq<CapFetch>, i: nat)
    requires |fetches| == |data| && i >= |data|
    ensures Process(data, all, fetches, i) == (data, all)
  {
  }

  /** One pass of the loop body: the batch at `i` is fetched into the
      service data and merged into the list; what is left of the refresh
      is the refresh from the next batch on. */
  method ProcessBatch(data: seq<Service>, all: seq<Service>, fetches: seq<CapFetch>, i: nat)
    returns (newData: seq<Service>, merged: seq<Service>)
    requires |fetches| == |data| && i < |data|
    ensures |newData| == |data|
    ensures Process(data, all, fetches, i) == Process(newData, merged, fetches, i + BatchSize)
  {
    var next := BatchStep(data, all, fetches, i);
    ProcessStep(data, all, fetches, i);
    newData, merged := next.0, next.1;
  }

  /** The batching loop of `fetchMarketCapsForServiceList`: batch after
      batch of three is fetched and merged into the list; it returns the
      merged list, the number of batches and the number of pauses taken
      between batches. */
  method RunBatches(servicesToUpdate: seq<Service>, list: seq<Service>, fetches: seq<CapFetch>)
    returns (all: seq<Service>, batches: nat, delays: nat)
    requires |fetches| == |servicesToUpdate| && |servicesToUpdate| > 0
    ensures all == Process(servicesToUpdate, list, fetches, 0).1
    ensures batches == BatchCount(|servicesToUpdate|, 0) && delays == batches - 1
  {
    batches := 0;
    delays := 0;
    all := list;
    var newServiceData := servicesToUpdate;
    var i: nat := 0;
    while i < |newServiceData|
      invariant |newServiceData| == |servicesToUpdate|
      invariant batches + BatchCount(|servicesToUpdate|, i) == BatchCount(|servicesToUpdate|, 0)
      invariant delays + 1 == if batches == 0 then 1 else batches
      invariant Process(newServiceData, all, fetches, i) == Process(servicesToUpdate, list, fetches, 0)
      decreases |newServiceData| - i
    {
      newServiceData, all := ProcessBatch(newServiceData, all, fetches, i);
      if batches > 0 {
        delays := delays + 1;
      }
      batches := batches + 1;
      i := i + BatchSize;
    }
    ProcessDone(newServiceData, all, fetches, i);
  }

  /** The tick's test: a full interval since the last refresh started, and
      something to refresh. */
  predicate PollDue(now: int, lastPollingTime: int, count: nat)
  {
    now - lastPollingTime >= MarketCapPollInterval && count > 0
  }

  /** Polls are at least an interval apart: within one interval of a
      refresh's start no tick refreshes again, and once the interval is over
      the next tick over a non-empty list does. */
  lemma PollsAnIntervalApart(start: int, now: int, count: nat)
    ensures now < start + MarketCapPollInterval ==> !PollDue(now, start, count)
    ensures now >= start + MarketCapPollInterval && count > 0 ==> PollDue(now, start, count)
  {
  }

  class ServiceList {
    var allLoadedServices: seq<Service>
    var currentOffset: nat
    var isLoadingMore: bool
    var errorLoadingMore: Option<string>
    var loadingMarketCaps: bool
    var lastPollingTime: int

    constructor (initialServices: seq<Service>)
      ensures allLoadedServices == initialServices && currentOffset == |initialServices|
      ensures !isLoadingMore && errorLoadingMore.None? && loadingMarketCaps && lastPollingTime == 0
    {
      allLoadedServices := initialServices;
      currentOffset := |initialServices|;
      isLoadingMore := false;
      errorLoadingMore := None;
      loadingMarketCaps := true;
      lastPollingTime := 0;
    }

    /** `fetchMarketCapsForServiceList`, with the fetch outcome of each
        service given by position; it returns the number of batches and
        the number of pauses taken between batches. */
    method FetchMarketCaps(hasClient: bool, servicesToUpdate: seq<Service>, fetches: seq<CapFetch>, now: int)
      returns (batches: nat, delays: nat)
      requires |fetches| == |servicesToUpdate|
      modifies this`allLoadedServices, this`loadingMarketCaps, this`lastPollingTime
      ensures !loadingMarketCaps
      ensures !hasClient || |servicesToUpdate| == 0 ==> (batches == 0 && delays == 0
        && allLoadedServices == old(allLoadedServices) && lastPollingTime == old(lastPollingTime))
      ensures hasClient && |servicesToUpdate| > 0 ==> (batches == BatchCount(|servicesToUpdate|, 0)
        && delays == batches - 1 && lastPollingTime == now
        && allLoadedServices == Process(servicesToUpdate, old(allLoadedServices), fetches, 0).1)
    {
      batches := 0;
      delays := 0;
      if !hasClient || |servicesToUpdate| == 0 {
        loadingMarketCaps := false;
        return;
      }
      loadingMarketCaps := true;
      lastPollingTime := now;
      var all;
      all, batches, delays := RunBatches(servicesToUpdate, allLoadedServices, fetches);
      allLoadedServices := all;
      loadingMarketCaps := false;
    }

    /** The polling tick: with a client, it refreshes every loaded service
        once a full interval has passed since the last refresh started. */
    method PollTick(hasClient: bool, now: int, fetches: seq<CapFetch>) returns (polled: bool)
      requires |fetches| == |allLoadedServices|
      modifies this`allLoadedServices, this`loadingMarketCaps, this`lastPollingTime
      ensures polled <==> hasClient && PollDue(now, old(lastPollingTime), |old(allLoadedServices)|)
      ensures polled ==> (lastPollingTime == now && !loadingMarketCaps
        && allLoadedServices == Process(old(allLoadedServices), old(allLoadedServices), fetches, 0).1)
      ensures !polled ==> (allLoadedServices == old(allLoadedServices) && lastPollingTime == old(lastPollingTime)
        && loadingMarketCaps == old(loadingMarketCaps))
    {
      polled := hasClient && PollDue(now, lastPollingTime, |allLoadedServices|);
      if polled {
        var _, _ := FetchMarketCaps(hasClient, allLoadedServices, fetches, now);
      }
    }

    /** `handleLoadMore`, with the page the service returned (None when the
        request throws); it returns the offset requested, if any. */
    method HandleLoadMore(totalServices: int, page: Option<seq<Service>>)
      returns (requested: Option<nat>, refetch: seq<Service>)
      modifies this`allLoadedServices, this`currentOffset, this`isLoadingMore, this`errorLoadingMore
      ensures old(isLoadingMore) || old(currentOffset) >= totalServices ==> (requested.None? && refetch == []
        && allLoadedServices == old(allLoadedServices) && currentOffset == old(currentOffset)
        && isLoadingMore == old(isLoadingMore) && errorLoadingMore == old(errorLoadingMore))
      ensures !old(isLoadingMore) && old(currentOffset) < totalServices ==> (requested == Some(old(currentOffset))
        && !isLoadingMore
        && (page.None? ==> (allLoadedServices == old(allLoadedServices) && currentOffset == old(currentOffset)
          && errorLoadingMore == Some(LoadMoreFailed) && refetch == []))
        && (page.Some? ==> (allLoadedServices == old(allLoadedServices) + page.value
          && currentOffset == old(currentOffset) + |page.value| && errorLoadingMore.None? && refetch == page.value)))
    {
      requested := None;
      refetch := [];
      if isLoadingMore || currentOffset >= totalServices {
        return;
      }
      isLoadingMore := true;
      errorLoadingMore := None;
      requested := Some(currentOffset);
      match page {
        case None =>
          errorLoadingMore := Some(LoadMoreFailed);
        case Some(services) =>
          allLoadedServices := allLoadedServices + services;
          currentOffset := currentOffset + |services|;
          refetch := services;
      }
      isLoadingMore := false;
    }
  }
}

/** The client's station cache: the station list, the station being viewed and the
    loading / error flags, which each action keeps in step with the server. */
module StationStore {
  import opened Values
  import opened StationModel

  /** A station as the client holds it: the JSON the server sent. The cache reads
      only `_id` and `status`; listings also carry `canModify`, while the records
      returned by create and update do not. */
  datatype Record = Record(id: Id, station: Station, canModify: Option<bool>)

  /** What an action resolves to: `{ success: true, data? }` or
      `{ success: false, error }`. */
  datatype Outcome = Succeeded(data: Option<Record>) | Failed(error: string)

  // ---------------------------------------------------------------------------
  // Query string of a listing request

  /** The filters a view passes to `fetchStations`, as the form holds them. */
  datatype Filters = Filters(status: Option<string>, connectorType: Option<string>, minPower: Option<string>)

  /** The query-string keys of the three filters, in the order they are appended. */
  datatype FilterKey = StatusKey | ConnectorTypeKey | MinPowerKey {
    /** The key's text in the query string. */
    function Name(): string {
      match this
      case StatusKey => "status"
      case ConnectorTypeKey => "connectorType"
      case MinPowerKey => "minPower"
    }

    function Rank(): nat {
      match this
      case StatusKey => 0
      case ConnectorTypeKey => 1
      case MinPowerKey => 2
    }
  }

  /** One `key=value` pair of the query string. */
  datatype Param = Param(key: FilterKey, value: string)

  /** The filter a query-string key stands for. */
  function FilterValue(f: Filters, key: FilterKey): Option<string> {
    match key
    case StatusKey => f.status
    case ConnectorTypeKey => f.connectorType
    case MinPowerKey => f.minPower
  }

  /** The query string carries exactly the filters among the first `n` keys that
      are present and non-empty, each once with its own value, in key order. */
  ghost predicate SendsFiltersBelow(f: Filters, params: seq<Param>, n: nat) {
    && (forall i :: 0 <= i < |params| ==>
          && params[i].key.Rank() < n
          && Truthy(FilterValue(f, params[i].key))
          && params[i].value == FilterValue(f, params[i].key).value)
    && (forall key: FilterKey :: key.Rank() < n && Truthy(FilterValue(f, key)) ==>
          exists i :: 0 <= i < |params| && params[i].key == key)
    && (forall i, j :: 0 <= i < j < |params| ==> params[i].key.Rank() < params[j].key.Rank())
  }

  /** The query string carries exactly the filters that are present and non-empty,
      each once with its own value, in the order status, connectorType, minPower. */
  ghost predicate SendsFilters(f: Filters, params: seq<Param>) {
    SendsFiltersBelow(f, params, 3)
  }

  /** `if (filters[key]) params.append(key, filters[key])`. */
  method AppendFilter(f: Filters, params: seq<Param>, key: FilterKey) returns (next: seq<Param>)
    requires SendsFiltersBelow(f, params, key.Rank())
    ensures SendsFiltersBelow(f, next, key.Rank() + 1)
  {
    next := params;
    if Truthy(FilterValue(f, key)) {
      next := next + [Param(key, FilterValue(f, key).value)];
    }
    forall k: FilterKey | k.Rank() < key.Rank() + 1 && Truthy(FilterValue(f, k))
      ensures exists i :: 0 <= i < |next| && next[i].key == k
    {
      if k == key {
        assert next[|params|].key == k;
      } else {
        assert k.Rank() != key.Rank();
        var i :| 0 <= i < |params| && params[i].key == k;
        assert next[i].key == k;
      }
    }
  }

  /** Fills the `URLSearchParams` of a listing request. */
  method BuildParams(f: Filters) returns (params: seq<Param>)
    ensures SendsFilters(f, params)
  {
    params := [];
    params := AppendFilter(f, params, StatusKey);
    params := AppendFilter(f, params, ConnectorTypeKey);
    params := AppendFilter(f, params, MinPowerKey);
  }

  // ---------------------------------------------------------------------------
  // Filters over the cached list

  /** `rs.filter(r => r.status === status)`. */
  function WithStatus(rs: seq<Record>, status: string): (r: seq<Record>)
    ensures |r| <= |rs|
    ensures forall x :: x in r <==> x in rs && x.station.status == status
  {
    if rs == [] then []
    else (if rs[0].station.status == status then [rs[0]] else []) + WithStatus(rs[1..], status)
  }

  /** Filtering keeps the relative order of the records it keeps. */
  lemma {:induction false} WithStatusAppend(a: seq<Record>, b: seq<Record>, status: string)
    ensures WithStatus(a + b, status) == WithStatus(a, status) + WithStatus(b, status)
  {
    if a != [] {
      assert (a + b)[1..] == a[1..] + b;
      WithStatusAppend(a[1..], b, status);
    } else {
      assert a + b == b;
    }
  }

  /** The number of records whose status is one of `statuses`. */
  function CountWithStatus(rs: seq<Record>, statuses: set<string>): nat {
    if rs == [] then 0
    else (if rs[0].station.status in statuses then 1 else 0) + CountWithStatus(rs[1..], statuses)
  }

  /** The active and the inactive stations together are exactly the stations whose
      status is one of the two. */
  lemma {:induction false} PartitionByStatus(rs: seq<Record>)
    ensures |WithStatus(rs, "active")| + |WithStatus(rs, "inactive")| == CountWithStatus(rs, Statuses)
  {
    if rs != [] {
      PartitionByStatus(rs[1..]);
    }
  }

  /** When every cached station has a valid status, the two getters split the list. */
  lemma {:induction false} PartitionOfValid(rs: seq<Record>)
    requires forall i :: 0 <= i < |rs| ==> rs[i].station.status in Statuses
    ensures |WithStatus(rs, "active")| + |WithStatus(rs, "inactive")| == |rs|
  {
    PartitionByStatus(rs);
    CountAll(rs);
  }

  lemma {:induction false} CountAll(rs: seq<Record>)
    requires forall i :: 0 <= i < |rs| ==> rs[i].station.status in Statuses
    ensures CountWithStatus(rs, Statuses) == |rs|
  {
    if rs != [] {
      CountAll(rs[1..]);
    }
  }

  /** `rs.filter(r => r._id !== id)`. */
  function WithoutId(rs: seq<Record>, id: Id): (r: seq<Record>)
    ensures |r| <= |rs|
    ensures forall x :: x in r <==> x in rs && x.id != id
  {
    if rs == [] then []
    else (if rs[0].id != id then [rs[0]] else []) + WithoutId(rs[1..], id)
  }

  /** Removing an id keeps the relative order of the other records. */
  lemma {:induction false} WithoutIdAppend(a: seq<Record>, b: seq<Record>, id: Id)
    ensures WithoutId(a + b, id) == WithoutId(a, id) + WithoutId(b, id)
  {
    if a != [] {
      assert (a + b)[1..] == a[1..] + b;
      WithoutIdAppend(a[1..], b, id);
    } else {
      assert a + b == b;
    }
  }

  /** Position `k` holds the first record with `_id` equal to `id`. */
  predicate FirstMatch(rs: seq<Record>, id: Id, k: int) {
    0 <= k < |rs| && rs[k].id == id && forall j :: 0 <= j < k ==> rs[j].id != id
  }

  // ---------------------------------------------------------------------------
  // The store

  const FetchStationsFailed := "Failed to fetch stations"
  const FetchStationFailed := "Failed to fetch station"
  const CreateFailed := "Failed to create station"
  const UpdateFailed := "Failed to update station"
  const DeleteFailed := "Failed to delete station"

  class StationCache {
    var stations: seq<Record>
    var currentStation: Option<Record>
    var loading: bool
    var error: Option<string>

    constructor ()
      ensures stations == [] && currentStation == None && !loading && error == None
    {
      stations := [];
      currentStation := None;
      loading := false;
      error := None;
    }

    /** The `activeStations` getter. */
    function ActiveStations(): seq<Record>
      reads this
    {
      WithStatus(stations, "active")
    }

    /** The `inactiveStations` getter. */
    function InactiveStations(): seq<Record>
      reads this
    {
      WithStatus(stations, "inactive")
    }

    /** `stations.findIndex(s => s._id === id)`. */
    method FindIndex(id: Id) returns (index: int)
      ensures -1 <= index < |stations|
      ensures index >= 0 ==> FirstMatch(stations, id, index)
      ensures index == -1 <==> forall k :: 0 <= k < |stations| ==> stations[k].id != id
    {
      var i := 0;
      while i < |stations|
        invariant 0 <= i <= |stations|
        invariant forall k :: 0 <= k < i ==> stations[k].id != id
      {
        if stations[i].id == id {
          return i;
        }
        i := i + 1;
      }
      index := -1;
    }

    /** `fetchStations(filters)`: the returned list replaces the cache. */
    method FetchStations(filters: Filters, response: Http<seq<Record>>) returns (result: Outcome, params: seq<Param>)
      modifies this
      ensures SendsFilters(filters, params)
      ensures !loading && currentStation == old(currentStation)
      ensures response.Delivered? ==>
        stations == response.data && error == None && result == Succeeded(None)
      ensures response.Rejected? ==>
        && stations == old(stations)
        && error == Some(OrElse(response.message, FetchStationsFailed))
        && result == Failed(error.value)
    {
      loading := true;
      error := None;
      params := BuildParams(filters);
      if response.Delivered? {
        stations := response.data;
        result := Succeeded(None);
      } else {
        error := Some(OrElse(response.message, FetchStationsFailed));
        result := Failed(error.value);
      }
      loading := false;
    }

    /** `fetchStation(id)`: the returned station becomes the current one. */
    method FetchStation(id: Id, response: Http<Record>) returns (result: Outcome)
      modifies this
      ensures !loading && stations == old(stations)
      ensures response.Delivered? ==>
        currentStation == Some(response.data) && error == None && result == Succeeded(None)
      ensures response.Rejected? ==>
        && currentStation == old(currentStation)
        && error == Some(OrElse(response.message, FetchStationFailed))
        && result == Failed(error.value)
    {
      loading := true;
      error := None;
      if response.Delivered? {
        currentStation := Some(response.data);
        result := Succeeded(None);
      } else {
        error := Some(OrElse(response.message, FetchStationFailed));
        result := Failed(error.value);
      }
      loading := false;
    }

    /** `createStation(data)`: the created record is appended. */
    method CreateStation(response: Http<Record>) returns (result: Outcome)
      modifies this
      ensures !loading && currentStation == old(currentStation)
      ensures response.Delivered? ==>
        && stations == old(stations) + [response.data]
        && error == None && result == Succeeded(Some(response.data))
      ensures response.Rejected? ==>
        && stations == old(stations)
        && error == Some(OrElse(response.message, CreateFailed))
        && result == Failed(error.value)
    {
      loading := true;
      error := None;
      if response.Delivered? {
        stations := stations + [response.data];
        result := Succeeded(Some(response.data));
      } else {
        error := Some(OrElse(response.message, CreateFailed));
        result := Failed(error.value);
      }
      loading := false;
    }

    /** `updateStation(id, data)`: the first cached record with that id, and the
        current station if it has that id, are replaced by the updated record. */
    method UpdateStation(id: Id, response: Http<Record>) returns (result: Outcome)
      modifies this
      ensures !loading
      ensures response.Delivered? ==>
        && |stations| == |old(stations)|
        && (forall k :: 0 <= k < |stations| ==>
              stations[k] == if FirstMatch(old(stations), id, k) then response.data else old(stations)[k])
        && currentStation == (if old(currentStation).Some? && old(currentStation).value.id == id
                              then Some(response.data) else old(currentStation))
        && error == None && result == Succeeded(Some(response.data))
      ensures response.Rejected? ==>
        && stations == old(stations) && currentStation == old(currentStation)
        && error == Some(OrElse(response.message, UpdateFailed))
        && result == Failed(error.value)
    {
      loading := true;
      error := None;
      if response.Delivered? {
        var index := FindIndex(id);
        if index != -1 {
          stations := stations[index := response.data];
        }
        if currentStation.Some? && currentStation.value.id == id {
          currentStation := Some(response.data);
        }
        result := Succeeded(Some(response.data));
      } else {
        error := Some(OrElse(response.message, UpdateFailed));
        result := Failed(error.value);
      }
      loading := false;
    }

    /** `deleteStation(id)`: every cached record with that id is dropped, and the
        current station is cleared if it has that id. */
    method DeleteStation(id: Id, response: Http<string>) returns (result: Outcome)
      modifies this
      ensures !loading
      ensures response.Delivered? ==>
        && stations == WithoutId(old(stations), id)
        && currentStation == (if old(currentStation).Some? && old(currentStation).value.id == id
                              then None else old(currentStation))
        && error == None && result == Succeeded(None)
      ensures response.Rejected? ==>
        && stations == old(stations) && currentStation == old(currentStation)
        && error == Some(OrElse(response.message, DeleteFailed))
        && result == Failed(error.value)
    {
      loading := true;
      error := None;
      if response.Delivered? {
        stations := WithoutId(stations, id);
        if currentStation.Some? && currentStation.value.id == id {
          currentStation := None;
        }
        result := Succeeded(None);
      } else {
        error := Some(OrElse(response.message, DeleteFailed));
        result := Failed(error.value);
      }
      loading := false;
    }
  }
}

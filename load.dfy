/** The repository: the four PostgreSQL tables the pipeline reads and writes, held in memory
    (weather_pipeline/load.py). Each `pg_*` function is one method of `Repository`; the SQL
    conflict and ordering rules (`ON CONFLICT … DO UPDATE`, `DISTINCT ON … ORDER BY
    observed_at DESC`, `ORDER BY location_id`) are written out. `now` is a parameter. */
module Load {
  import opened Wrappers
  import opened JsonModel
  import opened Transform
  import opened Extract

  /** A `dim.location` row. */
  datatype Location = Location(id: int, key: string, lat: Num, lon: Num, active: bool)

  /** A `raw.weather_api_responses` row; `ingestedAt` is set when the row is inserted. */
  datatype RawRow = RawRow(
    id: int,
    endpoint: string,
    locationId: int,
    locationKey: string,
    params: Params,
    status: int,
    dataTs: Option<int>,
    payload: Json,
    ingestedAt: int)

  /** `mart.weather_observation` is keyed by (location_id, observed_at). */
  type ObsKey = (int, int)

  /** The non-key columns of a `mart.weather_observation` row. */
  datatype ObsRow = ObsRow(rec: Record, ingestedAt: int, source: int)

  /** The non-key columns of a `mart.weather_latest` row (keyed by location_id). */
  datatype LatestRow = LatestRow(rec: Record, updatedAt: int)

  /** The curated upsert fails when the raw row is gone or its payload does not normalize. */
  datatype LoadError = RawNotFound(id: int) | Unnormalizable(cause: NormError)

  /** The data-quality gate's three failures, in the order they are checked. */
  datatype DqFailure = TooFewLatestRows(count: int, expected: int) | NoObservations | Stale(lagSeconds: int)

  datatype Verdict = Pass | Fail(reason: DqFailure)

  /** Raw ids grow with insertion order, so each names at most one row. */
  ghost predicate IdsIncreasing(raw: seq<RawRow>)
  {
    forall i, j :: 0 <= i < j < |raw| ==> raw[i].id < raw[j].id
  }

  /** Every observation sits under the key made of its location and its own `observed_at`. */
  ghost predicate Keyed(obs: map<ObsKey, ObsRow>)
  {
    forall k :: k in obs ==> obs[k].rec.observedAt == k.1
  }

  /** Some observation of location `loc` exists. */
  ghost predicate Observed(obs: map<ObsKey, ObsRow>, loc: int)
  {
    exists k :: k in obs && k.0 == loc
  }

  /** `SELECT … FROM raw.weather_api_responses WHERE ingestion_id = id`. */
  function FindRaw(raw: seq<RawRow>, id: int): (r: Option<RawRow>)
    ensures r.Some? ==> r.value in raw && r.value.id == id
    ensures r.None? ==> forall row :: row in raw ==> row.id != id
  {
    if |raw| == 0 then None
    else if raw[0].id == id then Some(raw[0])
    else FindRaw(raw[1..], id)
  }

  /** With increasing ids the lookup finds the one row carrying the id. */
  lemma FindRawUnique(raw: seq<RawRow>, row: RawRow)
    requires IdsIncreasing(raw) && row in raw
    ensures FindRaw(raw, row.id) == Some(row)
  {
  }

  /** The observation table after `pg_upsert_weather_observation(id)`: read the raw row back,
      normalize its payload, then insert or overwrite under (location_id, observed_at). */
  function Upserted(raw: seq<RawRow>, obs: map<ObsKey, ObsRow>, id: int): (r: Result<map<ObsKey, ObsRow>, LoadError>)
    ensures r.Failure? <==> FindRaw(raw, id).None? || Normalize(FindRaw(raw, id).value.payload).Failure?
    ensures r.Success? ==> obs.Keys <= r.value.Keys && |r.value.Keys - obs.Keys| <= 1
    ensures r.Success? ==> exists k :: k in r.value && r.value[k].source == id
    ensures r.Success? ==> forall k :: k in r.value && r.value[k].source != id ==> k in obs && r.value[k] == obs[k]
  {
    match FindRaw(raw, id)
    case None => Failure(RawNotFound(id))
    case Some(row) =>
      match Normalize(row.payload)
      case Failure(e) => Failure(Unnormalizable(e))
      case Success(rec) => Success(obs[(row.locationId, rec.observedAt) := ObsRow(rec, row.ingestedAt, id)])
  }

  /** An id with no raw row is an error, and so is a payload that does not normalize. */
  lemma UpsertErrors(raw: seq<RawRow>, obs: map<ObsKey, ObsRow>, id: int)
    ensures (forall row :: row in raw ==> row.id != id) ==> Upserted(raw, obs, id) == Failure(RawNotFound(id))
    ensures forall row :: row in raw && row.id == id && IdsIncreasing(raw) && Normalize(row.payload).Failure? ==>
      Upserted(raw, obs, id) == Failure(Unnormalizable(Normalize(row.payload).error))
  {
  }

  /** After a successful upsert the row under (location_id, observed_at) holds the normalized
      payload, the raw row's `ingested_at` and the raw id (last write wins); every other key
      keeps its row, and no row goes away. */
  lemma UpsertLastWriteWins(raw: seq<RawRow>, obs: map<ObsKey, ObsRow>, row: RawRow, rec: Record)
    requires IdsIncreasing(raw) && row in raw && Normalize(row.payload) == Success(rec)
    ensures var key := (row.locationId, rec.observedAt);
      && Upserted(raw, obs, row.id).Success?
      && var m := Upserted(raw, obs, row.id).value;
      && m.Keys == obs.Keys + {key}
      && m[key] == ObsRow(rec, row.ingestedAt, row.id)
      && (forall k :: k in obs && k != key ==> m[k] == obs[k])
  {
    FindRawUnique(raw, row);
    var key := (row.locationId, rec.observedAt);
    assert Upserted(raw, obs, row.id) == Success(obs[key := ObsRow(rec, row.ingestedAt, row.id)]);
  }

  /** Repeating an upsert with the same id changes nothing more. */
  lemma UpsertIdempotent(raw: seq<RawRow>, obs: map<ObsKey, ObsRow>, id: int)
    requires Upserted(raw, obs, id).Success?
    ensures Upserted(raw, Upserted(raw, obs, id).value, id) == Upserted(raw, obs, id)
  {
    var row := FindRaw(raw, id).value;
    var rec := Normalize(row.payload).value;
    var key, written := (row.locationId, rec.observedAt), ObsRow(rec, row.ingestedAt, id);
    assert obs[key := written][key := written] == obs[key := written];
  }

  /** Two raw rows that normalize to the same key: after both upserts, in order, one row is
      left under the key and it comes from the second. */
  lemma UpsertSameKeyTwice(raw: seq<RawRow>, obs: map<ObsKey, ObsRow>, first: RawRow, second: RawRow,
                           r1: Record, r2: Record)
    requires IdsIncreasing(raw) && first in raw && second in raw
    requires Normalize(first.payload) == Success(r1) && Normalize(second.payload) == Success(r2)
    requires first.locationId == second.locationId && r1.observedAt == r2.observedAt
    ensures var m1 := Upserted(raw, obs, first.id);
      m1.Success? && Upserted(raw, m1.value, second.id).Success? &&
      Upserted(raw, m1.value, second.id).value[(second.locationId, r2.observedAt)] ==
        ObsRow(r2, second.ingestedAt, second.id)
  {
    UpsertLastWriteWins(raw, obs, first, r1);
    UpsertLastWriteWins(raw, Upserted(raw, obs, first.id).value, second, r2);
  }

  /** An upsert keeps every observation under the key of its own location and time. */
  lemma UpsertKeepsKeying(raw: seq<RawRow>, obs: map<ObsKey, ObsRow>, id: int)
    requires Keyed(obs) && Upserted(raw, obs, id).Success?
    ensures Keyed(Upserted(raw, obs, id).value)
  {
  }

  function Max(a: int, b: int): int
  {
    if a < b then b else a
  }

  /** The decision at the end of `pg_dq_freshness_and_rowcount`, over the counts it read:
      too few latest rows first, then no observation at all, then staleness. A lag exactly
      at the limit passes; lags are in seconds, the limit in minutes. */
  function DqDecide(latestCount: nat, maxObserved: Option<int>, expected: int, maxLagMinutes: int, now: int): (v: Verdict)
    ensures v.Pass? <==>
      latestCount >= 1 && latestCount >= expected &&
      maxObserved.Some? && now - maxObserved.value <= 60 * maxLagMinutes
    ensures (v.Fail? && v.reason.TooFewLatestRows?) <==> latestCount < 1 || latestCount < expected
    ensures v == Fail(NoObservations) <==>
      latestCount >= 1 && latestCount >= expected && maxObserved.None?
  {
    if latestCount < Max(1, expected) then Fail(TooFewLatestRows(latestCount, expected))
    else if maxObserved.None? then Fail(NoObservations)
    else if now - maxObserved.value > 60 * maxLagMinutes then Fail(Stale(now - maxObserved.value))
    else Pass
  }

  /** Three expected locations and a 180-minute limit: two latest rows fail; three rows with the
      newest observation 180 minutes old pass; one more second of lag fails. */
  lemma DqExamples(now: int)
    ensures DqDecide(2, Some(now), 3, 180, now) == Fail(TooFewLatestRows(2, 3))
    ensures DqDecide(3, Some(now - 180 * 60), 3, 180, now) == Pass
    ensures DqDecide(3, Some(now - 180 * 60 - 1), 3, 180, now) == Fail(Stale(180 * 60 + 1))
    ensures DqDecide(0, None, 0, 180, now) == Fail(TooFewLatestRows(0, 0))
  {
  }

  /** A non-empty set has an element. */
  lemma HasElement(s: set<int>)
    requires s != {}
    ensures exists x :: x in s
  {
    if forall x :: x !in s {
      assert false;
    }
  }

  /** The smallest element of a non-empty set of ids. */
  method Smallest(s: set<int>) returns (m: int)
    requires s != {}
    ensures m in s && forall x :: x in s ==> m <= x
  {
    HasElement(s);
    m :| m in s;
    var todo := s - {m};
    while todo != {}
      invariant todo <= s && m in s
      invariant forall x :: x in s && x !in todo ==> m <= x
      decreases |todo|
    {
      HasElement(todo);
      var x :| x in todo;
      if x < m {
        m := x;
      }
      todo := todo - {x};
    }
  }

  class Repository {
    /** dim.location, keyed by location_id; read-only here. */
    var locations: map<int, Location>
    /** raw.weather_api_responses in insertion order; append-only. */
    var raw: seq<RawRow>
    /** The id the store hands out next. */
    var nextId: int
    /** mart.weather_observation, unique on (location_id, observed_at). */
    var observations: map<ObsKey, ObsRow>
    /** mart.weather_latest, unique on location_id. */
    var latest: map<int, LatestRow>

    ghost predicate Valid()
      reads this
    {
      && (forall id :: id in locations ==> locations[id].id == id)
      && (forall i :: 0 <= i < |raw| ==> raw[i].id < nextId)
      && IdsIncreasing(raw)
      && Keyed(observations)
    }

    constructor (locs: map<int, Location>)
      requires forall id :: id in locs ==> locs[id].id == id
      ensures Valid()
      ensures locations == locs && raw == [] && observations == map[] && latest == map[]
    {
      locations := locs;
      raw := [];
      nextId := 1;
      observations := map[];
      latest := map[];
    }

    /** `pg_fetch_active_locations`: the active locations, ordered by id ascending. */
    method ActiveLocations() returns (rows: seq<Location>)
      requires Valid()
      ensures forall i, j :: 0 <= i < j < |rows| ==> rows[i].id < rows[j].id
      ensures forall l :: l in rows <==> l.id in locations && locations[l.id] == l && l.active
    {
      var todo := set id | id in locations && locations[id].active;
      rows := [];
      while todo != {}
        invariant forall id :: id in todo ==> id in locations && locations[id].active
        invariant forall i, j :: 0 <= i < j < |rows| ==> rows[i].id < rows[j].id
        invariant forall i, id :: 0 <= i < |rows| && id in todo ==> rows[i].id < id
        invariant forall l :: l in rows <==>
          l.id in locations && locations[l.id] == l && l.active && l.id !in todo
        decreases |todo|
      {
        var m := Smallest(todo);
        rows := rows + [locations[m]];
        todo := todo - {m};
      }
    }

    /** `pg_insert_raw_response`: append one row under a fresh id, stamped `now`; no dedup. */
    method InsertRaw(endpoint: string, locationId: int, locationKey: string, params: Params,
                     status: int, dataTs: Option<int>, payload: Json, now: int)
      returns (id: int)
      requires Valid()
      modifies this`raw, this`nextId
      ensures Valid()
      ensures forall row :: row in old(raw) ==> row.id != id
      ensures raw == old(raw) + [RawRow(id, endpoint, locationId, locationKey, params, status, dataTs, payload, now)]
      ensures FindRaw(raw, id) == Some(raw[|raw| - 1])
    {
      id := nextId;
      raw := raw + [RawRow(id, endpoint, locationId, locationKey, params, status, dataTs, payload, now)];
      nextId := nextId + 1;
      FindRawUnique(raw, raw[|raw| - 1]);
    }

    /** `pg_upsert_weather_observation`: re-read the raw row, normalize it, and insert or
        overwrite the observation; the affected row count is 1. On an error nothing is written. */
    method UpsertObservation(id: int) returns (r: Result<nat, LoadError>)
      requires Valid()
      modifies this`observations
      ensures Valid()
      ensures Upserted(raw, old(observations), id).Success? ==>
        r == Success(1) && observations == Upserted(raw, old(observations), id).value
      ensures Upserted(raw, old(observations), id).Failure? ==>
        r == Failure(Upserted(raw, old(observations), id).error) && observations == old(observations)
    {
      match Upserted(raw, observations, id)
      case Failure(e) =>
        r := Failure(e);
      case Success(m) =>
        UpsertKeepsKeying(raw, observations, id);
        observations := m;
        r := Success(1);
    }

    /** `pg_refresh_latest`: for each location with observations, its newest one (greatest
        `observed_at`) is written into the latest table, stamped `now`. Rows of locations without
        observations are left as they are: nothing is deleted. */
    method RefreshLatest(now: int)
      requires Valid()
      modifies this`latest
      ensures Valid()
      ensures forall loc :: loc in latest <==> loc in old(latest) || Observed(observations, loc)
      ensures forall loc :: loc in old(latest) && !Observed(observations, loc) ==> latest[loc] == old(latest)[loc]
      ensures forall k :: k in observations ==> k.0 in latest && k.1 <= latest[k.0].rec.observedAt
      ensures forall loc :: Observed(observations, loc) ==>
        (loc, latest[loc].rec.observedAt) in observations &&
        latest[loc] == LatestRow(observations[(loc, latest[loc].rec.observedAt)].rec, now)
    {
      var todo := observations.Keys;
      var newest: map<int, int> := map[];
      while todo != {}
        invariant todo <= observations.Keys
        invariant forall k :: k in observations && k !in todo ==> k.0 in newest && k.1 <= newest[k.0]
        invariant forall loc :: loc in newest ==> (loc, newest[loc]) in observations
        decreases |todo|
      {
        var k :| k in todo;
        if k.0 !in newest || newest[k.0] < k.1 {
          newest := newest[k.0 := k.1];
        }
        todo := todo - {k};
      }
      var rows := map loc | loc in newest :: LatestRow(observations[(loc, newest[loc])].rec, now);
      forall loc | Observed(observations, loc)
        ensures loc in newest
      {
        var k :| k in observations && k.0 == loc;
      }
      forall loc | loc in newest
        ensures Observed(observations, loc)
      {
        assert (loc, newest[loc]) in observations;
      }
      latest := latest + rows;
    }

    /** `SELECT MAX(observed_at) FROM mart.weather_observation`: None on an empty table. */
    method MaxObservedAt() returns (m: Option<int>)
      ensures m.None? <==> observations == map[]
      ensures m.Some? ==>
        (exists k :: k in observations && k.1 == m.value) &&
        forall k :: k in observations ==> k.1 <= m.value
    {
      var todo := observations.Keys;
      m := None;
      while todo != {}
        invariant todo <= observations.Keys
        invariant m.None? <==> todo == observations.Keys
        invariant m.Some? ==> exists k :: k in observations && k.1 == m.value
        invariant m.Some? ==> forall k :: k in observations && k !in todo ==> k.1 <= m.value
        decreases |todo|
      {
        var k :| k in todo;
        if m.None? || m.value < k.1 {
          m := Some(k.1);
        }
        todo := todo - {k};
      }
    }

    /** `pg_dq_freshness_and_rowcount`: read the latest-row count and the newest observation
        time, then decide. It passes exactly when the latest table has at least
        max(1, expected) rows and some observation is at most `maxLagMinutes` old. */
    method CheckDataQuality(expected: int, maxLagMinutes: int, now: int) returns (v: Verdict)
      ensures (v.Fail? && v.reason.TooFewLatestRows?) <==> |latest| < Max(1, expected)
      ensures v == Fail(NoObservations) <==> |latest| >= Max(1, expected) && observations == map[]
      ensures v.Pass? <==>
        |latest| >= Max(1, expected) &&
        exists k :: k in observations && now - k.1 <= 60 * maxLagMinutes
    {
      var count := |latest|;
      var newest := MaxObservedAt();
      v := DqDecide(count, newest, expected, maxLagMinutes, now);
    }
  }
}

/** The normalizer: maps an OpenWeatherMap "current weather" payload to the thirteen
    fields of a curated observation (weather_pipeline/transform.py). */
module Transform {
  import opened Wrappers
  import opened JsonModel
  import opened Timestamps

  // ---------------------------------------------------------------------------
  // Key-path walk (`_safe_get`)
  // ---------------------------------------------------------------------------

  /** The value the walk holds after consuming `keys` one by one from `d`, or None once a
      step meets a value that is not an object or an object without the next key. This is
      the state of `_safe_get`'s loop after it has consumed `keys`. */
  function Walk(d: Json, keys: seq<string>): Option<Json>
    decreases |keys|
  {
    if |keys| == 0 then Some(d)
    else
      var last := keys[|keys| - 1];
      match Walk(d, keys[..|keys| - 1])
      case Some(JObj(m)) => if last in m then Some(m[last]) else None
      case _ => None
  }

  /** Walking a concatenated path is walking its first part, then the second from there. */
  lemma {:induction false} WalkAppend(d: Json, a: seq<string>, b: seq<string>)
    ensures Walk(d, a + b) == if Walk(d, a).None? then None else Walk(Walk(d, a).value, b)
    decreases |b|
  {
    if |b| == 0 {
      assert a + b == a;
    } else {
      var b' := b[..|b| - 1];
      WalkAppend(d, a, b');
      assert (a + b)[..|a + b| - 1] == a + b';
      assert (a + b)[|a + b| - 1] == b[|b| - 1];
    }
  }

  /** The first step of a walk: descend into `d` under the first key, or stop. */
  lemma WalkFirstStep(d: Json, keys: seq<string>)
    requires |keys| > 0
    ensures Walk(d, keys) ==
      if d.JObj? && keys[0] in d.fields then Walk(d.fields[keys[0]], keys[1..]) else None
  {
    WalkAppend(d, [keys[0]], keys[1..]);
    assert [keys[0]] + keys[1..] == keys;
    assert [keys[0]][..0] == [];
  }

  /** `_safe_get(d, *keys, default=default)`: descend one key at a time, answering `default`
      as soon as the current value is not an object or lacks the key; the value reached at the
      end of the path otherwise. */
  function SafeGet(d: Json, keys: seq<string>, default: Json): (r: Json)
    ensures Walk(d, keys).Some? ==> r == Walk(d, keys).value
    ensures Walk(d, keys).None? ==> r == default
    decreases |keys|
  {
    if |keys| == 0 then d
    else
      WalkFirstStep(d, keys);
      if d.JObj? && keys[0] in d.fields then SafeGet(d.fields[keys[0]], keys[1..], default)
      else default
  }

  /** The empty path answers the input itself, whatever the default. */
  lemma SafeGetEmptyPath(d: Json, default: Json)
    ensures SafeGet(d, [], default) == d
  {
  }

  /** Once some prefix of the path is stuck (a non-object, or a missing key), the answer is the
      default, whatever the rest of the path. */
  lemma {:induction false} SafeGetStuck(d: Json, keys: seq<string>, i: nat, default: Json)
    requires i <= |keys| && Walk(d, keys[..i]).None?
    ensures SafeGet(d, keys, default) == default
  {
    WalkAppend(d, keys[..i], keys[i..]);
    assert keys[..i] + keys[i..] == keys;
  }

  // ---------------------------------------------------------------------------
  // The curated record and `normalize_current_weather_payload`
  // ---------------------------------------------------------------------------

  /** The fields of a `mart.weather_observation` row that come from the payload. Weather values
      are passed through as the JSON values they are; null stands for Python's None. */
  datatype Record = Record(
    observedAt: int,
    tempC: Json,
    feelsLikeC: Json,
    humidityPct: Json,
    pressureHpa: Json,
    windSpeedMps: Json,
    windDeg: Json,
    cloudsPct: Json,
    visibilityM: Json,
    rain1hMm: Json,
    snow1hMm: Json,
    weatherMain: Json,
    weatherDescription: Json)

  /** Why a payload cannot be normalized: it is not an object (`payload.get` fails), its `dt`
      is absent or null, or `dt` is rejected by `int()` or by the datetime range. */
  datatype NormError = PayloadNotObject | MissingDt | InvalidDt

  /** A container field used as a dict: the object itself, or an empty dict for anything else. */
  function ObjectOrEmpty(v: Json): map<string, Json>
  {
    if v.JObj? then v.fields else map[]
  }

  /** The first element of `weather` when it is a non-empty list whose head is an object. */
  function FirstObject(v: Json): Option<map<string, Json>>
  {
    if v.JList? && |v.items| > 0 && v.items[0].JObj? then Some(v.items[0].fields) else None
  }

  /** `weather0.get(k) if weather0 else None`: an empty dict is falsy in Python. */
  function WeatherField(weather0: Option<map<string, Json>>, k: string): Json
  {
    match weather0
    case Some(w) => if |w| > 0 then Get(w, k) else JNull
    case None => JNull
  }

  /** `normalize_current_weather_payload`. */
  function Normalize(payload: Json): (r: Result<Record, NormError>)
    ensures !payload.JObj? ==> r == Failure(PayloadNotObject)
    ensures payload.JObj? ==> (r == Failure(MissingDt) <==> Get(payload.fields, "dt") == JNull)
    ensures r.Success? ==>
      payload.JObj? && UtcFromUnix(Get(payload.fields, "dt")) == At(r.value.observedAt)
    ensures r.Success? ==> MinEpoch <= r.value.observedAt <= MaxEpoch
  {
    if !payload.JObj? then Failure(PayloadNotObject)
    else
      var p := payload.fields;
      match UtcFromUnix(Get(p, "dt"))
      case NoStamp => Failure(MissingDt)
      case BadStamp => Failure(InvalidDt)
      case At(observed) =>
        var main := ObjectOrEmpty(Get(p, "main"));
        var wind := ObjectOrEmpty(Get(p, "wind"));
        var clouds := ObjectOrEmpty(Get(p, "clouds"));
        var weather0 := FirstObject(Get(p, "weather"));
        Success(Record(
          observed,
          Get(main, "temp"),
          Get(main, "feels_like"),
          Get(main, "humidity"),
          Get(main, "pressure"),
          Get(wind, "speed"),
          Get(wind, "deg"),
          Get(clouds, "all"),
          Get(p, "visibility"),
          SafeGet(payload, ["rain", "1h"], JNull),
          SafeGet(payload, ["snow", "1h"], JNull),
          WeatherField(weather0, "main"),
          WeatherField(weather0, "description")))
  }

  // ---------------------------------------------------------------------------
  // Properties of the normalizer
  // ---------------------------------------------------------------------------

  /** `dt` is the one hard requirement: an object payload fails exactly when `dt` is absent,
      null or not convertible; every integer `dt` in the datetime range, 0 included, is
      accepted and becomes `observed_at`. */
  lemma DtIsTheOnlyRequirement(payload: Json)
    requires payload.JObj?
    ensures var dt := Get(payload.fields, "dt");
      && (Normalize(payload).Failure? <==> dt == JNull || UtcFromUnix(dt) == BadStamp)
      && (dt.JInt? && MinEpoch <= dt.n <= MaxEpoch ==>
            Normalize(payload).Success? && Normalize(payload).value.observedAt == dt.n)
      && (!dt.JNull? && PyInt(dt).Some? && MinEpoch <= PyInt(dt).value <= MaxEpoch ==>
            Normalize(payload).Success? && Normalize(payload).value.observedAt == PyInt(dt).value)
  {
  }

  /** `main` fields: all null when `main` is absent or not an object; otherwise each is the
      value under its key, or null when the key is absent. */
  lemma MainFieldsDefaultToNull(payload: Json, rec: Record)
    requires Normalize(payload) == Success(rec)
    ensures var main := Get(payload.fields, "main");
      && (!main.JObj? ==>
            rec.tempC == JNull && rec.feelsLikeC == JNull &&
            rec.humidityPct == JNull && rec.pressureHpa == JNull)
      && (main.JObj? ==>
            rec.tempC == Get(main.fields, "temp") &&
            rec.feelsLikeC == Get(main.fields, "feels_like") &&
            rec.humidityPct == Get(main.fields, "humidity") &&
            rec.pressureHpa == Get(main.fields, "pressure"))
  {
  }

  /** The same default-to-null rule for `wind` (speed, deg) and `clouds` (all). */
  lemma WindAndCloudsDefaultToNull(payload: Json, rec: Record)
    requires Normalize(payload) == Success(rec)
    ensures var wind := Get(payload.fields, "wind");
      && (!wind.JObj? ==> rec.windSpeedMps == JNull && rec.windDeg == JNull)
      && (wind.JObj? ==>
            rec.windSpeedMps == Get(wind.fields, "speed") && rec.windDeg == Get(wind.fields, "deg"))
    ensures var clouds := Get(payload.fields, "clouds");
      && (!clouds.JObj? ==> rec.cloudsPct == JNull)
      && (clouds.JObj? ==> rec.cloudsPct == Get(clouds.fields, "all"))
  {
  }

  /** One-hour precipitation is null unless `rain` (resp. `snow`) is an object holding `1h`,
      and then it is that value unchanged: absence is not turned into zero. */
  lemma PrecipitationPassesThrough(payload: Json, rec: Record)
    requires Normalize(payload) == Success(rec)
    ensures var rain := Get(payload.fields, "rain");
      rec.rain1hMm == (if rain.JObj? && "1h" in rain.fields then rain.fields["1h"] else JNull)
    ensures var snow := Get(payload.fields, "snow");
      rec.snow1hMm == (if snow.JObj? && "1h" in snow.fields then snow.fields["1h"] else JNull)
  {
  }

  /** A two-key walk from an object payload. */
  lemma PathOfTwo(payload: Json, a: string, b: string)
    requires payload.JObj?
    ensures var c := Get(payload.fields, a);
      SafeGet(payload, [a, b], JNull) == (if c.JObj? && b in c.fields then c.fields[b] else JNull)
  {
  }

  /** Every field read through `main`, `wind` and `clouds` agrees with a `_safe_get` walk
      along the same two-key path: the two mechanisms of the normalizer coincide. */
  lemma ContainerFieldsAreSafeGetPaths(payload: Json, rec: Record)
    requires Normalize(payload) == Success(rec)
    ensures rec.tempC == SafeGet(payload, ["main", "temp"], JNull)
    ensures rec.feelsLikeC == SafeGet(payload, ["main", "feels_like"], JNull)
    ensures rec.humidityPct == SafeGet(payload, ["main", "humidity"], JNull)
    ensures rec.pressureHpa == SafeGet(payload, ["main", "pressure"], JNull)
    ensures rec.windSpeedMps == SafeGet(payload, ["wind", "speed"], JNull)
    ensures rec.windDeg == SafeGet(payload, ["wind", "deg"], JNull)
    ensures rec.cloudsPct == SafeGet(payload, ["clouds", "all"], JNull)
  {
    PathOfTwo(payload, "main", "temp");
    PathOfTwo(payload, "main", "feels_like");
    PathOfTwo(payload, "main", "humidity");
    PathOfTwo(payload, "main", "pressure");
    PathOfTwo(payload, "wind", "speed");
    PathOfTwo(payload, "wind", "deg");
    PathOfTwo(payload, "clouds", "all");
  }

  /** Weather category and description come from the head of `weather` only when it is a
      non-empty list whose head is an object; otherwise both are null. */
  lemma WeatherFromFirstElement(payload: Json, rec: Record)
    requires Normalize(payload) == Success(rec)
    ensures var w := Get(payload.fields, "weather");
      && (w.JList? && |w.items| > 0 && w.items[0].JObj? ==>
            rec.weatherMain == Get(w.items[0].fields, "main") &&
            rec.weatherDescription == Get(w.items[0].fields, "description"))
      && (!(w.JList? && |w.items| > 0 && w.items[0].JObj?) ==>
            rec.weatherMain == JNull && rec.weatherDescription == JNull)
  {
  }

  /** Visibility is the top-level value unchanged, or null when absent. */
  lemma VisibilityUnchanged(payload: Json, rec: Record)
    requires Normalize(payload) == Success(rec)
    ensures "visibility" in payload.fields ==> rec.visibilityM == payload.fields["visibility"]
    ensures "visibility" !in payload.fields ==> rec.visibilityM == JNull
  {
  }

  /** One payload with `dt` = 1700000000 and `main.temp` = 10.5 and nothing else: the record
      carries that instant and that temperature, and every other field is null. */
  lemma SingleTemperatureExample()
    ensures var temp := JNum(Num("10.5", 10));
      var payload := JObj(map["dt" := JInt(1700000000), "main" := JObj(map["temp" := temp])]);
      Normalize(payload) == Success(Record(1700000000, temp, JNull, JNull, JNull, JNull, JNull,
                                           JNull, JNull, JNull, JNull, JNull, JNull))
  {
  }
}

/** The sensor platform (custom_components/weerlive/sensor.py): the
    configuration schema, platform setup, and the read-only projection each
    sensor entity makes of the shared client. */
module Sensor {
  import opened Wrappers
  import opened Const
  import opened WeerliveApi

  /** Home Assistant's ATTR_ATTRIBUTION key. */
  const AttrAttribution: string := "attribution"

  /** The two float operations the projection needs, which the model keeps
      uninterpreted: Python's `float()` (`None` where it raises ValueError)
      and `round(x, 1)`. */
  datatype Numerics<!N> = Numerics(toFloat: string -> Option<N>, round1: N -> N)

  /** A sensor state: a float or the raw wind-direction value. */
  datatype Reading<N> = Number(x: N) | Raw(v: string)

  /** The faults a sensor entity raises. */
  datatype SensorFault =
    | ApiFault(fault: Fault)           // raised by a client accessor
    | NotImplemented(typeName: string) // `state` of an unknown sensor type
    | KeyError(typeName: string)       // `SENSOR_TYPES[...]` of an unknown sensor type

  /** `WeerliveSensor(coordinator, api, sensor_type_name, client_name)`; the
      shared client is passed to each read instead of being held. */
  datatype WeerliveSensor = WeerliveSensor(typeName: string, clientName: string)

  /** `_sensor_type`: the descriptor table row of the sensor's identifier. */
  function SensorTypeOf(s: WeerliveSensor): (r: Result<SensorType, SensorFault>)
    ensures r.Success? <==> KindOf(s.typeName).Some?
    ensures r.Success? ==> r.value == Descriptor(KindOf(s.typeName).value)
    ensures r.Failure? ==> r.error == KeyError(s.typeName)
  {
    if s.typeName in SensorTypes then Success(SensorTypes[s.typeName])
    else Failure(KeyError(s.typeName))
  }

  /** `name`: the client name, a space, the descriptor's display name. */
  function Name(s: WeerliveSensor): (r: Result<string, SensorFault>)
    ensures r.Success? <==> KindOf(s.typeName).Some?
    ensures r.Success? ==> |r.value| > |s.clientName|
    ensures r.Success? ==> r.value[..|s.clientName| + 1] == s.clientName + " "
    ensures r.Success? ==> r.value[|s.clientName| + 1..] == Descriptor(KindOf(s.typeName).value).name
    ensures r.Failure? ==> r.error == KeyError(s.typeName)
  {
    match SensorTypeOf(s)
    case Failure(e) => Failure(e)
    case Success(t) => Success(s.clientName + " " + t.name)
  }

  /** Two sensors of one client with different identifiers get different
      names. */
  lemma DistinctSensorsDistinctNames(a: WeerliveSensor, b: WeerliveSensor)
    requires a.clientName == b.clientName
    requires Name(a).Success? && Name(b).Success?
    ensures Name(a).value == Name(b).value <==> a.typeName == b.typeName
  {
    if Name(a).value == Name(b).value {
      var ka, kb := KindOf(a.typeName).value, KindOf(b.typeName).value;
      assert Descriptor(ka).name == Name(a).value[|a.clientName| + 1..];
      DescriptorNamesInjective(ka, kb);
    }
  }

  /** `unit_of_measurement`: the descriptor's unit. */
  function UnitOfMeasurement(s: WeerliveSensor): (r: Result<string, SensorFault>)
    ensures r.Success? <==> KindOf(s.typeName).Some?
    ensures r.Success? ==> r.value == SensorTypes[s.typeName].unit
    ensures r.Failure? ==> r.error == KeyError(s.typeName)
  {
    match SensorTypeOf(s)
    case Failure(e) => Failure(e)
    case Success(t) => Success(t.unit)
  }

  /** `icon`: the descriptor's icon. */
  function Icon(s: WeerliveSensor): (r: Result<string, SensorFault>)
    ensures r.Success? <==> KindOf(s.typeName).Some?
    ensures r.Success? ==> r.value == SensorTypes[s.typeName].icon
    ensures r.Failure? ==> r.error == KeyError(s.typeName)
  {
    match SensorTypeOf(s)
    case Failure(e) => Failure(e)
    case Success(t) => Success(t.icon)
  }

  /** `extra_state_attributes`: the attribution alone, for every sensor. */
  function ExtraStateAttributes(s: WeerliveSensor): (r: map<string, string>)
    ensures r.Keys == {AttrAttribution}
    ensures r[AttrAttribution] == Attribution
  {
    map[AttrAttribution := Attribution]
  }

  /** A numeric accessor's result as a state, passed through `round`. */
  function NumberState<N>(x: Result<N, Fault>, round: N -> N): Result<Option<Reading<N>>, SensorFault> {
    match x
    case Failure(e) => Failure(ApiFault(e))
    case Success(v) => Success(Some(Number(round(v))))
  }

  /** `state`: `None` until the client has data, otherwise the reading of
      the sensor's kind; an unknown identifier raises. */
  function State<N>(s: WeerliveSensor, api: Client, num: Numerics<N>)
    : (r: Result<Option<Reading<N>>, SensorFault>)
    ensures !HasData(api) ==> r == Success(None)
    ensures HasData(api) && KindOf(s.typeName).None? ==> r == Failure(NotImplemented(s.typeName))
    // temperatures: the field as a float, rounded to one decimal
    ensures HasData(api) && (s.typeName == ItemTemp || s.typeName == ItemFeelTemp) ==>
      var field := if s.typeName == ItemTemp then "temp" else "gtemp";
      && (r.Success? <==> field in api.data && num.toFloat(api.data[field]).Some?)
      && (r.Success? ==> r.value == Some(Number(num.round1(num.toFloat(api.data[field]).value))))
    // wind speed: the field as a float, not rounded
    ensures HasData(api) && s.typeName == ItemWindSpeed ==>
      && (r.Success? <==> "windkmh" in api.data && num.toFloat(api.data["windkmh"]).Some?)
      && (r.Success? ==> r.value == Some(Number(num.toFloat(api.data["windkmh"]).value)))
    // wind direction: the raw value, never a fault
    ensures HasData(api) && s.typeName == ItemWindDirection ==>
      r == Success(if "windr" in api.data then Some(Raw(api.data["windr"])) else None)
    // a numeric field that is missing raises TypeError, one that does not convert ValueError
    ensures HasData(api) && (s.typeName == ItemTemp || s.typeName == ItemFeelTemp || s.typeName == ItemWindSpeed) ==>
      var field := if s.typeName == ItemTemp then "temp" else if s.typeName == ItemFeelTemp then "gtemp" else "windkmh";
      && (field !in api.data ==> r == Failure(ApiFault(MissingField(field))))
      && (field in api.data && num.toFloat(api.data[field]).None? ==> r == Failure(ApiFault(NotANumber(field))))
    // the only faults are the accessors' and the unknown identifier's
    ensures r.Failure? ==> HasData(api) && (r.error.ApiFault? || r.error == NotImplemented(s.typeName))
  {
    if !HasData(api) then Success(None)
    else
      match KindOf(s.typeName)
      case None => Failure(NotImplemented(s.typeName))
      case Some(Temperature) => NumberState(ReadTemperature(api, num.toFloat), num.round1)
      case Some(FeelsLike) => NumberState(ReadFeelTemperature(api, num.toFloat), num.round1)
      case Some(WindDirection) =>
        (match ReadWindDirection(api)
         case None => Success(None)
         case Some(v) => Success(Some(Raw(v))))
      case Some(WindSpeed) => NumberState(ReadWindSpeed(api, num.toFloat), x => x)
  }

  /** After any series of scheduled safe refreshes, every sensor shows what
      it would show on the last delivered record; with no delivery yet it
      still shows what it showed before (nothing, for a fresh client). */
  lemma {:induction false} StateAfterRefreshes<N>(s: WeerliveSensor, c: Client, polls: seq<Poll>,
                                     num: Numerics<N>)
    ensures LastDelivery(polls).Some? ==>
      State(s, RunSafe(c, polls), num)
        == State(s, c.(data := FetchData(LastDelivery(polls).value.resp).value), num)
    ensures LastDelivery(polls).None? ==> State(s, RunSafe(c, polls), num) == State(s, c, num)
    ensures LastDelivery(polls).None? && c.data == map[] ==> State(s, RunSafe(c, polls), num) == Success(None)
  {
    RunSafeKeepsLastDelivery(c, polls);
  }

  /** The configuration as given, before the platform schema is applied;
      `None` marks an absent key. */
  datatype RawConfig = RawConfig(latitude: Option<string>, longitude: Option<string>,
                                 apiKey: Option<string>, name: Option<string>,
                                 monitoredConditions: Option<seq<string>>)

  /** The schema rules a configuration can break. */
  datatype ConfigError =
    | NoConditions                  // an empty list of monitored conditions
    | UnknownCondition(id: string)  // a condition outside the descriptor table
    | UnpairedCoordinates           // latitude without longitude, or the reverse

  /** The schema marks the API key `Required` but gives it this default
      (the third positional argument of voluptuous's `Required` is the
      default), so a configuration without a key is accepted with it. */
  const DefaultApiKey: string := "API-Key of Weerlive"

  /** A configuration the schema accepted, defaults filled in. */
  datatype Config = Config(latitude: Option<string>, longitude: Option<string>,
                           apiKey: string, name: string, monitoredConditions: seq<string>)

  /** What the schema guarantees of an accepted configuration. */
  predicate ValidConfig(cfg: Config) {
    && |cfg.monitoredConditions| > 0
    && (forall i :: 0 <= i < |cfg.monitoredConditions| ==> cfg.monitoredConditions[i] in SensorTypes)
    && (cfg.latitude.Some? <==> cfg.longitude.Some?)
  }

  /** The first identifier of a list that is not in the descriptor table. */
  function FirstUnknown(ids: seq<string>): (r: Option<string>)
    ensures r.None? <==> forall i :: 0 <= i < |ids| ==> ids[i] in SensorTypes
    ensures r.Some? ==> r.value in ids && r.value !in SensorTypes
    ensures r.Some? ==> exists i :: 0 <= i < |ids| && ids[i] == r.value
                          && forall j :: 0 <= j < i ==> ids[j] in SensorTypes
  {
    if |ids| == 0 then None
    else if ids[0] !in SensorTypes then Some(ids[0])
    else FirstUnknown(ids[1..])
  }

  /** The platform schema: monitored conditions default to temperature alone
      and must be a non-empty list of known identifiers; latitude and
      longitude come together or not at all; the API key and the name fall
      back to their defaults. Which rule is reported when
      several are broken is not modelled beyond some broken one. */
  function ValidateConfig(raw: RawConfig): (r: Result<Config, ConfigError>)
    ensures r.Success? <==>
      && (raw.latitude.Some? <==> raw.longitude.Some?)
      && (raw.monitoredConditions.Some? ==>
            |raw.monitoredConditions.value| > 0
            && forall i :: 0 <= i < |raw.monitoredConditions.value| ==>
                 raw.monitoredConditions.value[i] in SensorTypes)
    ensures r.Success? ==>
      && ValidConfig(r.value)
      && r.value.latitude == raw.latitude && r.value.longitude == raw.longitude
      && r.value.apiKey == raw.apiKey.GetOr(DefaultApiKey)
      && r.value.name == raw.name.GetOr(DefaultName)
      && r.value.monitoredConditions == raw.monitoredConditions.GetOr([ItemTemp])
  {
    var conditions := raw.monitoredConditions.GetOr([ItemTemp]);
    if |conditions| == 0 then Failure(NoConditions)
    else if FirstUnknown(conditions).Some? then Failure(UnknownCondition(FirstUnknown(conditions).value))
    else if raw.latitude.Some? != raw.longitude.Some? then Failure(UnpairedCoordinates)
    else Success(Config(raw.latitude, raw.longitude, raw.apiKey.GetOr(DefaultApiKey),
                        raw.name.GetOr(DefaultName), conditions))
  }

  /** The outcome of platform setup: aborted, or one client and its entities. */
  datatype Platform = Aborted | Created(api: Client, entities: seq<WeerliveSensor>)

  /** A configured coordinate, else the host's default. */
  function Coordinate(configured: Option<string>, host: Option<string>): (r: Option<string>)
    ensures configured.Some? ==> r == configured
    ensures configured.None? ==> r == host
  {
    if configured.Some? then configured else host
  }

  /** `async_setup_platform`: resolve the coordinates, abort when either is
      still unknown, otherwise create the client and one entity per
      monitored condition, in order. */
  function SetupPlatform(cfg: Config, hostLatitude: Option<string>, hostLongitude: Option<string>)
    : (r: Platform)
    ensures r.Aborted? <==> Coordinate(cfg.latitude, hostLatitude).None?
                             || Coordinate(cfg.longitude, hostLongitude).None?
    ensures r.Created? ==>
      && r.api.lat == Coordinate(cfg.latitude, hostLatitude).value
      && r.api.lon == Coordinate(cfg.longitude, hostLongitude).value
      && r.api.key == cfg.apiKey
      && !HasData(r.api) && r.api.updatedAt.None?
    ensures r.Created? ==>
      && |r.entities| == |cfg.monitoredConditions|
      && forall i :: 0 <= i < |r.entities| ==>
           r.entities[i] == WeerliveSensor(cfg.monitoredConditions[i], cfg.name)
  {
    var latitude := Coordinate(cfg.latitude, hostLatitude);
    var longitude := Coordinate(cfg.longitude, hostLongitude);
    if latitude.None? || longitude.None? then Aborted
    else
      var conditions := cfg.monitoredConditions;
      Created(NewClient(longitude.value, latitude.value, cfg.apiKey),
              seq(|conditions|, i requires 0 <= i < |conditions| => WeerliveSensor(conditions[i], cfg.name)))
  }

  /** The set-up client asks for the resolved latitude first, although the
      setup passes longitude first to the client constructor. */
  lemma SetupRequestsLatitudeFirst(cfg: Config, hostLatitude: Option<string>, hostLongitude: Option<string>)
    requires SetupPlatform(cfg, hostLatitude, hostLongitude).Created?
    requires ',' !in Coordinate(cfg.latitude, hostLatitude).value
    ensures var req := BuildRequest(SetupPlatform(cfg, hostLatitude, hostLongitude).api);
      && req.params[ParamKey] == cfg.apiKey
      && SplitLocation(req.params[ParamLocation])
           == Some((Coordinate(cfg.latitude, hostLatitude).value, Coordinate(cfg.longitude, hostLongitude).value))
  {
  }

  /** Every entity created from an accepted configuration names a known
      sensor type: its descriptor lookups succeed and its state never raises
      the unknown-type fault, whatever the client holds. */
  lemma ConfiguredSensorsAreKnown<N>(raw: RawConfig, hostLatitude: Option<string>,
                                          hostLongitude: Option<string>, i: nat,
                                          c: Client, num: Numerics<N>)
    requires ValidateConfig(raw).Success?
    requires SetupPlatform(ValidateConfig(raw).value, hostLatitude, hostLongitude).Created?
    requires i < |SetupPlatform(ValidateConfig(raw).value, hostLatitude, hostLongitude).entities|
    ensures var s := SetupPlatform(ValidateConfig(raw).value, hostLatitude, hostLongitude).entities[i];
      && Name(s).Success? && UnitOfMeasurement(s).Success? && Icon(s).Success?
      && (State(s, c, num).Failure? ==> State(s, c, num).error.ApiFault?)
  {
    var cfg := ValidateConfig(raw).value;
    assert cfg.monitoredConditions[i] in SensorTypes;
  }
}

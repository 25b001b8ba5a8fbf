/** The data client (custom_components/weerlive/weerlive_api.py): one cached
    weather record and the time it was stored, refreshed by a fetch whose
    outcome is given as a parameter.

    The record's values are the JSON strings the endpoint sends; the type
    parameter `N` stands for a Python float. Coordinates are kept as their
    `str()` renderings, which is all the client ever uses them for. */
module WeerliveApi {
  import opened Wrappers

  const RequestUrl: string := "https://weerlive.nl/api/json-data-10min.php"
  /** The fetch always passes this timeout, whatever `update` was given. */
  const RequestTimeoutSeconds: nat := 30

  /** The query parameter names of the request. */
  const ParamLocation: string := "locatie"
  const ParamKey: string := "key"

  /** A decoded weather record: field name to its JSON string value. */
  type Record = map<string, string>

  /** A wall-clock instant, as `datetime.now()` returns it. */
  type Time = int

  /** The faults the client raises. */
  datatype Fault =
    | RequestFault               // any requests.RequestException: connection, timeout, HTTP error status
    | MissingLiveweer            // TypeError: the body has no 'liveweer' member to index
    | EmptyLiveweer              // IndexError: 'liveweer' is an empty list
    | MissingField(field: string) // TypeError: float() of the None a missing field reads as
    | NotANumber(field: string)   // ValueError: float() of a non-numeric value

  /** What one GET to the endpoint produced: either `requests` raised, or a
      body was decoded, of which only the 'liveweer' member is consulted. */
  datatype Response =
    | RequestFailed
    | Body(liveweer: Option<seq<Record>>)

  /** The outbound request: URL, query parameters and timeout. */
  datatype Request = Request(url: string, params: map<string, string>, timeoutSeconds: nat)

  /** Connection parameters plus the cache (`data`, `updated_at`). */
  datatype Client = Client(lon: string, lat: string, key: string,
                                 data: Record, updatedAt: Option<Time>)

  /** The outcome of `update`: the client afterwards and the fault it raised, if any. */
  datatype UpdateOutcome = UpdateOutcome(client: Client, raised: Option<Fault>)

  /** `Weerlive(lon, lat, key)`: longitude comes first; the cache starts empty. */
  function NewClient(lon: string, lat: string, key: string): (c: Client)
    ensures c.lon == lon && c.lat == lat && c.key == key
    ensures !HasData(c) && c.updatedAt == None
  {
    Client(lon, lat, key, map[], None)
  }

  /** `has_data`: the cached record is a non-empty mapping. */
  function HasData(c: Client): (b: bool)
    ensures b <==> c.data != map[]
  {
    |c.data| != 0
  }

  /** The `locatie` value: latitude, a comma, longitude. */
  function Location(lat: string, lon: string): string {
    lat + "," + lon
  }

  /** Splits a location at its first comma; `None` when there is none. */
  function SplitLocation(s: string): (r: Option<(string, string)>)
    ensures r.Some? ==> ',' !in r.value.0 && s == r.value.0 + "," + r.value.1
    ensures r.None? ==> ',' !in s
  {
    if |s| == 0 then None
    else if s[0] == ',' then Some(("", s[1..]))
    else match SplitLocation(s[1..])
      case None => None
      case Some((a, b)) => Some(([s[0]] + a, b))
  }

  /** A rendering without a comma is recovered from the location: the
      first component is the latitude, the rest the longitude. */
  lemma {:induction false} SplitLocationOfLocation(lat: string, lon: string)
    requires ',' !in lat
    ensures SplitLocation(Location(lat, lon)) == Some((lat, lon))
  {
    if |lat| == 0 {
      assert Location(lat, lon) == "," + lon;
    } else {
      assert Location(lat, lon)[1..] == Location(lat[1..], lon);
      SplitLocationOfLocation(lat[1..], lon);
      assert [lat[0]] + lat[1..] == lat;
    }
  }

  /** The request `_fetch_data` sends for a client. */
  function BuildRequest(c: Client): (r: Request)
    ensures r.url == RequestUrl && r.timeoutSeconds == RequestTimeoutSeconds
    ensures r.params.Keys == {ParamLocation, ParamKey}
    ensures r.params[ParamKey] == c.key
    ensures ',' !in c.lat ==> SplitLocation(r.params[ParamLocation]) == Some((c.lat, c.lon))
  {
    var req := Request(RequestUrl, map[ParamLocation := Location(c.lat, c.lon), ParamKey := c.key],
                       RequestTimeoutSeconds);
    if ',' in c.lat then req
    else SplitLocationOfLocation(c.lat, c.lon); req
  }

  /** `_fetch_data`: element 0 of the body's 'liveweer' list. A request
      fault, a missing member and an empty list are three different faults. */
  function FetchData(resp: Response): (r: Result<Record, Fault>)
    ensures r == Failure(RequestFault) <==> resp.RequestFailed?
    ensures r.Success? <==> resp.Body? && resp.liveweer.Some? && |resp.liveweer.value| > 0
    ensures r.Success? ==> r.value == resp.liveweer.value[0]
    ensures resp.Body? && resp.liveweer.None? ==> r == Failure(MissingLiveweer)
    ensures resp.Body? && resp.liveweer == Some([]) ==> r == Failure(EmptyLiveweer)
  {
    match resp
    case RequestFailed => Failure(RequestFault)
    case Body(liveweer) =>
      match liveweer
      case None => Failure(MissingLiveweer)
      case Some(items) => if |items| == 0 then Failure(EmptyLiveweer) else Success(items[0])
  }

  /** `_fetch_data_safe`: a request fault becomes the empty record; every
      other fault still propagates. */
  function FetchDataSafe(resp: Response): (r: Result<Record, Fault>)
    ensures FetchData(resp) == Failure(RequestFault) ==> r == Success(map[])
    ensures FetchData(resp) != Failure(RequestFault) ==> r == FetchData(resp)
  {
    match FetchData(resp)
    case Failure(RequestFault) => Success(map[])
    case other => other
  }

  /** A response from which a non-empty record is fetched. */
  predicate Delivers(resp: Response) {
    FetchData(resp).Success? && FetchData(resp).value != map[]
  }

  /** `update(safe)` with the fetch producing `resp`, and `now` the time
      sampled when the call started. */
  function Update(c: Client, safe: bool, resp: Response, now: Time): (r: UpdateOutcome)
    // the connection parameters never change
    ensures r.client.lon == c.lon && r.client.lat == c.lat && r.client.key == c.key
    // a raised fault leaves the cache untouched
    ensures r.raised.Some? ==> r.client == c
    // safe mode raises exactly the faults that are not request faults
    ensures safe ==> (r.raised.Some? <==> FetchData(resp).Failure? && FetchData(resp).error != RequestFault)
    // unsafe mode raises every fault
    ensures !safe ==> (r.raised.Some? <==> FetchData(resp).Failure?)
    ensures r.raised.Some? ==> FetchData(resp) == Failure(r.raised.value)
    // safe mode replaces the cache exactly on a non-empty record, else keeps it
    ensures safe && Delivers(resp) ==> r.client.data == FetchData(resp).value && r.client.updatedAt == Some(now)
    ensures safe && !Delivers(resp) ==> r.client == c
    // unsafe mode stores whatever was fetched, even an empty record
    ensures !safe && FetchData(resp).Success? ==>
              r.client.data == FetchData(resp).value && r.client.updatedAt == Some(now)
  {
    if safe then
      match FetchDataSafe(resp)
      case Failure(e) => UpdateOutcome(c, Some(e))
      case Success(data) =>
        if |data| == 0 then UpdateOutcome(c, None)
        else UpdateOutcome(c.(data := data, updatedAt := Some(now)), None)
    else
      match FetchData(resp)
      case Failure(e) => UpdateOutcome(c, Some(e))
      case Success(data) => UpdateOutcome(c.(data := data, updatedAt := Some(now)), None)
  }

  /** In safe mode a client that has data keeps having data. */
  lemma SafeUpdateKeepsData(c: Client, resp: Response, now: Time)
    requires HasData(c)
    ensures HasData(Update(c, true, resp, now).client)
  {
  }

  /** One scheduled refresh: the fetch outcome and the time the call started. */
  datatype Poll = Poll(resp: Response, now: Time)

  /** The client after a series of scheduled safe refreshes. A fault raised
      by one of them escapes to the scheduler, which carries on with the
      client as it was. */
  function RunSafe(c: Client, polls: seq<Poll>): Client
    decreases |polls|
  {
    if |polls| == 0 then c
    else RunSafe(Update(c, true, polls[0].resp, polls[0].now).client, polls[1..])
  }

  /** The last poll of a series that delivered a non-empty record. */
  function LastDelivery(polls: seq<Poll>): (r: Option<Poll>)
    ensures r.Some? ==> r.value in polls && Delivers(r.value.resp)
    ensures r.Some? ==> exists i :: 0 <= i < |polls| && polls[i] == r.value
                          && forall j :: i < j < |polls| ==> !Delivers(polls[j].resp)
    ensures r.None? <==> forall i :: 0 <= i < |polls| ==> !Delivers(polls[i].resp)
  {
    if |polls| == 0 then None
    else if Delivers(polls[|polls| - 1].resp) then Some(polls[|polls| - 1])
    else LastDelivery(polls[..|polls| - 1])
  }

  /** Running one more refresh after a series. */
  lemma {:induction false} RunSafeSnoc(c: Client, polls: seq<Poll>, p: Poll)
    ensures RunSafe(c, polls + [p]) == Update(RunSafe(c, polls), true, p.resp, p.now).client
    decreases |polls|
  {
    if |polls| == 0 {
      assert polls + [p] == [p];
    } else {
      assert (polls + [p])[1..] == polls[1..] + [p];
      RunSafeSnoc(Update(c, true, polls[0].resp, polls[0].now).client, polls[1..], p);
    }
  }

  /** After any series of safe refreshes the cache holds the record of the
      last delivering poll, stamped with that poll's time, or is unchanged
      when no poll delivered. */
  lemma {:induction false} RunSafeKeepsLastDelivery(c: Client, polls: seq<Poll>)
    ensures var last := LastDelivery(polls);
      && (last.Some? ==> RunSafe(c, polls).data == FetchData(last.value.resp).value
                         && RunSafe(c, polls).updatedAt == Some(last.value.now))
      && (last.None? ==> RunSafe(c, polls) == c)
    decreases |polls|
  {
    if |polls| == 0 {
    } else {
      var init := polls[..|polls| - 1];
      var p := polls[|polls| - 1];
      assert polls == init + [p];
      RunSafeSnoc(c, init, p);
      RunSafeKeepsLastDelivery(c, init);
    }
  }

  /** `has_data` is monotone under safe refreshes. */
  lemma {:induction false} RunSafeKeepsData(c: Client, polls: seq<Poll>)
    requires HasData(c)
    ensures HasData(RunSafe(c, polls))
    decreases |polls|
  {
    if |polls| > 0 {
      SafeUpdateKeepsData(c, polls[0].resp, polls[0].now);
      RunSafeKeepsData(Update(c, true, polls[0].resp, polls[0].now).client, polls[1..]);
    }
  }

  /** A fresh client has data after a series of safe refreshes exactly when
      one of them delivered a non-empty record. */
  lemma {:induction false} FreshClientHasDataIffDelivered(lon: string, lat: string, key: string, polls: seq<Poll>)
    ensures HasData(RunSafe(NewClient(lon, lat, key), polls))
            <==> exists i :: 0 <= i < |polls| && Delivers(polls[i].resp)
  {
    RunSafeKeepsLastDelivery(NewClient(lon, lat, key), polls);
  }

  /** A float-valued field: `float(data.get(field))`. */
  function FloatField<N>(data: Record, field: string, toFloat: string -> Option<N>): (r: Result<N, Fault>)
    ensures r.Success? <==> field in data && toFloat(data[field]).Some?
    ensures r.Success? ==> toFloat(data[field]) == Some(r.value)
    ensures field !in data <==> r == Failure(MissingField(field))
    ensures field in data && r.Failure? ==> r == Failure(NotANumber(field))
  {
    if field !in data then Failure(MissingField(field))
    else match toFloat(data[field])
      case None => Failure(NotANumber(field))
      case Some(x) => Success(x)
  }

  /** The `temperature` accessor: the `temp` field as a float. */
  function ReadTemperature<N>(c: Client, toFloat: string -> Option<N>): (r: Result<N, Fault>)
    ensures r.Success? <==> "temp" in c.data && toFloat(c.data["temp"]).Some?
    ensures r.Success? ==> toFloat(c.data["temp"]) == Some(r.value)
    ensures "temp" !in c.data <==> r == Failure(MissingField("temp"))
    ensures "temp" in c.data && r.Failure? ==> r == Failure(NotANumber("temp"))
  {
    FloatField(c.data, "temp", toFloat)
  }

  /** The `feel_temperature` accessor: the `gtemp` field as a float. */
  function ReadFeelTemperature<N>(c: Client, toFloat: string -> Option<N>): (r: Result<N, Fault>)
    ensures r.Success? <==> "gtemp" in c.data && toFloat(c.data["gtemp"]).Some?
    ensures r.Success? ==> toFloat(c.data["gtemp"]) == Some(r.value)
    ensures "gtemp" !in c.data <==> r == Failure(MissingField("gtemp"))
    ensures "gtemp" in c.data && r.Failure? ==> r == Failure(NotANumber("gtemp"))
  {
    FloatField(c.data, "gtemp", toFloat)
  }

  /** The `wind_speed` accessor: the `windkmh` field as a float. */
  function ReadWindSpeed<N>(c: Client, toFloat: string -> Option<N>): (r: Result<N, Fault>)
    ensures r.Success? <==> "windkmh" in c.data && toFloat(c.data["windkmh"]).Some?
    ensures r.Success? ==> toFloat(c.data["windkmh"]) == Some(r.value)
    ensures "windkmh" !in c.data <==> r == Failure(MissingField("windkmh"))
    ensures "windkmh" in c.data && r.Failure? ==> r == Failure(NotANumber("windkmh"))
  {
    FloatField(c.data, "windkmh", toFloat)
  }

  /** The `wind_direction` accessor: the raw value, `None` when absent. */
  function ReadWindDirection(c: Client): (r: Option<string>)
    ensures r.Some? <==> "windr" in c.data
    ensures r.Some? ==> r.value == c.data["windr"]
  {
    if "windr" in c.data then Some(c.data["windr"]) else None
  }
}

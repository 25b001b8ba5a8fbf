# Weerlive integration — Dafny model

A model of the Home Assistant "weerlive" custom component: a polling client
for the Weerlive weather API that caches the latest weather record, and four
sensor entities (temperature, feels-like temperature, wind speed, wind
direction) that project that cache.

- `wrappers.dfy` — `Option` and `Result`, for Python's `None` and raised exceptions.
- `const.dfy` (module `Const`) — the constants and the `SENSOR_TYPES` descriptor
  table, with a closed `SensorKind` enumeration and the identifier ⇄ kind mapping.
- `weerlive_api.dfy` (module `WeerliveApi`) — the `Weerlive` client as an
  immutable record (`lon`, `lat`, `key`, `data`, `updatedAt`) and a pure step
  function `Update(client, safe, response, now)` returning the client
  afterwards and the fault raised, if any. The HTTP exchange is a parameter:
  either `requests` raised (`RequestFailed`) or a body was decoded, of which
  only the `liveweer` member matters. Also the request built for a client,
  the field accessors, and `RunSafe`, the client after a series of
  scheduled safe refreshes.
- `sensor.dfy` (module `Sensor`) — the `WeerliveSensor` properties (`name`,
  `unit_of_measurement`, `icon`, `extra_state_attributes`, `state`), the
  platform schema as `ValidateConfig`, and `async_setup_platform` as
  `SetupPlatform`.

Modelling choices:
- A weather record maps field names to the JSON strings the endpoint sends,
  and a timestamp is an `int`. Python floats are a type parameter `N`.
  `float()` and `round(x, 1)` are passed in as a `Numerics` record of
  functions and stay uninterpreted.
- Coordinates are held as their `str()` renderings, which is all the client
  uses them for.
- `datetime.now()` is the `now` parameter of `Update`, sampled at call start.
- In safe mode only a `RequestException` is caught. A body
  without `liveweer` raises `TypeError`, and an empty `liveweer` list raises
  `IndexError`. Both propagate out of `update(safe=True)`, and the cache is
  left untouched. `RunSafe` continues with the unchanged client after such a
  fault, as the host scheduler does.
- The schema's `vol.Required(CONF_API_KEY, "api_keys", "API-Key of Weerlive")`
  passes "API-Key of Weerlive" as the key's default (voluptuous's `Required`
  takes the message second and the default third). A configuration without
  an API key is therefore accepted with that string as its key.
- `update`'s `timeout` argument is ignored by the code: every request uses 30 seconds.
- `TEMP_CELSIUS` ("°C"), `SPEED_KILOMETERS_PER_HOUR` ("km/h") and
  `ATTR_ATTRIBUTION` ("attribution") are Home Assistant constants, written out here.

## Model

| member | source | states |
|---|---|---|
| Const.ItemId | custom_components/weerlive/const.py:27-30 | every kind's identifier is a key of the descriptor table |
| Const.KindOf | custom_components/weerlive/const.py:27-53 | an identifier parses to a kind exactly when it is a key of `SENSOR_TYPES`, and the kind maps back to that identifier |
| Const.KindOfItemId | custom_components/weerlive/const.py:27-30 | identifier and kind are mutually inverse |
| Const.SensorTypesKeys | custom_components/weerlive/const.py:32-53 | the table has exactly four keys: `temperature`, `temperature_feels_like`, `wind_speed`, `wind_direction` |
| Const.DescriptorRows | custom_components/weerlive/const.py:32-53 | both temperatures share unit °C and icon `mdi:thermometer` but have different names; wind speed is km/h with `mdi:weather-windy`; wind direction has the empty unit and `mdi:windsock` |
| Const.DescriptorNamesInjective | custom_components/weerlive/const.py:32-53 | two kinds have the same display name only if they are the same kind |
| WeerliveApi.NewClient | custom_components/weerlive/weerlive_api.py:10-21 | a new client keeps lon, lat and key as given, has no data and no update time |
| WeerliveApi.HasData | custom_components/weerlive/weerlive_api.py:39-41 | `has_data` holds exactly when the cached record is a non-empty mapping |
| WeerliveApi.SplitLocationOfLocation | custom_components/weerlive/weerlive_api.py:62 | the `locatie` string splits at its first comma back into latitude and longitude when the latitude rendering has no comma |
| WeerliveApi.BuildRequest | custom_components/weerlive/weerlive_api.py:60-66 | the request goes to the fixed URL with a 30-second timeout and exactly the parameters `locatie` and `key`; `key` is the client's key and `locatie` splits back into (latitude, longitude), latitude first |
| WeerliveApi.FetchData | custom_components/weerlive/weerlive_api.py:60-73 | the fetch yields element 0 of `liveweer` exactly when a body was decoded with a non-empty `liveweer`; a request fault is reported as such and only then; a body without `liveweer` is the TypeError and an empty `liveweer` the IndexError |
| WeerliveApi.FetchDataSafe | custom_components/weerlive/weerlive_api.py:75-81 | a request fault becomes the empty record; every other outcome, faults included, is passed on unchanged |
| WeerliveApi.Update | custom_components/weerlive/weerlive_api.py:43-56 | connection parameters never change; a raised fault leaves the client untouched; safe mode raises exactly the non-request faults and replaces data and update time (to `now`) exactly on a non-empty record; unsafe mode raises every fault and stores any fetched record, even an empty one |
| WeerliveApi.SafeUpdateKeepsData | custom_components/weerlive/weerlive_api.py:46-52 | a safe update never takes `has_data` from true to false |
| WeerliveApi.LastDelivery | custom_components/weerlive/weerlive_api.py:47-52 | a poll of the series that delivered a non-empty record with no delivering poll after it, absent exactly when no poll did |
| WeerliveApi.RunSafeKeepsLastDelivery | custom_components/weerlive/weerlive_api.py:43-56 | after any series of safe refreshes the cache holds the last delivered record stamped with its poll's time, or is unchanged when none delivered |
| WeerliveApi.RunSafeKeepsData | custom_components/weerlive/weerlive_api.py:47-52 | under safe refreshes `has_data`, once true, stays true |
| WeerliveApi.FreshClientHasDataIffDelivered | custom_components/weerlive/weerlive_api.py:20-56 | a new client has data after a series of safe refreshes exactly when one of them delivered a non-empty record |
| WeerliveApi.FloatField | custom_components/weerlive/weerlive_api.py:23-37 | a numeric accessor succeeds exactly when the field is present and converts; a missing field is a TypeError, a non-numeric one a ValueError |
| WeerliveApi.ReadTemperature | custom_components/weerlive/weerlive_api.py:23-25 | `temperature` succeeds exactly when `temp` is present and converts, giving its float; a missing `temp` is the TypeError and a non-numeric one the ValueError |
| WeerliveApi.ReadFeelTemperature | custom_components/weerlive/weerlive_api.py:27-29 | `feel_temperature` succeeds exactly when `gtemp` is present and converts, giving its float; a missing `gtemp` is the TypeError and a non-numeric one the ValueError |
| WeerliveApi.ReadWindSpeed | custom_components/weerlive/weerlive_api.py:35-37 | `wind_speed` succeeds exactly when `windkmh` is present and converts, giving its float; a missing `windkmh` is the TypeError and a non-numeric one the ValueError |
| WeerliveApi.ReadWindDirection | custom_components/weerlive/weerlive_api.py:31-33 | the wind direction is the raw `windr` value, absent when the field is |
| Sensor.SensorTypeOf | custom_components/weerlive/sensor.py:148-150 | the descriptor lookup succeeds exactly for the four known identifiers, giving that kind's row, and raises KeyError otherwise |
| Sensor.Name | custom_components/weerlive/sensor.py:111-113 | the name is the client name, a space, then the descriptor's display name; KeyError for an unknown identifier |
| Sensor.DistinctSensorsDistinctNames | custom_components/weerlive/sensor.py:111-113 | two sensors of one client have the same name exactly when they have the same identifier |
| Sensor.UnitOfMeasurement | custom_components/weerlive/sensor.py:115-117 | the unit is the table row's unit; KeyError for an unknown identifier |
| Sensor.Icon | custom_components/weerlive/sensor.py:119-121 | the icon is the table row's icon; KeyError for an unknown identifier |
| Sensor.ExtraStateAttributes | custom_components/weerlive/sensor.py:123-129 | the attributes are exactly the attribution "Data provided by Meteoserver", whatever the sensor or data |
| Sensor.State | custom_components/weerlive/sensor.py:131-146 | no data gives `None` for every identifier; temperatures are their field as a float rounded to one decimal; wind speed is its float unrounded; wind direction the raw value; an unknown identifier raises NotImplementedError; a missing `temp`/`gtemp`/`windkmh` raises the accessor's TypeError and a non-numeric one its ValueError; no other fault occurs |
| Sensor.StateAfterRefreshes | custom_components/weerlive/sensor.py:76-79 | after scheduled safe refreshes every sensor shows what it shows on the last delivered record, or what it showed before when none delivered (`None` for a fresh client) |
| Sensor.FirstUnknown | custom_components/weerlive/sensor.py:40-42 | finds the first condition outside the descriptor table, and finds none exactly when all are known |
| Sensor.ValidateConfig | custom_components/weerlive/sensor.py:38-58 | apart from the coordinates' float coercion and range checks, a configuration is accepted exactly when its coordinates are paired and its conditions (default `[temperature]`) are a non-empty list of known identifiers; a missing API key becomes "API-Key of Weerlive" and a missing name "weerlive" |
| Sensor.Coordinate | custom_components/weerlive/sensor.py:66-67 | a configured coordinate wins over the host's default |
| Sensor.SetupPlatform | custom_components/weerlive/sensor.py:66-95 | setup aborts exactly when latitude or longitude is unresolved; otherwise it creates an empty client with the resolved coordinates and key, and one entity per configured condition, in order, named with the configured name |
| Sensor.SetupRequestsLatitudeFirst | custom_components/weerlive/sensor.py:66-74 | although setup passes longitude first to the constructor, the client's request carries the resolved latitude first and the configured key |
| Sensor.ConfiguredSensorsAreKnown | custom_components/weerlive/sensor.py:92-95 | every entity created from an accepted configuration has a name, unit and icon, and its state never raises the unknown-type fault |

## Left out

- HTTP itself (`requests.get`, `raise_for_status`, the timeout's effect) and JSON decoding: the response is a parameter of `Update`. A decoded `liveweer` whose element 0 is not a mapping is not modelled.
- `float()` and `round(x, 1)`: floating-point numerics, kept uninterpreted in `Numerics`, so no concrete rounding result is stated.
- The Home Assistant coordinator, `async_add_executor_job`, entity registration and scheduling: host plumbing and concurrency. `RunSafe` stands for the serialized sequence of refreshes the coordinator drives every `UpdateIntervalSeconds`.
- Logging and `datetime.now()` (the latter is the `now` parameter).
- Sensor.ValidateConfig: does not model the float coercion and range checks of `cv.latitude`/`cv.longitude`. The source rejects a non-numeric or out-of-range coordinate, which is accepted here. A configured coordinate stands for `str()` of the float the schema stores. It also does not model `cv.ensure_list` (a single string accepted as a one-element list), or which error voluptuous reports when several rules are broken.
- Unused imports and constants such as `ICON_WEATHER_POURING` and `LENGTH_MILLIMETERS`.

/** The constants and the sensor descriptor table of the integration
    (custom_components/weerlive/const.py). */
module Const {
  import opened Wrappers

  /** One row of the descriptor table: display name, unit of measurement and icon. */
  datatype SensorType = SensorType(name: string, unit: string, icon: string)

  /** The coordinator refreshes the client every 300 seconds. */
  const UpdateIntervalSeconds: nat := 300
  const Attribution: string := "Data provided by Meteoserver"
  const DefaultName: string := "weerlive"

  const IconThermometer: string := "mdi:thermometer"
  const IconWindSpeed: string := "mdi:weather-windy"
  const IconWindDirection: string := "mdi:windsock"

  // Unit strings that Home Assistant defines as TEMP_CELSIUS and
  // SPEED_KILOMETERS_PER_HOUR.
  const TempCelsius: string := "\U{B0}C"
  const SpeedKilometersPerHour: string := "km/h"

  /** The four sensor identifiers accepted in the configuration. */
  const ItemTemp: string := "temperature"
  const ItemFeelTemp: string := "temperature_feels_like"
  const ItemWindSpeed: string := "wind_speed"
  const ItemWindDirection: string := "wind_direction"

  /** The descriptor table, keyed by sensor identifier. */
  const SensorTypes: map<string, SensorType> := map[
    ItemTemp := SensorType("Temperature", TempCelsius, IconThermometer),
    ItemFeelTemp := SensorType("Temperature (feels like)", TempCelsius, IconThermometer),
    ItemWindSpeed := SensorType("Wind speed", SpeedKilometersPerHour, IconWindSpeed),
    ItemWindDirection := SensorType("Wind direction", "", IconWindDirection)
  ]

  /** The closed set of sensor kinds that the identifiers name. */
  datatype SensorKind = Temperature | FeelsLike | WindSpeed | WindDirection

  /** The configuration identifier of a kind. */
  function ItemId(k: SensorKind): (id: string)
    ensures id in SensorTypes
  {
    match k
    case Temperature => ItemTemp
    case FeelsLike => ItemFeelTemp
    case WindSpeed => ItemWindSpeed
    case WindDirection => ItemWindDirection
  }

  /** Parses an identifier; `None` for anything outside the table. */
  function KindOf(id: string): (r: Option<SensorKind>)
    ensures r.Some? <==> id in SensorTypes
    ensures r.Some? ==> ItemId(r.value) == id
  {
    if id == ItemTemp then Some(Temperature)
    else if id == ItemFeelTemp then Some(FeelsLike)
    else if id == ItemWindSpeed then Some(WindSpeed)
    else if id == ItemWindDirection then Some(WindDirection)
    else None
  }

  /** The descriptor of a kind: its row of the table. */
  function Descriptor(k: SensorKind): SensorType {
    SensorTypes[ItemId(k)]
  }

  /** Identifier and kind are mutually inverse. */
  lemma KindOfItemId(k: SensorKind)
    ensures KindOf(ItemId(k)) == Some(k)
  {
  }

  /** The table has exactly the four identifiers as keys. */
  lemma SensorTypesKeys()
    ensures SensorTypes.Keys == {ItemTemp, ItemFeelTemp, ItemWindSpeed, ItemWindDirection}
    ensures |SensorTypes| == 4
  {
  }

  /** The contents of the four rows. */
  lemma DescriptorRows()
    ensures Descriptor(Temperature).unit == Descriptor(FeelsLike).unit == TempCelsius
    ensures Descriptor(Temperature).icon == Descriptor(FeelsLike).icon == IconThermometer
    ensures Descriptor(Temperature).name != Descriptor(FeelsLike).name
    ensures Descriptor(WindSpeed) == SensorType("Wind speed", SpeedKilometersPerHour, IconWindSpeed)
    ensures Descriptor(WindDirection) == SensorType("Wind direction", "", IconWindDirection)
  {
  }

  /** Distinct kinds have distinct display names. */
  lemma DescriptorNamesInjective(a: SensorKind, b: SensorKind)
    ensures Descriptor(a).name == Descriptor(b).name <==> a == b
  {
  }
}

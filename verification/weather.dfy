/**
 * The shape of the canned weather answers. Each record mirrors the dict the
 * weather tool returns, keeping its integer and string fields; the
 * floating-point ones (coordinates, temperatures, wind speed) are not part of
 * this model.
 */
module Weather {
  import opened Text

  /** One entry of the record's "weather" list. */
  datatype Condition = Condition(id: int, main: string, description: string, icon: string)

  /** The record's "sys" block. */
  datatype Sys = Sys(kind: int, id: int, country: string, sunrise: int, sunset: int)

  datatype WeatherRecord = WeatherRecord(
    weather: seq<Condition>,
    base: string,
    pressure: int,
    humidity: int,
    visibility: int,
    windDeg: int,
    cloudsAll: int,
    dt: int,
    sys: Sys,
    timezone: int,
    id: int,
    name: string,
    cod: int)

  /** What a lookup returns: a weather record, or the `{"error", "message"}` dict. */
  datatype Outcome = Found(record: WeatherRecord) | NotFound(error: string, message: string)

  /** The two city names fold to the keys they are looked up under. */
  lemma CityNamesFold()
    ensures Lower("Beijing") == "beijing" && Lower("Shanghai") == "shanghai"
  {
    BeijingFolds();
    ShanghaiFolds();
  }

  /** A capital followed by no other capital folds to its lower-case letter and the rest unchanged. */
  lemma CapitalisedFolds(c: char, rest: string)
    requires forall i :: 0 <= i < |rest| ==> !IsUpper(rest[i])
    ensures Lower([c] + rest) == [LowerChar(c)] + rest
  {
    var l := Lower([c] + rest);
    assert forall i :: 0 <= i < |rest| ==> l[i + 1] == rest[i];
  }

  lemma BeijingFolds()
    ensures Lower("Beijing") == "beijing"
  {
    assert "Beijing" == ['B'] + "eijing";
    CapitalisedFolds('B', "eijing");
  }

  lemma ShanghaiFolds()
    ensures Lower("Shanghai") == "shanghai"
  {
    assert "Shanghai" == ['S'] + "hanghai";
    CapitalisedFolds('S', "hanghai");
  }
}

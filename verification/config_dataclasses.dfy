/**
 * The typed configuration records of src/configurations/config_dataclasses.py
 * and `UserCfg.from_dict`, which builds them from a parsed JSON object.
 *
 * The dataclass fields carry type annotations, but nothing checks them: a field
 * holds whatever value the dictionary held, so every field here is a `Value`.
 * The sub-records are built by `Cls(**sub_dict)`, so a sub-dictionary must be a
 * mapping whose keys are exactly the dataclass's field names (none of them has
 * a default).
 */
module ConfigDataclasses {
  import opened Wrappers
  import opened JsonValue

  datatype OpenWeatherCfg = OpenWeatherCfg(lat: Value, long: Value, apiKey: Value)

  datatype GoogleCalendarCfg = GoogleCalendarCfg(calenderId: Value)

  datatype UserCfg = UserCfg(openWeatherCfg: OpenWeatherCfg, googleCalendarCfg: GoogleCalendarCfg, version: Value)

  /** The exceptions `from_dict` can raise. */
  datatype DecodeError =
    | MissingKey(key: string)            // KeyError from dict_obj[key]
    | NotAMapping(key: string)           // TypeError: the value after ** is not a mapping
    | UnexpectedField(dataclass: string) // TypeError: a keyword the constructor does not declare
    | MissingField(dataclass: string)    // TypeError: a declared field was not passed

  const OpenWeatherKey: string := "open_weather_cfg"
  const GoogleCalendarKey: string := "google_calendar_cfg"

  /** The only top-level keys `from_dict` reads. */
  const TopLevelKeys: set<string> := {OpenWeatherKey, GoogleCalendarKey, VersionKey}

  /** The field names of `OpenWeatherCfg` and `GoogleCalendarCfg`. */
  const OpenWeatherFields: set<string> := {"lat", "long", "api_key"}
  const GoogleCalendarFields: set<string> := {"calender_id"}

  /** `dict_obj[key]` unpacked with `**`: present, and a mapping. */
  function Kwargs(d: Blob, key: string): (r: Result<map<string, Value>, DecodeError>)
    ensures r.Success? <==> key in d && d[key].Obj?
    ensures r.Success? ==> r.value == d[key].fields
    ensures key !in d ==> r == Failure(MissingKey(key))
    ensures key in d && !d[key].Obj? ==> r == Failure(NotAMapping(key))
  {
    if key !in d then Failure(MissingKey(key))
    else
      match d[key]
      case Obj(fields) => Success(fields)
      case _ => Failure(NotAMapping(key))
  }

  /**
   * Keyword binding for a dataclass constructor with the given fields, none
   * with a default: an undeclared keyword is reported before a missing one.
   */
  function CheckFields(dataclass: string, fields: set<string>, kwargs: map<string, Value>): (r: Result<map<string, Value>, DecodeError>)
    ensures r.Success? <==> kwargs.Keys == fields
    ensures r.Success? ==> r.value == kwargs
    ensures !(kwargs.Keys <= fields) ==> r == Failure(UnexpectedField(dataclass))
    ensures kwargs.Keys < fields ==> r == Failure(MissingField(dataclass))
  {
    if !(kwargs.Keys <= fields) then Failure(UnexpectedField(dataclass))
    else if kwargs.Keys != fields then Failure(MissingField(dataclass))
    else Success(kwargs)
  }

  /** `OpenWeatherCfg(**kwargs)`. */
  function NewOpenWeatherCfg(kwargs: map<string, Value>): (r: Result<OpenWeatherCfg, DecodeError>)
    ensures r.Success? <==> kwargs.Keys == OpenWeatherFields
    ensures r.Success? ==>
              r.value.lat == kwargs["lat"] && r.value.long == kwargs["long"] && r.value.apiKey == kwargs["api_key"]
  {
    var bound :- CheckFields("OpenWeatherCfg", OpenWeatherFields, kwargs);
    Success(OpenWeatherCfg(bound["lat"], bound["long"], bound["api_key"]))
  }

  /** `GoogleCalendarCfg(**kwargs)`. */
  function NewGoogleCalendarCfg(kwargs: map<string, Value>): (r: Result<GoogleCalendarCfg, DecodeError>)
    ensures r.Success? <==> kwargs.Keys == GoogleCalendarFields
    ensures r.Success? ==> r.value.calenderId == kwargs["calender_id"]
  {
    var bound :- CheckFields("GoogleCalendarCfg", GoogleCalendarFields, kwargs);
    Success(GoogleCalendarCfg(bound["calender_id"]))
  }

  /** When `from_dict` succeeds: the three keys present, each sub-dictionary with exactly its fields. */
  predicate Decodable(d: Blob) {
    && OpenWeatherKey in d && d[OpenWeatherKey].Obj? && d[OpenWeatherKey].fields.Keys == OpenWeatherFields
    && GoogleCalendarKey in d && d[GoogleCalendarKey].Obj? && d[GoogleCalendarKey].fields.Keys == GoogleCalendarFields
    && VersionKey in d
  }

  /**
   * `UserCfg.from_dict`: the weather record first, then the calendar record,
   * then the version; the first failure is the exception raised.
   */
  function FromDict(d: Blob): (r: Result<UserCfg, DecodeError>)
    ensures r.Success? <==> Decodable(d)
    ensures r.Success? ==>
              && r.value.openWeatherCfg.lat == d[OpenWeatherKey].fields["lat"]
              && r.value.openWeatherCfg.long == d[OpenWeatherKey].fields["long"]
              && r.value.openWeatherCfg.apiKey == d[OpenWeatherKey].fields["api_key"]
              && r.value.googleCalendarCfg.calenderId == d[GoogleCalendarKey].fields["calender_id"]
              && r.value.version == d[VersionKey]
  {
    var weatherArgs :- Kwargs(d, OpenWeatherKey);
    var openWeather :- NewOpenWeatherCfg(weatherArgs);
    var calendarArgs :- Kwargs(d, GoogleCalendarKey);
    var googleCalendar :- NewGoogleCalendarCfg(calendarArgs);
    if VersionKey !in d then Failure(MissingKey(VersionKey))
    else Success(UserCfg(openWeather, googleCalendar, d[VersionKey]))
  }

  /** The dictionary a `UserCfg` is read from: its own fields under their declared names. */
  function ToDict(u: UserCfg): Blob {
    map[
      OpenWeatherKey := Obj(map["lat" := u.openWeatherCfg.lat, "long" := u.openWeatherCfg.long,
                                "api_key" := u.openWeatherCfg.apiKey]),
      GoogleCalendarKey := Obj(map["calender_id" := u.googleCalendarCfg.calenderId]),
      VersionKey := u.version]
  }

  /** Every record is decoded back from its own dictionary. */
  lemma FromDictToDict(u: UserCfg)
    ensures FromDict(ToDict(u)) == Success(u)
  {
  }

  /** A decoded dictionary is the record's dictionary, apart from top-level keys nobody reads. */
  lemma ToDictFromDict(d: Blob, u: UserCfg)
    requires FromDict(d) == Success(u)
    ensures ToDict(u) == map k | k in d && k in TopLevelKeys :: d[k]
  {
    var weather := d[OpenWeatherKey].fields;
    var calendar := d[GoogleCalendarKey].fields;
    assert weather == map["lat" := weather["lat"], "long" := weather["long"], "api_key" := weather["api_key"]];
    assert calendar == map["calender_id" := calendar["calender_id"]];
  }

  /** A top-level key outside the three read has no influence on the outcome. */
  lemma FromDictIgnoresExtraKeys(d: Blob, key: string, v: Value)
    requires key !in TopLevelKeys
    ensures FromDict(d[key := v]) == FromDict(d)
  {
  }

  /**
   * A missing top-level key makes decoding fail, and it is that key's KeyError
   * that is raised once everything read before it is well formed.
   */
  lemma MissingTopLevelKeyFails(d: Blob, key: string, supplied: Value)
    requires key in TopLevelKeys && key !in d
    ensures FromDict(d).Failure?
    ensures Decodable(d[key := supplied]) ==> FromDict(d) == Failure(MissingKey(key))
  {
  }

  /** A weather sub-dictionary with a wrong set of field names raises the constructor's TypeError. */
  lemma WrongWeatherFieldsFail(d: Blob)
    requires OpenWeatherKey in d && d[OpenWeatherKey].Obj?
    requires d[OpenWeatherKey].fields.Keys != OpenWeatherFields
    ensures FromDict(d) == Failure(
              if d[OpenWeatherKey].fields.Keys <= OpenWeatherFields then MissingField("OpenWeatherCfg")
              else UnexpectedField("OpenWeatherCfg"))
  {
  }

  function ExampleWeather(): map<string, Value> {
    map["lat" := Num(54.533), "long" := Num(54.423), "api_key" := Str("key")]
  }

  function ExampleCalendar(): map<string, Value> {
    map["calender_id" := Str("some_id")]
  }

  /** The dictionary of the module's `__main__` block. */
  function ExampleDict(): Blob {
    map[OpenWeatherKey := Obj(ExampleWeather()), GoogleCalendarKey := Obj(ExampleCalendar()), VersionKey := Str("0.0.1")]
  }

  /** The example decodes to exactly its own values, with no conversion. */
  lemma ExampleDecodes()
    ensures FromDict(ExampleDict()) == Success(UserCfg(
              OpenWeatherCfg(Num(54.533), Num(54.423), Str("key")),
              GoogleCalendarCfg(Str("some_id")),
              Str("0.0.1")))
  {
  }
}

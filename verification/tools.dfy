/**
 * The two LangChain tools: the closed-set weather lookup, the file writer,
 * and the argument schemas each is declared with.
 */
module Tools {
  import opened Wrappers
  import opened Text
  import opened Weather

  datatype FieldType = StrType

  /** A pydantic field: its name, type and description; a field without a default is required. */
  datatype Field = Field(name: string, typ: FieldType, description: string, required: bool)

  datatype ArgsModel = ArgsModel(title: string, fields: seq<Field>)

  const WeatherQuery: ArgsModel := ArgsModel("WeatherQuery", [Field("city", StrType, "城市名称", true)])

  const WriteQuery: ArgsModel := ArgsModel("WriteQuery", [Field("content", StrType, "需要写入文档的具体内容", true)])

  /** The names of the fields a caller must supply. */
  function RequiredNames(fields: seq<Field>): (names: seq<string>)
    ensures |names| <= |fields|
    ensures forall n :: n in names <==> exists i :: 0 <= i < |fields| && fields[i].required && fields[i].name == n
  {
    if fields == [] then []
    else
      var rest := RequiredNames(fields[1..]);
      assert forall i :: 1 <= i < |fields| ==> fields[i] == fields[1..][i - 1];
      if fields[0].required then [fields[0].name] + rest else rest
  }

  /** Each tool takes exactly one argument, a required string. */
  lemma SchemaShapes()
    ensures |WeatherQuery.fields| == 1 && WeatherQuery.fields[0].typ == StrType
    ensures RequiredNames(WeatherQuery.fields) == ["city"]
    ensures |WriteQuery.fields| == 1 && WriteQuery.fields[0].typ == StrType
    ensures RequiredNames(WriteQuery.fields) == ["content"]
  {
    assert WeatherQuery.fields[1..] == [];
    assert WriteQuery.fields[1..] == [];
  }

  const BeijingRecord: WeatherRecord := WeatherRecord(
    [Condition(801, "Clouds", "few clouds", "02d")],
    "stations", 1012, 52, 6000, 80, 23, 1671673146,
    Sys(1, 9246, "CN", 1671650426, 1671693807),
    28800, 1816670, "Beijing", 200)

  const ShanghaiRecord: WeatherRecord := WeatherRecord(
    [Condition(802, "Clouds", "scattered clouds", "03d")],
    "stations", 1010, 72, 5000, 150, 38, 1671673146,
    Sys(1, 9261, "CN", 1671650044, 1671692578),
    28800, 1796236, "Shanghai", 200)

  const CityNotFound: Outcome := NotFound("city_not_found", "城市未找到，请输入有效城市名称")

  /**
   * `get_weather`: the city is matched case-insensitively against exactly two
   * names; a match gives that city's record, anything else the error dict.
   */
  function GetWeather(city: string): (r: Outcome)
    ensures r.Found? <==> Lower(city) == "beijing" || Lower(city) == "shanghai"
    ensures r.Found? ==> Lower(r.record.name) == Lower(city)
    ensures r.Found? ==> r.record.cod == 200 && r.record.sys.country == "CN"
    ensures Lower(city) == "beijing" ==> r.record.id == 1816670
    ensures Lower(city) == "shanghai" ==> r.record.id == 1796236
    ensures r.NotFound? ==> r.error == "city_not_found" && r.message == "城市未找到，请输入有效城市名称"
  {
    CityNamesFold();
    if Lower(city) == "beijing" then Found(BeijingRecord)
    else if Lower(city) == "shanghai" then Found(ShanghaiRecord)
    else CityNotFound
  }

  /** Every input lands on exactly one of the three fixed answers. */
  lemma GetWeatherTotal(city: string)
    ensures GetWeather(city) in {Found(BeijingRecord), Found(ShanghaiRecord), CityNotFound}
    ensures BeijingRecord != ShanghaiRecord
  {
  }

  /** The answer depends on the lower-case form alone. */
  lemma GetWeatherOfLowerForm(city: string)
    ensures GetWeather(Lower(city)) == GetWeather(city)
  {
    LowerIdempotent(city);
  }

  /** "Beijing", "BEIJING", "bEiJiNg" and every other case mix find the Beijing record. */
  lemma BeijingAnyCase(city: string)
    requires |city| == 7
    requires forall i :: 0 <= i < 7 ==> city[i] == "beijing"[i] || city[i] == "BEIJING"[i]
    ensures GetWeather(city) == Found(BeijingRecord)
  {
    assert forall i :: 0 <= i < 7 ==> LowerChar(city[i]) == "beijing"[i];
    LowerEqualIff(city, "beijing");
    assert Lower("beijing") == "beijing";
  }

  const WriteConfirmation: string := "已成功写入本地文件。"

  /** The local file `res.txt`; None while it does not exist. */
  class ResultFile {
    var contents: Option<string>

    constructor (existing: Option<string>)
      ensures contents == existing
    {
      contents := existing;
    }

    /** `write_file`: open in mode 'w' (create or truncate), write `content`, confirm. */
    method WriteFile(content: string) returns (msg: string)
      modifies this
      ensures contents == Some(content)
      ensures msg == WriteConfirmation
    {
      contents := Some(content);
      msg := WriteConfirmation;
    }
  }

  /** Two writes in a row: the second one's content is all the file holds. */
  method WriteTwice(f: ResultFile, first: string, second: string) returns (m1: string, m2: string)
    modifies f
    ensures f.contents == Some(second)
    ensures m1 == m2 == WriteConfirmation
  {
    m1 := f.WriteFile(first);
    m2 := f.WriteFile(second);
  }
}

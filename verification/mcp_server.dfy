/**
 * The weather tool of the MCP server: a second copy of the closed-set
 * lookup, with its own literals.
 */
module McpServer {
  import opened Text
  import opened Weather
  import Tools

  const BeijingRecord: WeatherRecord := WeatherRecord(
    [Condition(801, "Clouds", "few clouds", "02d")],
    "stations", 1012, 52, 6000, 80, 23, 1671673146,
    Sys(1, 9246, "CN", 1671650426, 1671693807),
    28800, 1816670, "Beijing", 200)

  const ShanghaiRecord: WeatherRecord := WeatherRecord(
    [Condition(802, "Clouds", "scattered clouds", "03d")],
    "stations", 1010, 72, 5000, 150, 38, 1671673146,
    Sys(1, 9261, "CN", 1671650044, 1671692578),
    28800, 1796236, "Shanghai", 200)

  /** `get_weather` as the MCP tool serves it. */
  function GetWeather(city: string): (r: Outcome)
    ensures r.Found? <==> Lower(city) == "beijing" || Lower(city) == "shanghai"
    ensures r.Found? ==> Lower(r.record.name) == Lower(city) && r.record.cod == 200
    ensures r.NotFound? ==> r.error == "city_not_found" && r.message == "城市未找到，请输入有效城市名称"
  {
    CityNamesFold();
    if Lower(city) == "beijing" then Found(BeijingRecord)
    else if Lower(city) == "shanghai" then Found(ShanghaiRecord)
    else NotFound("city_not_found", "城市未找到，请输入有效城市名称")
  }

  /** The two successful answers differ in name and in id. */
  lemma RecordsDistinct()
    ensures BeijingRecord.name != ShanghaiRecord.name && BeijingRecord.id != ShanghaiRecord.id
  {
  }

  /** The server's copy and the LangChain tool give the same answer for every city. */
  lemma AgreesWithTool(city: string)
    ensures GetWeather(city) == Tools.GetWeather(city)
  {
  }

  /** Case variants of a city name get identical answers. */
  lemma CaseInsensitive(a: string, b: string)
    requires Lower(a) == Lower(b)
    ensures GetWeather(a) == GetWeather(b)
  {
  }
}

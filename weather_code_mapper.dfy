/** Open-Meteo WMO weather codes mapped to an OpenWeather-style icon code (a
    two-digit family and a day/night suffix) and to a Korean description. */
module WeatherCodeMapper {

  /** The description given to every code without a branch of its own. */
  const Unknown: string := "알 수 없음"

  /** The codes that have a branch of their own in both mappers. */
  const ListedCodes: set<int> :=
    {0, 1, 2, 3, 45, 48, 51, 53, 55, 56, 57, 61, 63, 65, 66, 67, 71, 73, 75, 77, 80, 81, 82, 85, 86, 95, 96, 99}

  /** The icon families the mapper can produce. */
  const IconFamilies: set<string> := {"01", "02", "03", "04", "09", "10", "11", "13", "50"}

  /** `mapWeatherCodeToIcon(code, isNight)`: always a family from `IconFamilies`
      followed by "n" at night and "d" by day; unlisted codes get family "01". */
  function MapWeatherCodeToIcon(code: int, isNight: bool): (icon: string)
    ensures |icon| == 3 && icon[..2] in IconFamilies
    ensures icon[2] == (if isNight then 'n' else 'd')
    ensures code !in ListedCodes ==> icon[..2] == "01"
  {
    var suffix := if isNight then "n" else "d";
    if code == 0 then "01" + suffix
    else if code == 1 then "02" + suffix
    else if code == 2 then "03" + suffix
    else if code == 3 then "04" + suffix
    else if code == 45 || code == 48 then "50" + suffix
    else if code == 51 || code == 53 || code == 55 then "09" + suffix
    else if code == 56 || code == 57 then "09" + suffix
    else if code == 61 || code == 63 || code == 65 then "10" + suffix
    else if code == 66 || code == 67 then "10" + suffix
    else if code == 71 || code == 73 || code == 75 then "13" + suffix
    else if code == 77 then "13" + suffix
    else if code == 80 || code == 81 || code == 82 then "09" + suffix
    else if code == 85 || code == 86 then "13" + suffix
    else if code == 95 then "11" + suffix
    else if code == 96 || code == 99 then "11" + suffix
    else "01" + suffix
  }

  /** `mapWeatherCodeToDescription(code)`: the "unknown" text exactly for the codes
      without a branch of their own, so both mappers fall back on the same codes. */
  function MapWeatherCodeToDescription(code: int): (d: string)
    ensures d == Unknown <==> code !in ListedCodes
  {
    if code == 0 then "맑음"
    else if code == 1 then "대체로 맑음"
    else if code == 2 then "부분적으로 흐림"
    else if code == 3 then "흐림"
    else if code == 45 then "안개"
    else if code == 48 then "서리 안개"
    else if code == 51 then "약한 이슬비"
    else if code == 53 then "이슬비"
    else if code == 55 then "강한 이슬비"
    else if code == 56 then "약한 어는 이슬비"
    else if code == 57 then "어는 이슬비"
    else if code == 61 then "약한 비"
    else if code == 63 then "비"
    else if code == 65 then "강한 비"
    else if code == 66 then "약한 어는 비"
    else if code == 67 then "어는 비"
    else if code == 71 then "약한 눈"
    else if code == 73 then "눈"
    else if code == 75 then "강한 눈"
    else if code == 77 then "싸락눈"
    else if code == 80 then "약한 소나기"
    else if code == 81 then "소나기"
    else if code == 82 then "강한 소나기"
    else if code == 85 then "약한 눈보라"
    else if code == 86 then "눈보라"
    else if code == 95 then "천둥번개"
    else if code == 96 then "약한 우박을 동반한 천둥번개"
    else if code == 99 then "우박을 동반한 천둥번개"
    else Unknown
  }

  /** The family a code's icon belongs to, as the WMO groups the codes. */
  function FamilyOf(code: int): string {
    if code == 1 then "02"
    else if code == 2 then "03"
    else if code == 3 then "04"
    else if code in {45, 48} then "50"
    else if code in {51, 53, 55, 56, 57, 80, 81, 82} then "09"
    else if code in {61, 63, 65, 66, 67} then "10"
    else if code in {71, 73, 75, 77, 85, 86} then "13"
    else if code in {95, 96, 99} then "11"
    else "01"
  }

  /** The icon family is the WMO group of the code: 0 to 3 give 01 to 04, fog 50,
      drizzle and rain showers 09, rain 10, snow 13, thunderstorms 11. */
  lemma IconFamilyIsGroup(code: int, isNight: bool)
    ensures MapWeatherCodeToIcon(code, isNight) == FamilyOf(code) + (if isNight then "n" else "d")
  {
  }

  /** Clear sky: code 0 is "맑음" and a day icon "01d", as for a clear noon. */
  lemma ClearSky()
    ensures MapWeatherCodeToDescription(0) == "맑음"
    ensures MapWeatherCodeToIcon(0, false) == "01d"
  {
  }
}

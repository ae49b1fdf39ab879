/** Weather Underground's icon-name table (`WeatherUndergroundProvider.mapConditionIconToCode`).
    The adapter never calls it (it reads `iconCode` numbers directly); it is kept as vendor data. */
module WuIcons {

  /** Whether the table lists an icon name. */
  predicate Listed(icon: string) {
    match icon
    case "tstorms" | "nt_tstorms" | "chancetstorms" | "nt_chancetstorms" | "chanceflurries"
      | "nt_chanceflurries" | "chancerain" | "nt_chancerain" | "chancesleet" | "nt_chancesleet"
      | "chancesnow" | "nt_chancesnow" | "rain" | "nt_rain" | "snow"
      | "nt_snow" | "sleet" | "fog" | "nt_fog" | "sunny"
      | "nt_sunny" | "hazy" | "nt_hazy" | "clear" | "nt_clear"
      | "mostlysunny" | "nt_mostlysunny" | "mostlycloudy" | "nt_mostlycloudy" | "partlycloudy"
      | "partlysunny" | "nt_partlycloudy" | "nt_partlysunny" | "cloudy" | "nt_cloudy"
      | "flurries" | "nt_flurries" => true
    case _ => false
  }

  /** The canonical condition code of a vendor icon name; -1 when the name is not listed. */
  function IconCode(icon: string): (code: int)
    ensures code == -1 <==> !Listed(icon)
    ensures Listed(icon) ==> 4 <= code <= 47
  {
    match icon
    case "tstorms" => 4
    case "nt_tstorms" => 45
    case "chancetstorms" => 37
    case "nt_chancetstorms" => 47
    case "chanceflurries" => 10
    case "nt_chanceflurries" => 13
    case "chancerain" => 40
    case "nt_chancerain" => 9
    case "chancesleet" => 5
    case "nt_chancesleet" => 8
    case "chancesnow" => 14
    case "nt_chancesnow" => 42
    case "rain" | "nt_rain" => 12
    case "snow" | "nt_snow" => 16
    case "sleet" => 18
    case "fog" => 19
    case "nt_fog" => 20
    case "sunny" => 32
    case "nt_sunny" => 33
    case "hazy" => 21
    case "nt_hazy" => 22
    case "clear" => 34
    case "nt_clear" => 31
    case "mostlysunny" => 34
    case "nt_mostlysunny" => 33
    case "mostlycloudy" => 28
    case "nt_mostlycloudy" => 27
    case "partlycloudy" | "partlysunny" => 30
    case "nt_partlycloudy" | "nt_partlysunny" => 29
    case "cloudy" => 26
    case "nt_cloudy" => 25
    case "flurries" | "nt_flurries" => 13
    case _ => -1
  }

  /** The fall-through groups give day and night twins one code. */
  lemma TwinsShareCode()
    ensures IconCode("rain") == IconCode("nt_rain") == 12
    ensures IconCode("snow") == IconCode("nt_snow") == 16
    ensures IconCode("flurries") == IconCode("nt_flurries") == 13
    ensures IconCode("partlycloudy") == IconCode("partlysunny") == 30
    ensures IconCode("nt_partlycloudy") == IconCode("nt_partlysunny") == 29
  {
  }
}

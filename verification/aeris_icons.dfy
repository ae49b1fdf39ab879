/** Aeris' icon-file table (`AerisWeatherProvider.mapConditionIconToCode`). Unlike the other
    vendor's table, an unlisted name yields 0, a code the table also gives to `blizzard.png`. */
module AerisIcons {

  /** Whether the table lists an icon file name. */
  predicate Listed(icon: string) {
    match icon
    case "blizzard.png" | "blizzardn.png" | "rainandsnow.png" | "rainandsnown.png" | "snowshowers.png"
      | "snowshowersn.png" | "sleetsnow.png" | "sleetsnown.png" | "smoke.png" | "smoken.png"
      | "blowingsnow.png" | "blowingsnown.png" | "clearw.png" | "clearwn.png" | "cloudy.png"
      | "cloudyn.png" | "cloudywn.png" | "cloudyw.png" | "cold.png" | "coldn.png"
      | "drizzle.png" | "drizzlef.png" | "raintosnow.png" | "raintosnown.png" | "rainw.png"
      | "showers.png" | "showersn.png" | "rain.png" | "rainn.png" | "flurriesw.png"
      | "flurrieswn.png" | "flurries.png" | "flurriesn.png" | "showersw.png" | "showerswn.png"
      | "sleet.png" | "sleetn.png" | "dust.png" | "dustn.png" | "fog.png"
      | "fogn.png" | "fdrizzle.png" | "fdrizzlen.png" | "wind.png" | "clearn.png"
      | "fairn.png" | "clear.png" | "fair.png" | "freezingrain.png" | "freezingrainn.png"
      | "drizzlen.png" | "hazy.png" | "hazyn.png" | "hot.png" | "mcloudy.png"
      | "mcloudys.png" | "mcloudysf.png" | "mcloudysfw.png" | "mcloudysw.png" | "mcloudyn.png"
      | "pcloudyswn.png" | "pcloudytwn.png" | "pcloudywn.png" | "pcloudytn.png" | "pcloudy.png"
      | "pcloudyrw.png" | "pcloudys.png" | "pcloudysf.png" | "pcloudysw.png" | "pcloudysfw.png"
      | "pcloudyr.png" | "mcloudyr.png" | "mcloudyrw.png" | "wintrymix.png" | "wintrymixn.png"
      | "mcloudyrn.png" | "mcloudyrwn.png" | "mcloudysfn.png" | "mcloudysfwn.png" | "mcloudysn.png"
      | "mcloudyswn.png" | "mcloudyt.png" | "mcloudytw.png" | "mcloudyw.png" | "pcloudyt.png"
      | "pcloudytw.png" | "pcloudyw.png" | "snowshowersw.png" | "snowshowerswn.png" | "snowtorain.png"
      | "snowtorainn.png" | "pcloudyn.png" | "pcloudyrn.png" | "pcloudyrwn.png" | "pcloudysfn.png"
      | "pcloudysfwn.png" | "pcloudysn.png" | "snown.png" | "mcloudytn.png" | "mcloudytwn.png"
      | "mcloudywn.png" | "snow.png" | "snoww.png" | "snowwn.png" | "sunnyn.png"
      | "sunnywn.png" | "sunnyw.png" | "sunny.png" | "tstorm.png" | "tstorms.png"
      | "tstormn.png" | "tstormsn.png" | "tstormswn.png" | "tstormsw.png" => true
    case _ => false
  }

  /** The canonical condition code of a vendor icon file name; 0 when the name is not listed. */
  function IconCode(icon: string): (code: int)
    ensures 0 <= code <= 47
    ensures !Listed(icon) ==> code == 0
    ensures code == 0 ==> !Listed(icon) || icon == "blizzard.png"
  {
    match icon
    case "blizzard.png" => 0
    case "blizzardn.png" => 1
    case "rainandsnow.png" | "rainandsnown.png" | "snowshowers.png" | "snowshowersn.png" => 5
    case "sleetsnow.png" => 6
    case "sleetsnown.png" => 7
    case "smoke.png" | "smoken.png" => 22
    case "blowingsnow.png" | "blowingsnown.png" => 15
    case "clearw.png" | "clearwn.png" => 24
    case "cloudy.png" | "cloudyn.png" | "cloudywn.png" => 26
    case "cloudyw.png" => 40
    case "cold.png" | "coldn.png" => 25
    case "drizzle.png" => 9
    case "drizzlef.png" => 8
    case "raintosnow.png" | "raintosnown.png" => 10
    case "rainw.png" | "showers.png" | "showersn.png" => 11
    case "rain.png" | "rainn.png" => 12
    case "flurriesw.png" | "flurrieswn.png" => 13
    case "flurries.png" | "flurriesn.png" => 14
    case "showersw.png" | "showerswn.png" => 17
    case "sleet.png" | "sleetn.png" => 18
    case "dust.png" | "dustn.png" => 19
    case "fog.png" | "fogn.png" => 20
    case "fdrizzle.png" | "fdrizzlen.png" => 23
    case "wind.png" => 24
    case "clearn.png" | "fairn.png" => 33
    case "clear.png" | "fair.png" => 34
    case "freezingrain.png" | "freezingrainn.png" => 35
    case "drizzlen.png" => 46
    case "hazy.png" | "hazyn.png" => 21
    case "hot.png" => 36
    case "mcloudy.png" | "mcloudys.png" | "mcloudysf.png" | "mcloudysfw.png" | "mcloudysw.png" => 28
    case "mcloudyn.png" | "pcloudyswn.png" | "pcloudytwn.png" | "pcloudywn.png" | "pcloudytn.png" => 29
    case "pcloudy.png" | "pcloudyrw.png" | "pcloudys.png" | "pcloudysf.png" | "pcloudysw.png"
      | "pcloudysfw.png" | "pcloudyr.png" => 30
    case "mcloudyr.png" | "mcloudyrw.png" => 40
    case "wintrymix.png" | "wintrymixn.png" => 41
    case "mcloudyrn.png" | "mcloudyrwn.png" | "mcloudysfn.png" | "mcloudysfwn.png" | "mcloudysn.png"
      | "mcloudyswn.png" => 27
    case "mcloudyt.png" | "mcloudytw.png" | "mcloudyw.png" => 37
    case "pcloudyt.png" | "pcloudytw.png" | "pcloudyw.png" => 38
    case "snowshowersw.png" | "snowshowerswn.png" => 42
    case "snowtorain.png" | "snowtorainn.png" => 43
    case "pcloudyn.png" | "pcloudyrn.png" | "pcloudyrwn.png" | "pcloudysfn.png" | "pcloudysfwn.png"
      | "pcloudysn.png" => 44
    case "snown.png" => 46
    case "mcloudytn.png" | "mcloudytwn.png" | "mcloudywn.png" => 47
    case "snow.png" => 16
    case "snoww.png" | "snowwn.png" => 15
    case "sunnyn.png" => 31
    case "sunnywn.png" => 33
    case "sunnyw.png" | "sunny.png" => 34
    case "tstorm.png" => 39
    case "tstorms.png" => 3
    case "tstormn.png" | "tstormsn.png" | "tstormswn.png" => 45
    case "tstormsw.png" => 4
    case _ => 0
  }

  /** Fall-through groups and codes shared by unrelated icons. */
  lemma SharedCodes()
    ensures IconCode("rainandsnow.png") == IconCode("rainandsnown.png") == 5
    ensures IconCode("snowshowers.png") == IconCode("snowshowersn.png") == 5
    ensures IconCode("clearw.png") == IconCode("clearwn.png") == IconCode("wind.png") == 24
    ensures IconCode("cloudyw.png") == IconCode("mcloudyr.png") == 40
  {
  }

  /** An unlisted name is indistinguishable by its code from a blizzard. */
  lemma UnknownLooksLikeBlizzard(icon: string)
    requires !Listed(icon)
    ensures IconCode(icon) == IconCode("blizzard.png")
  {
  }
}

/** The German translation tables for OpenWeatherMap condition texts and
    for the interface labels, and the two lookups that use them. A Python
    dict literal is modelled as its entries in insertion order. The tables
    are cut along their commented groups, and each group into pieces of a
    few entries; every fact about the literal entries is proved one key or
    one translation at a time, and the lookups themselves are proved for
    any table that has those facts. */
module WeatherTranslations {
  import opened Wrappers
  import opened PyText

  /** A translation dictionary as its entries in insertion order. */
  type Table = seq<(string, string)>

  /** `table.get(key)`: the value of the first entry with that key. */
  function Lookup(table: Table, key: string): (r: Option<string>)
    ensures r.Some? ==> (key, r.value) in table
    ensures r.None? <==> forall e :: e in table ==> e.0 != key
  {
    if table == [] then None
    else if table[0].0 == key then Some(table[0].1)
    else Lookup(table[1..], key)
  }

  /** A key whose every entry carries the same value finds that value. */
  lemma LookupUnique(table: Table, key: string, german: string)
    requires (key, german) in table
    requires forall e :: e in table && e.0 == key ==> e.1 == german
    ensures Lookup(table, key) == Some(german)
  {
  }

  /** The loop over `items()` that compares each `key.lower()` with the
      wanted key and returns the first value that matches. */
  function ScanLowered(table: Table, key: string): Option<string> {
    if table == [] then None
    else if Lower(table[0].0) == key then Some(table[0].1)
    else ScanLowered(table[1..], key)
  }

  predicate LowercaseKeys(table: Table) {
    forall e :: e in table ==> NoUpper(e.0)
  }

  /** In a table whose keys are written in lower case the scan finds
      exactly what the direct lookup finds. */
  lemma {:induction false} ScanMatchesLookup(table: Table, key: string)
    requires LowercaseKeys(table)
    ensures ScanLowered(table, key) == Lookup(table, key)
  {
    if table != [] {
      LowerOfLowercase(table[0].0);
      assert LowercaseKeys(table[1..]) by {
        forall e | e in table[1..] ensures NoUpper(e.0) {
          assert e in table;
        }
      }
      ScanMatchesLookup(table[1..], key);
    }
  }

  /** The key both lookups normalise their argument to: `s.lower().strip()`. */
  function MatchKey(s: string): string {
    Strip(Lower(s))
  }

  lemma MatchKeyOfTrimmed(s: string)
    requires Trimmed(Lower(s))
    ensures MatchKey(s) == Lower(s)
  {
  }

  /** A table whose every translation, looked up again, either misses
      (its lower-cased form is in `lowered`, a set no key belongs to) or
      finds itself. */
  predicate Settled(table: Table, lowered: set<string>) {
    && (forall e :: e in table ==> e.0 !in lowered)
    && (forall e :: e in table ==>
          e.1 != "" && Trimmed(Lower(e.1))
          && (Lower(e.1) in lowered || Lookup(table, Lower(e.1)) == Some(e.1)))
  }

  /** What each key of a table is checked for: written in lower case and
      not in `lowered`. */
  predicate KeyFits(lowered: set<string>, key: string) {
    NoUpper(key) && key !in lowered
  }

  /** What each translation of a table is checked for: non-empty, its
      lower-cased form without surrounding whitespace, and that form in
      `lowered` unless the translation is one of the `fixed` ones. */
  predicate ValueFits(lowered: set<string>, fixed: map<string, string>, german: string) {
    german != "" && Trimmed(Lower(german)) && (Lower(german) in lowered || german in fixed)
  }

  /** Each `fixed` translation lowers to the form the map gives ... */
  predicate FixedLowered(fixed: map<string, string>) {
    forall v :: v in fixed ==> Lower(v) == fixed[v]
  }

  /** ... and is stored under that key. */
  predicate FixedStored(table: Table, fixed: map<string, string>) {
    forall v :: v in fixed ==> Lookup(table, fixed[v]) == Some(v)
  }

  /** Entry-by-entry checks establish that a table is `Settled`. */
  lemma SettledIntro(table: Table, lowered: set<string>, fixed: map<string, string>)
    requires forall e :: e in table ==> KeyFits(lowered, e.0)
    requires forall e :: e in table ==> ValueFits(lowered, fixed, e.1)
    requires FixedLowered(fixed) && FixedStored(table, fixed)
    ensures LowercaseKeys(table) && Settled(table, lowered)
  {
  }

  // ---------------------------------------------------------------------
  // The two lookups, for any table

  /** `translate_weather_description` against `table`: an empty text comes
      back as it is; otherwise the lower-cased, stripped text is looked up,
      then compared with every lower-cased key, and the original text is
      returned when neither finds it. */
  function DescriptionIn(table: Table, description: string): string {
    if description == "" then description
    else
      var key := MatchKey(description);
      match Lookup(table, key)
      case Some(german) => german
      case None =>
        match ScanLowered(table, key)
        case Some(german) => german
        case None => description
  }

  /** `translate_ui_text` against `table`: the same without the scan. */
  function LabelIn(table: Table, text: string): string {
    if text == "" then text
    else
      match Lookup(table, MatchKey(text))
      case Some(german) => german
      case None => text
  }

  lemma DescriptionInKnown(table: Table, description: string, german: string)
    requires description != ""
    requires (MatchKey(description), german) in table
    ensures (MatchKey(description), DescriptionIn(table, description)) in table
    ensures Lookup(table, MatchKey(description)) == Some(DescriptionIn(table, description))
  {
  }

  lemma DescriptionInUnknown(table: Table, description: string)
    requires LowercaseKeys(table)
    requires description == "" || forall e :: e in table ==> e.0 != MatchKey(description)
    ensures DescriptionIn(table, description) == description
  {
    ScanMatchesLookup(table, MatchKey(description));
  }

  lemma DescriptionInIdempotent(table: Table, lowered: set<string>, description: string)
    requires LowercaseKeys(table) && Settled(table, lowered)
    ensures DescriptionIn(table, DescriptionIn(table, description)) == DescriptionIn(table, description)
  {
    var key := MatchKey(description);
    ScanMatchesLookup(table, key);
    if description != "" && Lookup(table, key).Some? {
      var r := Lookup(table, key).value;
      assert (key, r) in table;
      MatchKeyOfTrimmed(r);
      ScanMatchesLookup(table, Lower(r));
    }
  }

  lemma LabelInKnown(table: Table, text: string, german: string)
    requires text != ""
    requires (MatchKey(text), german) in table
    ensures (MatchKey(text), LabelIn(table, text)) in table
    ensures Lookup(table, MatchKey(text)) == Some(LabelIn(table, text))
  {
  }

  lemma LabelInUnknown(table: Table, text: string)
    requires text == "" || forall e :: e in table ==> e.0 != MatchKey(text)
    ensures LabelIn(table, text) == text
  {
  }

  lemma LabelInIdempotent(table: Table, lowered: set<string>, text: string)
    requires Settled(table, lowered)
    ensures LabelIn(table, LabelIn(table, text)) == LabelIn(table, text)
  {
    var key := MatchKey(text);
    if text != "" && Lookup(table, key).Some? {
      var r := Lookup(table, key).value;
      assert (key, r) in table;
      MatchKeyOfTrimmed(r);
    }
  }

  // ---------------------------------------------------------------------
  // WEATHER_TRANSLATIONS

  /** Lower-cased forms of the weather translations other than "Sand" and
      "Tornado", the two whose lower-cased form is itself a key. */
  const LoweredWeatherValues: set<string> :=
    {"asche", "bedeckt", "bewölkt", "böen", "dunst", "eisregen", "gewitter", "heiß",
     "k.a.", "kalt", "kein wetter", "keine daten", "keine vorhersage", "klar",
     "leicht bewölkt", "nass", "nebel", "nieselregen", "rauch", "regen", "schauer",
     "schnee", "schneematsch", "schneeschauer", "schwül", "sonnig", "stark bewölkt",
     "starke schauer", "starker schnee", "starkregen", "staub", "stürmisch",
     "teilweise bewölkt", "trocken", "unbekannt", "windig"}

  /** The weather translations stored under their own lower-cased form,
      with that form. */
  const FixedWeatherValues: map<string, string> := map["Sand" := "sand", "Tornado" := "tornado"]

  predicate WeatherFixedPoint(e: (string, string)) {
    (e.0 == "sand" ==> e.1 == "Sand") && (e.0 == "tornado" ==> e.1 == "Tornado")
  }

  lemma WeatherAscheFits() ensures ValueFits(LoweredWeatherValues, FixedWeatherValues, "Asche") { assert Lower("Asche") == "asche"; }
  lemma WeatherBedecktFits() ensures ValueFits(LoweredWeatherValues, FixedWeatherValues, "Bedeckt") { assert Lower("Bedeckt") == "bedeckt"; }
  lemma WeatherBewoelktFits() ensures ValueFits(LoweredWeatherValues, FixedWeatherValues, "Bewölkt") { assert Lower("Bewölkt") == "bewölkt"; }
  lemma WeatherBoeenFits() ensures ValueFits(LoweredWeatherValues, FixedWeatherValues, "Böen") { assert Lower("Böen") == "böen"; }
  lemma WeatherDunstFits() ensures ValueFits(LoweredWeatherValues, FixedWeatherValues, "Dunst") { assert Lower("Dunst") == "dunst"; }
  lemma WeatherEisregenFits() ensures ValueFits(LoweredWeatherValues, FixedWeatherValues, "Eisregen") { assert Lower("Eisregen") == "eisregen"; }
  lemma WeatherGewitterFits() ensures ValueFits(LoweredWeatherValues, FixedWeatherValues, "Gewitter") { assert Lower("Gewitter") == "gewitter"; }
  lemma WeatherHeissFits() ensures ValueFits(LoweredWeatherValues, FixedWeatherValues, "Heiß") { assert Lower("Heiß") == "heiß"; }
  lemma WeatherKAFits() ensures ValueFits(LoweredWeatherValues, FixedWeatherValues, "k.A.") { assert Lower("k.A.") == "k.a."; }
  lemma WeatherKaltFits() ensures ValueFits(LoweredWeatherValues, FixedWeatherValues, "Kalt") { assert Lower("Kalt") == "kalt"; }
  lemma WeatherKeinWetterFits() ensures ValueFits(LoweredWeatherValues, FixedWeatherValues, "Kein Wetter") { assert Lower("Kein Wetter") == "kein wetter"; }
  lemma WeatherKeineDatenFits() ensures ValueFits(LoweredWeatherValues, FixedWeatherValues, "Keine Daten") { assert Lower("Keine Daten") == "keine daten"; }
  lemma WeatherKeineVorhersageFits() ensures ValueFits(LoweredWeatherValues, FixedWeatherValues, "Keine Vorhersage") { assert Lower("Keine Vorhersage") == "keine vorhersage"; }
  lemma WeatherKlarFits() ensures ValueFits(LoweredWeatherValues, FixedWeatherValues, "Klar") { assert Lower("Klar") == "klar"; }
  lemma WeatherLeichtBewoelktFits() ensures ValueFits(LoweredWeatherValues, FixedWeatherValues, "Leicht bewölkt") { assert Lower("Leicht bewölkt") == "leicht bewölkt"; }
  lemma WeatherNassFits() ensures ValueFits(LoweredWeatherValues, FixedWeatherValues, "Nass") { assert Lower("Nass") == "nass"; }
  lemma WeatherNebelFits() ensures ValueFits(LoweredWeatherValues, FixedWeatherValues, "Nebel") { assert Lower("Nebel") == "nebel"; }
  lemma WeatherNieselregenFits() ensures ValueFits(LoweredWeatherValues, FixedWeatherValues, "Nieselregen") { assert Lower("Nieselregen") == "nieselregen"; }
  lemma WeatherRauchFits() ensures ValueFits(LoweredWeatherValues, FixedWeatherValues, "Rauch") { assert Lower("Rauch") == "rauch"; }
  lemma WeatherRegenFits() ensures ValueFits(LoweredWeatherValues, FixedWeatherValues, "Regen") { assert Lower("Regen") == "regen"; }
  lemma WeatherSandFits() ensures ValueFits(LoweredWeatherValues, FixedWeatherValues, "Sand") { assert Lower("Sand") == "sand"; }
  lemma WeatherSchauerFits() ensures ValueFits(LoweredWeatherValues, FixedWeatherValues, "Schauer") { assert Lower("Schauer") == "schauer"; }
  lemma WeatherSchneeFits() ensures ValueFits(LoweredWeatherValues, FixedWeatherValues, "Schnee") { assert Lower("Schnee") == "schnee"; }
  lemma WeatherSchneematschFits() ensures ValueFits(LoweredWeatherValues, FixedWeatherValues, "Schneematsch") { assert Lower("Schneematsch") == "schneematsch"; }
  lemma WeatherSchneeschauerFits() ensures ValueFits(LoweredWeatherValues, FixedWeatherValues, "Schneeschauer") { assert Lower("Schneeschauer") == "schneeschauer"; }
  lemma WeatherSchwuelFits() ensures ValueFits(LoweredWeatherValues, FixedWeatherValues, "Schwül") { assert Lower("Schwül") == "schwül"; }
  lemma WeatherSonnigFits() ensures ValueFits(LoweredWeatherValues, FixedWeatherValues, "Sonnig") { assert Lower("Sonnig") == "sonnig"; }
  lemma WeatherStarkBewoelktFits() ensures ValueFits(LoweredWeatherValues, FixedWeatherValues, "Stark bewölkt") { assert Lower("Stark bewölkt") == "stark bewölkt"; }
  lemma WeatherStarkeSchauerFits() ensures ValueFits(LoweredWeatherValues, FixedWeatherValues, "Starke Schauer") { assert Lower("Starke Schauer") == "starke schauer"; }
  lemma WeatherStarkerSchneeFits() ensures ValueFits(LoweredWeatherValues, FixedWeatherValues, "Starker Schnee") { assert Lower("Starker Schnee") == "starker schnee"; }
  lemma WeatherStarkregenFits() ensures ValueFits(LoweredWeatherValues, FixedWeatherValues, "Starkregen") { assert Lower("Starkregen") == "starkregen"; }
  lemma WeatherStaubFits() ensures ValueFits(LoweredWeatherValues, FixedWeatherValues, "Staub") { assert Lower("Staub") == "staub"; }
  lemma WeatherStuermischFits() ensures ValueFits(LoweredWeatherValues, FixedWeatherValues, "Stürmisch") { assert Lower("Stürmisch") == "stürmisch"; }
  lemma WeatherTeilweiseBewoelktFits() ensures ValueFits(LoweredWeatherValues, FixedWeatherValues, "Teilweise bewölkt") { assert Lower("Teilweise bewölkt") == "teilweise bewölkt"; }
  lemma WeatherTornadoFits() ensures ValueFits(LoweredWeatherValues, FixedWeatherValues, "Tornado") { assert Lower("Tornado") == "tornado"; }
  lemma WeatherTrockenFits() ensures ValueFits(LoweredWeatherValues, FixedWeatherValues, "Trocken") { assert Lower("Trocken") == "trocken"; }
  lemma WeatherUnbekanntFits() ensures ValueFits(LoweredWeatherValues, FixedWeatherValues, "Unbekannt") { assert Lower("Unbekannt") == "unbekannt"; }
  lemma WeatherWindigFits() ensures ValueFits(LoweredWeatherValues, FixedWeatherValues, "Windig") { assert Lower("Windig") == "windig"; }

  /** Thunderstorm group (2xx), part 1 of 5. */
  const Thunderstorm1: Table := [
    ("thunderstorm with light rain", "Gewitter"),
    ("thunderstorm with rain", "Gewitter")]

  lemma Thunderstorm1Key0() ensures KeyFits(LoweredWeatherValues, "thunderstorm with light rain") {}
  lemma Thunderstorm1Key1() ensures KeyFits(LoweredWeatherValues, "thunderstorm with rain") {}
  lemma Thunderstorm1Keys() ensures forall e :: e in Thunderstorm1 ==> KeyFits(LoweredWeatherValues, e.0) { Thunderstorm1Key0(); Thunderstorm1Key1(); }
  lemma Thunderstorm1Values() ensures forall e :: e in Thunderstorm1 ==> ValueFits(LoweredWeatherValues, FixedWeatherValues, e.1) { WeatherGewitterFits(); }

  /** Thunderstorm group (2xx), part 2 of 5. */
  const Thunderstorm2: Table := [
    ("thunderstorm with heavy rain", "Gewitter"),
    ("light thunderstorm", "Gewitter")]

  lemma Thunderstorm2Key0() ensures KeyFits(LoweredWeatherValues, "thunderstorm with heavy rain") {}
  lemma Thunderstorm2Key1() ensures KeyFits(LoweredWeatherValues, "light thunderstorm") {}
  lemma Thunderstorm2Keys() ensures forall e :: e in Thunderstorm2 ==> KeyFits(LoweredWeatherValues, e.0) { Thunderstorm2Key0(); Thunderstorm2Key1(); }
  lemma Thunderstorm2Values() ensures forall e :: e in Thunderstorm2 ==> ValueFits(LoweredWeatherValues, FixedWeatherValues, e.1) { WeatherGewitterFits(); }

  /** Thunderstorm group (2xx), part 3 of 5. */
  const Thunderstorm3: Table := [
    ("thunderstorm", "Gewitter"),
    ("heavy thunderstorm", "Gewitter")]

  lemma Thunderstorm3Key0() ensures KeyFits(LoweredWeatherValues, "thunderstorm") {}
  lemma Thunderstorm3Key1() ensures KeyFits(LoweredWeatherValues, "heavy thunderstorm") {}
  lemma Thunderstorm3Keys() ensures forall e :: e in Thunderstorm3 ==> KeyFits(LoweredWeatherValues, e.0) { Thunderstorm3Key0(); Thunderstorm3Key1(); }
  lemma Thunderstorm3Values() ensures forall e :: e in Thunderstorm3 ==> ValueFits(LoweredWeatherValues, FixedWeatherValues, e.1) { WeatherGewitterFits(); }

  /** Thunderstorm group (2xx), part 4 of 5. */
  const Thunderstorm4: Table := [
    ("ragged thunderstorm", "Gewitter"),
    ("thunderstorm with light drizzle", "Gewitter")]

  lemma Thunderstorm4Key0() ensures KeyFits(LoweredWeatherValues, "ragged thunderstorm") {}
  lemma Thunderstorm4Key1() ensures KeyFits(LoweredWeatherValues, "thunderstorm with light drizzle") {}
  lemma Thunderstorm4Keys() ensures forall e :: e in Thunderstorm4 ==> KeyFits(LoweredWeatherValues, e.0) { Thunderstorm4Key0(); Thunderstorm4Key1(); }
  lemma Thunderstorm4Values() ensures forall e :: e in Thunderstorm4 ==> ValueFits(LoweredWeatherValues, FixedWeatherValues, e.1) { WeatherGewitterFits(); }

  /** Thunderstorm group (2xx), part 5 of 5. */
  const Thunderstorm5: Table := [
    ("thunderstorm with drizzle", "Gewitter"),
    ("thunderstorm with heavy drizzle", "Gewitter")]

  lemma Thunderstorm5Key0() ensures KeyFits(LoweredWeatherValues, "thunderstorm with drizzle") {}
  lemma Thunderstorm5Key1() ensures KeyFits(LoweredWeatherValues, "thunderstorm with heavy drizzle") {}
  lemma Thunderstorm5Keys() ensures forall e :: e in Thunderstorm5 ==> KeyFits(LoweredWeatherValues, e.0) { Thunderstorm5Key0(); Thunderstorm5Key1(); }
  lemma Thunderstorm5Values() ensures forall e :: e in Thunderstorm5 ==> ValueFits(LoweredWeatherValues, FixedWeatherValues, e.1) { WeatherGewitterFits(); }

  /** Thunderstorm group (2xx). */
  const Thunderstorm: Table := Thunderstorm1 + Thunderstorm2 + Thunderstorm3 + Thunderstorm4 + Thunderstorm5

  lemma ThunderstormKeys() ensures forall e :: e in Thunderstorm ==> KeyFits(LoweredWeatherValues, e.0) { Thunderstorm1Keys(); Thunderstorm2Keys(); Thunderstorm3Keys(); Thunderstorm4Keys(); Thunderstorm5Keys(); }
  lemma ThunderstormValues() ensures forall e :: e in Thunderstorm ==> ValueFits(LoweredWeatherValues, FixedWeatherValues, e.1) { Thunderstorm1Values(); Thunderstorm2Values(); Thunderstorm3Values(); Thunderstorm4Values(); Thunderstorm5Values(); }
  lemma ThunderstormFixedPoints() ensures forall e :: e in Thunderstorm ==> WeatherFixedPoint(e) {}

  /** Drizzle group (3xx), part 1 of 5. */
  const Drizzle1: Table := [
    ("light intensity drizzle", "Nieselregen"),
    ("drizzle", "Nieselregen")]

  lemma Drizzle1Key0() ensures KeyFits(LoweredWeatherValues, "light intensity drizzle") {}
  lemma Drizzle1Key1() ensures KeyFits(LoweredWeatherValues, "drizzle") {}
  lemma Drizzle1Keys() ensures forall e :: e in Drizzle1 ==> KeyFits(LoweredWeatherValues, e.0) { Drizzle1Key0(); Drizzle1Key1(); }
  lemma Drizzle1Values() ensures forall e :: e in Drizzle1 ==> ValueFits(LoweredWeatherValues, FixedWeatherValues, e.1) { WeatherNieselregenFits(); }

  /** Drizzle group (3xx), part 2 of 5. */
  const Drizzle2: Table := [
    ("heavy intensity drizzle", "Nieselregen"),
    ("light intensity drizzle rain", "Nieselregen")]

  lemma Drizzle2Key0() ensures KeyFits(LoweredWeatherValues, "heavy intensity drizzle") {}
  lemma Drizzle2Key1() ensures KeyFits(LoweredWeatherValues, "light intensity drizzle rain") {}
  lemma Drizzle2Keys() ensures forall e :: e in Drizzle2 ==> KeyFits(LoweredWeatherValues, e.0) { Drizzle2Key0(); Drizzle2Key1(); }
  lemma Drizzle2Values() ensures forall e :: e in Drizzle2 ==> ValueFits(LoweredWeatherValues, FixedWeatherValues, e.1) { WeatherNieselregenFits(); }

  /** Drizzle group (3xx), part 3 of 5. */
  const Drizzle3: Table := [
    ("drizzle rain", "Nieselregen"),
    ("heavy intensity drizzle rain", "Nieselregen")]

  lemma Drizzle3Key0() ensures KeyFits(LoweredWeatherValues, "drizzle rain") {}
  lemma Drizzle3Key1() ensures KeyFits(LoweredWeatherValues, "heavy intensity drizzle rain") {}
  lemma Drizzle3Keys() ensures forall e :: e in Drizzle3 ==> KeyFits(LoweredWeatherValues, e.0) { Drizzle3Key0(); Drizzle3Key1(); }
  lemma Drizzle3Values() ensures forall e :: e in Drizzle3 ==> ValueFits(LoweredWeatherValues, FixedWeatherValues, e.1) { WeatherNieselregenFits(); }

  /** Drizzle group (3xx), part 4 of 5. */
  const Drizzle4: Table := [
    ("shower rain and drizzle", "Nieselregen"),
    ("heavy shower rain and drizzle", "Nieselregen")]

  lemma Drizzle4Key0() ensures KeyFits(LoweredWeatherValues, "shower rain and drizzle") {}
  lemma Drizzle4Key1() ensures KeyFits(LoweredWeatherValues, "heavy shower rain and drizzle") {}
  lemma Drizzle4Keys() ensures forall e :: e in Drizzle4 ==> KeyFits(LoweredWeatherValues, e.0) { Drizzle4Key0(); Drizzle4Key1(); }
  lemma Drizzle4Values() ensures forall e :: e in Drizzle4 ==> ValueFits(LoweredWeatherValues, FixedWeatherValues, e.1) { WeatherNieselregenFits(); }

  /** Drizzle group (3xx), part 5 of 5. */
  const Drizzle5: Table := [
    ("shower drizzle", "Nieselregen")]

  lemma Drizzle5Key0() ensures KeyFits(LoweredWeatherValues, "shower drizzle") {}
  lemma Drizzle5Keys() ensures forall e :: e in Drizzle5 ==> KeyFits(LoweredWeatherValues, e.0) { Drizzle5Key0(); }
  lemma Drizzle5Values() ensures forall e :: e in Drizzle5 ==> ValueFits(LoweredWeatherValues, FixedWeatherValues, e.1) { WeatherNieselregenFits(); }

  /** Drizzle group (3xx). */
  const Drizzle: Table := Drizzle1 + Drizzle2 + Drizzle3 + Drizzle4 + Drizzle5

  lemma DrizzleKeys() ensures forall e :: e in Drizzle ==> KeyFits(LoweredWeatherValues, e.0) { Drizzle1Keys(); Drizzle2Keys(); Drizzle3Keys(); Drizzle4Keys(); Drizzle5Keys(); }
  lemma DrizzleValues() ensures forall e :: e in Drizzle ==> ValueFits(LoweredWeatherValues, FixedWeatherValues, e.1) { Drizzle1Values(); Drizzle2Values(); Drizzle3Values(); Drizzle4Values(); Drizzle5Values(); }
  lemma DrizzleFixedPoints() ensures forall e :: e in Drizzle ==> WeatherFixedPoint(e) {}

  /** Rain group (5xx), part 1 of 5. */
  const Rain1: Table := [
    ("light rain", "Regen"),
    ("moderate rain", "Regen")]

  lemma Rain1Key0() ensures KeyFits(LoweredWeatherValues, "light rain") {}
  lemma Rain1Key1() ensures KeyFits(LoweredWeatherValues, "moderate rain") {}
  lemma Rain1Keys() ensures forall e :: e in Rain1 ==> KeyFits(LoweredWeatherValues, e.0) { Rain1Key0(); Rain1Key1(); }
  lemma Rain1Values() ensures forall e :: e in Rain1 ==> ValueFits(LoweredWeatherValues, FixedWeatherValues, e.1) { WeatherRegenFits(); }

  /** Rain group (5xx), part 2 of 5. */
  const Rain2: Table := [
    ("heavy intensity rain", "Starkregen"),
    ("very heavy rain", "Starkregen")]

  lemma Rain2Key0() ensures KeyFits(LoweredWeatherValues, "heavy intensity rain") {}
  lemma Rain2Key1() ensures KeyFits(LoweredWeatherValues, "very heavy rain") {}
  lemma Rain2Keys() ensures forall e :: e in Rain2 ==> KeyFits(LoweredWeatherValues, e.0) { Rain2Key0(); Rain2Key1(); }
  lemma Rain2Values() ensures forall e :: e in Rain2 ==> ValueFits(LoweredWeatherValues, FixedWeatherValues, e.1) { WeatherStarkregenFits(); }

  /** Rain group (5xx), part 3 of 5. */
  const Rain3: Table := [
    ("extreme rain", "Starkregen"),
    ("freezing rain", "Eisregen")]

  lemma Rain3Key0() ensures KeyFits(LoweredWeatherValues, "extreme rain") {}
  lemma Rain3Key1() ensures KeyFits(LoweredWeatherValues, "freezing rain") {}
  lemma Rain3Keys() ensures forall e :: e in Rain3 ==> KeyFits(LoweredWeatherValues, e.0) { Rain3Key0(); Rain3Key1(); }
  lemma Rain3Values() ensures forall e :: e in Rain3 ==> ValueFits(LoweredWeatherValues, FixedWeatherValues, e.1) { WeatherEisregenFits(); WeatherStarkregenFits(); }

  /** Rain group (5xx), part 4 of 5. */
  const Rain4: Table := [
    ("light intensity shower rain", "Schauer"),
    ("shower rain", "Schauer")]

  lemma Rain4Key0() ensures KeyFits(LoweredWeatherValues, "light intensity shower rain") {}
  lemma Rain4Key1() ensures KeyFits(LoweredWeatherValues, "shower rain") {}
  lemma Rain4Keys() ensures forall e :: e in Rain4 ==> KeyFits(LoweredWeatherValues, e.0) { Rain4Key0(); Rain4Key1(); }
  lemma Rain4Values() ensures forall e :: e in Rain4 ==> ValueFits(LoweredWeatherValues, FixedWeatherValues, e.1) { WeatherSchauerFits(); }

  /** Rain group (5xx), part 5 of 5. */
  const Rain5: Table := [
    ("heavy intensity shower rain", "Starke Schauer"),
    ("ragged shower rain", "Schauer")]

  lemma Rain5Key0() ensures KeyFits(LoweredWeatherValues, "heavy intensity shower rain") {}
  lemma Rain5Key1() ensures KeyFits(LoweredWeatherValues, "ragged shower rain") {}
  lemma Rain5Keys() ensures forall e :: e in Rain5 ==> KeyFits(LoweredWeatherValues, e.0) { Rain5Key0(); Rain5Key1(); }
  lemma Rain5Values() ensures forall e :: e in Rain5 ==> ValueFits(LoweredWeatherValues, FixedWeatherValues, e.1) { WeatherSchauerFits(); WeatherStarkeSchauerFits(); }

  /** Rain group (5xx). */
  const Rain: Table := Rain1 + Rain2 + Rain3 + Rain4 + Rain5

  lemma RainKeys() ensures forall e :: e in Rain ==> KeyFits(LoweredWeatherValues, e.0) { Rain1Keys(); Rain2Keys(); Rain3Keys(); Rain4Keys(); Rain5Keys(); }
  lemma RainValues() ensures forall e :: e in Rain ==> ValueFits(LoweredWeatherValues, FixedWeatherValues, e.1) { Rain1Values(); Rain2Values(); Rain3Values(); Rain4Values(); Rain5Values(); }
  lemma RainFixedPoints() ensures forall e :: e in Rain ==> WeatherFixedPoint(e) {}

  /** Snow group (6xx), part 1 of 6. */
  const Snow1: Table := [
    ("light snow", "Schnee"),
    ("snow", "Schnee")]

  lemma Snow1Key0() ensures KeyFits(LoweredWeatherValues, "light snow") {}
  lemma Snow1Key1() ensures KeyFits(LoweredWeatherValues, "snow") {}
  lemma Snow1Keys() ensures forall e :: e in Snow1 ==> KeyFits(LoweredWeatherValues, e.0) { Snow1Key0(); Snow1Key1(); }
  lemma Snow1Values() ensures forall e :: e in Snow1 ==> ValueFits(LoweredWeatherValues, FixedWeatherValues, e.1) { WeatherSchneeFits(); }

  /** Snow group (6xx), part 2 of 6. */
  const Snow2: Table := [
    ("heavy snow", "Starker Schnee"),
    ("sleet", "Schneematsch")]

  lemma Snow2Key0() ensures KeyFits(LoweredWeatherValues, "heavy snow") {}
  lemma Snow2Key1() ensures KeyFits(LoweredWeatherValues, "sleet") {}
  lemma Snow2Keys() ensures forall e :: e in Snow2 ==> KeyFits(LoweredWeatherValues, e.0) { Snow2Key0(); Snow2Key1(); }
  lemma Snow2Values() ensures forall e :: e in Snow2 ==> ValueFits(LoweredWeatherValues, FixedWeatherValues, e.1) { WeatherSchneematschFits(); WeatherStarkerSchneeFits(); }

  /** Snow group (6xx), part 3 of 6. */
  const Snow3: Table := [
    ("light shower sleet", "Schneematsch"),
    ("shower sleet", "Schneematsch")]

  lemma Snow3Key0() ensures KeyFits(LoweredWeatherValues, "light shower sleet") {}
  lemma Snow3Key1() ensures KeyFits(LoweredWeatherValues, "shower sleet") {}
  lemma Snow3Keys() ensures forall e :: e in Snow3 ==> KeyFits(LoweredWeatherValues, e.0) { Snow3Key0(); Snow3Key1(); }
  lemma Snow3Values() ensures forall e :: e in Snow3 ==> ValueFits(LoweredWeatherValues, FixedWeatherValues, e.1) { WeatherSchneematschFits(); }

  /** Snow group (6xx), part 4 of 6. */
  const Snow4: Table := [
    ("light rain and snow", "Schneematsch"),
    ("rain and snow", "Schneematsch")]

  lemma Snow4Key0() ensures KeyFits(LoweredWeatherValues, "light rain and snow") {}
  lemma Snow4Key1() ensures KeyFits(LoweredWeatherValues, "rain and snow") {}
  lemma Snow4Keys() ensures forall e :: e in Snow4 ==> KeyFits(LoweredWeatherValues, e.0) { Snow4Key0(); Snow4Key1(); }
  lemma Snow4Values() ensures forall e :: e in Snow4 ==> ValueFits(LoweredWeatherValues, FixedWeatherValues, e.1) { WeatherSchneematschFits(); }

  /** Snow group (6xx), part 5 of 6. */
  const Snow5: Table := [
    ("light shower snow", "Schneeschauer"),
    ("shower snow", "Schneeschauer")]

  lemma Snow5Key0() ensures KeyFits(LoweredWeatherValues, "light shower snow") {}
  lemma Snow5Key1() ensures KeyFits(LoweredWeatherValues, "shower snow") {}
  lemma Snow5Keys() ensures forall e :: e in Snow5 ==> KeyFits(LoweredWeatherValues, e.0) { Snow5Key0(); Snow5Key1(); }
  lemma Snow5Values() ensures forall e :: e in Snow5 ==> ValueFits(LoweredWeatherValues, FixedWeatherValues, e.1) { WeatherSchneeschauerFits(); }

  /** Snow group (6xx), part 6 of 6. */
  const Snow6: Table := [
    ("heavy shower snow", "Schneeschauer")]

  lemma Snow6Key0() ensures KeyFits(LoweredWeatherValues, "heavy shower snow") {}
  lemma Snow6Keys() ensures forall e :: e in Snow6 ==> KeyFits(LoweredWeatherValues, e.0) { Snow6Key0(); }
  lemma Snow6Values() ensures forall e :: e in Snow6 ==> ValueFits(LoweredWeatherValues, FixedWeatherValues, e.1) { WeatherSchneeschauerFits(); }

  /** Snow group (6xx). */
  const Snow: Table := Snow1 + Snow2 + Snow3 + Snow4 + Snow5 + Snow6

  lemma SnowKeys() ensures forall e :: e in Snow ==> KeyFits(LoweredWeatherValues, e.0) { Snow1Keys(); Snow2Keys(); Snow3Keys(); Snow4Keys(); Snow5Keys(); Snow6Keys(); }
  lemma SnowValues() ensures forall e :: e in Snow ==> ValueFits(LoweredWeatherValues, FixedWeatherValues, e.1) { Snow1Values(); Snow2Values(); Snow3Values(); Snow4Values(); Snow5Values(); Snow6Values(); }
  lemma SnowFixedPoints() ensures forall e :: e in Snow ==> WeatherFixedPoint(e) {}

  /** Atmosphere group (7xx), part 1 of 5. */
  const Atmosphere1: Table := [
    ("mist", "Dunst"),
    ("smoke", "Rauch")]

  lemma Atmosphere1Key0() ensures KeyFits(LoweredWeatherValues, "mist") {}
  lemma Atmosphere1Key1() ensures KeyFits(LoweredWeatherValues, "smoke") {}
  lemma Atmosphere1Keys() ensures forall e :: e in Atmosphere1 ==> KeyFits(LoweredWeatherValues, e.0) { Atmosphere1Key0(); Atmosphere1Key1(); }
  lemma Atmosphere1Values() ensures forall e :: e in Atmosphere1 ==> ValueFits(LoweredWeatherValues, FixedWeatherValues, e.1) { WeatherDunstFits(); WeatherRauchFits(); }

  /** Atmosphere group (7xx), part 2 of 5. */
  const Atmosphere2: Table := [
    ("haze", "Dunst"),
    ("sand/dust whirls", "Staub")]

  lemma Atmosphere2Key0() ensures KeyFits(LoweredWeatherValues, "haze") {}
  lemma Atmosphere2Key1() ensures KeyFits(LoweredWeatherValues, "sand/dust whirls") {}
  lemma Atmosphere2Keys() ensures forall e :: e in Atmosphere2 ==> KeyFits(LoweredWeatherValues, e.0) { Atmosphere2Key0(); Atmosphere2Key1(); }
  lemma Atmosphere2Values() ensures forall e :: e in Atmosphere2 ==> ValueFits(LoweredWeatherValues, FixedWeatherValues, e.1) { WeatherDunstFits(); WeatherStaubFits(); }

  /** Atmosphere group (7xx), part 3 of 5. */
  const Atmosphere3: Table := [
    ("fog", "Nebel"),
    ("sand", "Sand")]

  lemma Atmosphere3Key0() ensures KeyFits(LoweredWeatherValues, "fog") {}
  lemma Atmosphere3Key1() ensures KeyFits(LoweredWeatherValues, "sand") {}
  lemma Atmosphere3Keys() ensures forall e :: e in Atmosphere3 ==> KeyFits(LoweredWeatherValues, e.0) { Atmosphere3Key0(); Atmosphere3Key1(); }
  lemma Atmosphere3Values() ensures forall e :: e in Atmosphere3 ==> ValueFits(LoweredWeatherValues, FixedWeatherValues, e.1) { WeatherNebelFits(); WeatherSandFits(); }

  /** Atmosphere group (7xx), part 4 of 5. */
  const Atmosphere4: Table := [
    ("dust", "Staub"),
    ("volcanic ash", "Asche")]

  lemma Atmosphere4Key0() ensures KeyFits(LoweredWeatherValues, "dust") {}
  lemma Atmosphere4Key1() ensures KeyFits(LoweredWeatherValues, "volcanic ash") {}
  lemma Atmosphere4Keys() ensures forall e :: e in Atmosphere4 ==> KeyFits(LoweredWeatherValues, e.0) { Atmosphere4Key0(); Atmosphere4Key1(); }
  lemma Atmosphere4Values() ensures forall e :: e in Atmosphere4 ==> ValueFits(LoweredWeatherValues, FixedWeatherValues, e.1) { WeatherAscheFits(); WeatherStaubFits(); }

  /** Atmosphere group (7xx), part 5 of 5. */
  const Atmosphere5: Table := [
    ("squalls", "Böen"),
    ("tornado", "Tornado")]

  lemma Atmosphere5Key0() ensures KeyFits(LoweredWeatherValues, "squalls") {}
  lemma Atmosphere5Key1() ensures KeyFits(LoweredWeatherValues, "tornado") {}
  lemma Atmosphere5Keys() ensures forall e :: e in Atmosphere5 ==> KeyFits(LoweredWeatherValues, e.0) { Atmosphere5Key0(); Atmosphere5Key1(); }
  lemma Atmosphere5Values() ensures forall e :: e in Atmosphere5 ==> ValueFits(LoweredWeatherValues, FixedWeatherValues, e.1) { WeatherBoeenFits(); WeatherTornadoFits(); }

  /** Atmosphere group (7xx). */
  const Atmosphere: Table := Atmosphere1 + Atmosphere2 + Atmosphere3 + Atmosphere4 + Atmosphere5

  lemma AtmosphereKeys() ensures forall e :: e in Atmosphere ==> KeyFits(LoweredWeatherValues, e.0) { Atmosphere1Keys(); Atmosphere2Keys(); Atmosphere3Keys(); Atmosphere4Keys(); Atmosphere5Keys(); }
  lemma AtmosphereValues() ensures forall e :: e in Atmosphere ==> ValueFits(LoweredWeatherValues, FixedWeatherValues, e.1) { Atmosphere1Values(); Atmosphere2Values(); Atmosphere3Values(); Atmosphere4Values(); Atmosphere5Values(); }
  lemma AtmosphereFixedPoints() ensures forall e :: e in Atmosphere ==> WeatherFixedPoint(e) {}

  /** Clear group (800). */
  const Clear: Table := [
    ("clear sky", "Klar"),
    ("clear", "Klar")]

  lemma ClearKey0() ensures KeyFits(LoweredWeatherValues, "clear sky") {}
  lemma ClearKey1() ensures KeyFits(LoweredWeatherValues, "clear") {}
  lemma ClearKeys() ensures forall e :: e in Clear ==> KeyFits(LoweredWeatherValues, e.0) { ClearKey0(); ClearKey1(); }
  lemma ClearValues() ensures forall e :: e in Clear ==> ValueFits(LoweredWeatherValues, FixedWeatherValues, e.1) { WeatherKlarFits(); }

  lemma ClearFixedPoints() ensures forall e :: e in Clear ==> WeatherFixedPoint(e) {}

  /** Clouds group (80x), part 1 of 4. */
  const Clouds1: Table := [
    ("few clouds", "Leicht bewölkt"),
    ("scattered clouds", "Bewölkt")]

  lemma Clouds1Key0() ensures KeyFits(LoweredWeatherValues, "few clouds") {}
  lemma Clouds1Key1() ensures KeyFits(LoweredWeatherValues, "scattered clouds") {}
  lemma Clouds1Keys() ensures forall e :: e in Clouds1 ==> KeyFits(LoweredWeatherValues, e.0) { Clouds1Key0(); Clouds1Key1(); }
  lemma Clouds1Values() ensures forall e :: e in Clouds1 ==> ValueFits(LoweredWeatherValues, FixedWeatherValues, e.1) { WeatherBewoelktFits(); WeatherLeichtBewoelktFits(); }

  /** Clouds group (80x), part 2 of 4. */
  const Clouds2: Table := [
    ("broken clouds", "Stark bewölkt"),
    ("overcast clouds", "Bedeckt")]

  lemma Clouds2Key0() ensures KeyFits(LoweredWeatherValues, "broken clouds") {}
  lemma Clouds2Key1() ensures KeyFits(LoweredWeatherValues, "overcast clouds") {}
  lemma Clouds2Keys() ensures forall e :: e in Clouds2 ==> KeyFits(LoweredWeatherValues, e.0) { Clouds2Key0(); Clouds2Key1(); }
  lemma Clouds2Values() ensures forall e :: e in Clouds2 ==> ValueFits(LoweredWeatherValues, FixedWeatherValues, e.1) { WeatherBedecktFits(); WeatherStarkBewoelktFits(); }

  /** Clouds group (80x), part 3 of 4. */
  const Clouds3: Table := [
    ("overcast", "Bedeckt"),
    ("clouds", "Bewölkt")]

  lemma Clouds3Key0() ensures KeyFits(LoweredWeatherValues, "overcast") {}
  lemma Clouds3Key1() ensures KeyFits(LoweredWeatherValues, "clouds") {}
  lemma Clouds3Keys() ensures forall e :: e in Clouds3 ==> KeyFits(LoweredWeatherValues, e.0) { Clouds3Key0(); Clouds3Key1(); }
  lemma Clouds3Values() ensures forall e :: e in Clouds3 ==> ValueFits(LoweredWeatherValues, FixedWeatherValues, e.1) { WeatherBedecktFits(); WeatherBewoelktFits(); }

  /** Clouds group (80x), part 4 of 4. */
  const Clouds4: Table := [
    ("partly cloudy", "Teilweise bewölkt"),
    ("mostly cloudy", "Bewölkt")]

  lemma Clouds4Key0() ensures KeyFits(LoweredWeatherValues, "partly cloudy") {}
  lemma Clouds4Key1() ensures KeyFits(LoweredWeatherValues, "mostly cloudy") {}
  lemma Clouds4Keys() ensures forall e :: e in Clouds4 ==> KeyFits(LoweredWeatherValues, e.0) { Clouds4Key0(); Clouds4Key1(); }
  lemma Clouds4Values() ensures forall e :: e in Clouds4 ==> ValueFits(LoweredWeatherValues, FixedWeatherValues, e.1) { WeatherBewoelktFits(); WeatherTeilweiseBewoelktFits(); }

  /** Clouds group (80x). */
  const Clouds: Table := Clouds1 + Clouds2 + Clouds3 + Clouds4

  lemma CloudsKeys() ensures forall e :: e in Clouds ==> KeyFits(LoweredWeatherValues, e.0) { Clouds1Keys(); Clouds2Keys(); Clouds3Keys(); Clouds4Keys(); }
  lemma CloudsValues() ensures forall e :: e in Clouds ==> ValueFits(LoweredWeatherValues, FixedWeatherValues, e.1) { Clouds1Values(); Clouds2Values(); Clouds3Values(); Clouds4Values(); }
  lemma CloudsFixedPoints() ensures forall e :: e in Clouds ==> WeatherFixedPoint(e) {}

  /** Common variations, part 1 of 4. */
  const Common1: Table := [
    ("sunny", "Sonnig"),
    ("hot", "Heiß")]

  lemma Common1Key0() ensures KeyFits(LoweredWeatherValues, "sunny") {}
  lemma Common1Key1() ensures KeyFits(LoweredWeatherValues, "hot") {}
  lemma Common1Keys() ensures forall e :: e in Common1 ==> KeyFits(LoweredWeatherValues, e.0) { Common1Key0(); Common1Key1(); }
  lemma Common1Values() ensures forall e :: e in Common1 ==> ValueFits(LoweredWeatherValues, FixedWeatherValues, e.1) { WeatherHeissFits(); WeatherSonnigFits(); }

  /** Common variations, part 2 of 4. */
  const Common2: Table := [
    ("cold", "Kalt"),
    ("windy", "Windig")]

  lemma Common2Key0() ensures KeyFits(LoweredWeatherValues, "cold") {}
  lemma Common2Key1() ensures KeyFits(LoweredWeatherValues, "windy") {}
  lemma Common2Keys() ensures forall e :: e in Common2 ==> KeyFits(LoweredWeatherValues, e.0) { Common2Key0(); Common2Key1(); }
  lemma Common2Values() ensures forall e :: e in Common2 ==> ValueFits(LoweredWeatherValues, FixedWeatherValues, e.1) { WeatherKaltFits(); WeatherWindigFits(); }

  /** Common variations, part 3 of 4. */
  const Common3: Table := [
    ("humid", "Schwül"),
    ("dry", "Trocken")]

  lemma Common3Key0() ensures KeyFits(LoweredWeatherValues, "humid") {}
  lemma Common3Key1() ensures KeyFits(LoweredWeatherValues, "dry") {}
  lemma Common3Keys() ensures forall e :: e in Common3 ==> KeyFits(LoweredWeatherValues, e.0) { Common3Key0(); Common3Key1(); }
  lemma Common3Values() ensures forall e :: e in Common3 ==> ValueFits(LoweredWeatherValues, FixedWeatherValues, e.1) { WeatherSchwuelFits(); WeatherTrockenFits(); }

  /** Common variations, part 4 of 4. */
  const Common4: Table := [
    ("wet", "Nass"),
    ("stormy", "Stürmisch")]

  lemma Common4Key0() ensures KeyFits(LoweredWeatherValues, "wet") {}
  lemma Common4Key1() ensures KeyFits(LoweredWeatherValues, "stormy") {}
  lemma Common4Keys() ensures forall e :: e in Common4 ==> KeyFits(LoweredWeatherValues, e.0) { Common4Key0(); Common4Key1(); }
  lemma Common4Values() ensures forall e :: e in Common4 ==> ValueFits(LoweredWeatherValues, FixedWeatherValues, e.1) { WeatherNassFits(); WeatherStuermischFits(); }

  /** Common variations. */
  const Common: Table := Common1 + Common2 + Common3 + Common4

  lemma CommonKeys() ensures forall e :: e in Common ==> KeyFits(LoweredWeatherValues, e.0) { Common1Keys(); Common2Keys(); Common3Keys(); Common4Keys(); }
  lemma CommonValues() ensures forall e :: e in Common ==> ValueFits(LoweredWeatherValues, FixedWeatherValues, e.1) { Common1Values(); Common2Values(); Common3Values(); Common4Values(); }
  lemma CommonFixedPoints() ensures forall e :: e in Common ==> WeatherFixedPoint(e) {}

  /** Error states, part 1 of 4. */
  const ErrorStates1: Table := [
    ("weather data unavailable", "Keine Daten"),
    ("data unavailable", "Keine Daten")]

  lemma ErrorStates1Key0() ensures KeyFits(LoweredWeatherValues, "weather data unavailable") {}
  lemma ErrorStates1Key1() ensures KeyFits(LoweredWeatherValues, "data unavailable") {}
  lemma ErrorStates1Keys() ensures forall e :: e in ErrorStates1 ==> KeyFits(LoweredWeatherValues, e.0) { ErrorStates1Key0(); ErrorStates1Key1(); }
  lemma ErrorStates1Values() ensures forall e :: e in ErrorStates1 ==> ValueFits(LoweredWeatherValues, FixedWeatherValues, e.1) { WeatherKeineDatenFits(); }

  /** Error states, part 2 of 4. */
  const ErrorStates2: Table := [
    ("no forecast available", "Keine Vorhersage"),
    ("weather unavailable", "Kein Wetter")]

  lemma ErrorStates2Key0() ensures KeyFits(LoweredWeatherValues, "no forecast available") {}
  lemma ErrorStates2Key1() ensures KeyFits(LoweredWeatherValues, "weather unavailable") {}
  lemma ErrorStates2Keys() ensures forall e :: e in ErrorStates2 ==> KeyFits(LoweredWeatherValues, e.0) { ErrorStates2Key0(); ErrorStates2Key1(); }
  lemma ErrorStates2Values() ensures forall e :: e in ErrorStates2 ==> ValueFits(LoweredWeatherValues, FixedWeatherValues, e.1) { WeatherKeinWetterFits(); WeatherKeineVorhersageFits(); }

  /** Error states, part 3 of 4. */
  const ErrorStates3: Table := [
    ("n/a", "k.A."),
    ("unknown", "Unbekannt")]

  lemma ErrorStates3Key0() ensures KeyFits(LoweredWeatherValues, "n/a") {}
  lemma ErrorStates3Key1() ensures KeyFits(LoweredWeatherValues, "unknown") {}
  lemma ErrorStates3Keys() ensures forall e :: e in ErrorStates3 ==> KeyFits(LoweredWeatherValues, e.0) { ErrorStates3Key0(); ErrorStates3Key1(); }
  lemma ErrorStates3Values() ensures forall e :: e in ErrorStates3 ==> ValueFits(LoweredWeatherValues, FixedWeatherValues, e.1) { WeatherUnbekanntFits(); WeatherKAFits(); }

  /** Error states, part 4 of 4. */
  const ErrorStates4: Table := [
    ("no forecast", "Keine Vorhersage")]

  lemma ErrorStates4Key0() ensures KeyFits(LoweredWeatherValues, "no forecast") {}
  lemma ErrorStates4Keys() ensures forall e :: e in ErrorStates4 ==> KeyFits(LoweredWeatherValues, e.0) { ErrorStates4Key0(); }
  lemma ErrorStates4Values() ensures forall e :: e in ErrorStates4 ==> ValueFits(LoweredWeatherValues, FixedWeatherValues, e.1) { WeatherKeineVorhersageFits(); }

  /** Error states. */
  const ErrorStates: Table := ErrorStates1 + ErrorStates2 + ErrorStates3 + ErrorStates4

  lemma ErrorStatesKeys() ensures forall e :: e in ErrorStates ==> KeyFits(LoweredWeatherValues, e.0) { ErrorStates1Keys(); ErrorStates2Keys(); ErrorStates3Keys(); ErrorStates4Keys(); }
  lemma ErrorStatesValues() ensures forall e :: e in ErrorStates ==> ValueFits(LoweredWeatherValues, FixedWeatherValues, e.1) { ErrorStates1Values(); ErrorStates2Values(); ErrorStates3Values(); ErrorStates4Values(); }
  lemma ErrorStatesFixedPoints() ensures forall e :: e in ErrorStates ==> WeatherFixedPoint(e) {}

  /** `WEATHER_TRANSLATIONS`: 75 condition texts and their short German forms. */
  const WeatherTranslations: Table :=
    Thunderstorm + Drizzle + Rain + Snow + Atmosphere
    + Clear + Clouds + Common + ErrorStates

  lemma WeatherKeysChecked()
    ensures forall e :: e in WeatherTranslations ==> KeyFits(LoweredWeatherValues, e.0)
  {
    ThunderstormKeys(); DrizzleKeys(); RainKeys(); SnowKeys(); AtmosphereKeys();
    ClearKeys(); CloudsKeys(); CommonKeys(); ErrorStatesKeys();
  }

  lemma WeatherValuesChecked()
    ensures forall e :: e in WeatherTranslations ==> ValueFits(LoweredWeatherValues, FixedWeatherValues, e.1)
  {
    ThunderstormValues(); DrizzleValues(); RainValues(); SnowValues();
    AtmosphereValues(); ClearValues(); CloudsValues(); CommonValues();
    ErrorStatesValues();
  }

  lemma WeatherFixedPoints()
    ensures forall e :: e in WeatherTranslations ==> WeatherFixedPoint(e)
  {
    ThunderstormFixedPoints(); DrizzleFixedPoints(); RainFixedPoints();
    SnowFixedPoints(); AtmosphereFixedPoints(); ClearFixedPoints(); CloudsFixedPoints();
    CommonFixedPoints(); ErrorStatesFixedPoints();
  }

  lemma WeatherFixedLowered()
    ensures FixedLowered(FixedWeatherValues)
  {
    assert Lower("Sand") == "sand" && Lower("Tornado") == "tornado";
  }

  lemma WeatherFixedStored()
    ensures FixedStored(WeatherTranslations, FixedWeatherValues)
  {
    WeatherFixedPoints();
    assert ("sand", "Sand") in Atmosphere && ("tornado", "Tornado") in Atmosphere;
    forall v | v in FixedWeatherValues
      ensures Lookup(WeatherTranslations, FixedWeatherValues[v]) == Some(v)
    {
      LookupUnique(WeatherTranslations, FixedWeatherValues[v], v);
    }
  }

  /** Every weather key is written in lower case, and every translation
      either is no key once lower-cased or is stored under its own
      lower-cased form. */
  lemma WeatherTableSettled()
    ensures LowercaseKeys(WeatherTranslations) && Settled(WeatherTranslations, LoweredWeatherValues)
  {
    WeatherKeysChecked();
    WeatherValuesChecked();
    WeatherFixedLowered();
    WeatherFixedStored();
    SettledIntro(WeatherTranslations, LoweredWeatherValues, FixedWeatherValues);
  }

  /** `translate_weather_description`. */
  function TranslateWeatherDescription(description: string): string {
    DescriptionIn(WeatherTranslations, description)
  }

  /** The scan over lower-cased keys never finds anything the direct
      lookup missed: all keys are written in lower case. */
  lemma WeatherScanUnreachable(key: string)
    ensures ScanLowered(WeatherTranslations, key) == Lookup(WeatherTranslations, key)
  {
    WeatherTableSettled();
    ScanMatchesLookup(WeatherTranslations, key);
  }

  /** A non-empty description whose lower-cased, stripped form is a key is
      translated to a value stored under that key. */
  lemma TranslateWeatherKnown(description: string, german: string)
    requires description != ""
    requires (MatchKey(description), german) in WeatherTranslations
    ensures (MatchKey(description), TranslateWeatherDescription(description)) in WeatherTranslations
    ensures Lookup(WeatherTranslations, MatchKey(description)) == Some(TranslateWeatherDescription(description))
  {
    DescriptionInKnown(WeatherTranslations, description, german);
  }

  /** Matching ignores ASCII case and surrounding whitespace: two
      non-empty descriptions with the same known key get the same
      translation. */
  lemma TranslateWeatherCaseInsensitive(d1: string, d2: string)
    requires d1 != "" && d2 != ""
    requires MatchKey(d1) == MatchKey(d2)
    requires exists e :: e in WeatherTranslations && e.0 == MatchKey(d1)
    ensures TranslateWeatherDescription(d1) == TranslateWeatherDescription(d2)
  {
  }

  /** An empty description, or one whose key is not in the table, comes
      back unchanged. */
  lemma TranslateWeatherUnknown(description: string)
    requires description == "" || forall e :: e in WeatherTranslations ==> e.0 != MatchKey(description)
    ensures TranslateWeatherDescription(description) == description
  {
    WeatherTableSettled();
    DescriptionInUnknown(WeatherTranslations, description);
  }

  /** Translating a translation changes nothing more. */
  lemma TranslateWeatherIdempotent(description: string)
    ensures TranslateWeatherDescription(TranslateWeatherDescription(description))
         == TranslateWeatherDescription(description)
  {
    WeatherTableSettled();
    DescriptionInIdempotent(WeatherTranslations, LoweredWeatherValues, description);
  }

  // ---------------------------------------------------------------------
  // UI_TRANSLATIONS

  /** Lower-cased forms of the interface translations other than "Wind",
      whose lower-cased form is itself a key. */
  const LoweredUiValues: set<string> :=
    {"aktualisiert", "druck", "feucht", "heute", "jetzt", "keine termine",
     "keine termine heute", "morgen", "ort", "sicht", "temp", "termine", "vorhersage",
     "wetter"}

  /** The interface translation stored under its own lower-cased form,
      with that form. */
  const FixedUiValues: map<string, string> := map["Wind" := "wind"]

  predicate UiFixedPoint(e: (string, string)) {
    e.0 == "wind" ==> e.1 == "Wind"
  }

  lemma UiAktualisiertFits() ensures ValueFits(LoweredUiValues, FixedUiValues, "Aktualisiert") { assert Lower("Aktualisiert") == "aktualisiert"; }
  lemma UiDruckFits() ensures ValueFits(LoweredUiValues, FixedUiValues, "Druck") { assert Lower("Druck") == "druck"; }
  lemma UiFeuchtFits() ensures ValueFits(LoweredUiValues, FixedUiValues, "Feucht") { assert Lower("Feucht") == "feucht"; }
  lemma UiHeuteFits() ensures ValueFits(LoweredUiValues, FixedUiValues, "Heute") { assert Lower("Heute") == "heute"; }
  lemma UiJetztFits() ensures ValueFits(LoweredUiValues, FixedUiValues, "Jetzt") { assert Lower("Jetzt") == "jetzt"; }
  lemma UiKeineTermineFits() ensures ValueFits(LoweredUiValues, FixedUiValues, "Keine Termine") { assert Lower("Keine Termine") == "keine termine"; }
  lemma UiKeineTermineHeuteFits() ensures ValueFits(LoweredUiValues, FixedUiValues, "Keine Termine heute") { assert Lower("Keine Termine heute") == "keine termine heute"; }
  lemma UiMorgenFits() ensures ValueFits(LoweredUiValues, FixedUiValues, "Morgen") { assert Lower("Morgen") == "morgen"; }
  lemma UiOrtFits() ensures ValueFits(LoweredUiValues, FixedUiValues, "Ort") { assert Lower("Ort") == "ort"; }
  lemma UiSichtFits() ensures ValueFits(LoweredUiValues, FixedUiValues, "Sicht") { assert Lower("Sicht") == "sicht"; }
  lemma UiTempFits() ensures ValueFits(LoweredUiValues, FixedUiValues, "Temp") { assert Lower("Temp") == "temp"; }
  lemma UiTermineFits() ensures ValueFits(LoweredUiValues, FixedUiValues, "Termine") { assert Lower("Termine") == "termine"; }
  lemma UiVorhersageFits() ensures ValueFits(LoweredUiValues, FixedUiValues, "Vorhersage") { assert Lower("Vorhersage") == "vorhersage"; }
  lemma UiWetterFits() ensures ValueFits(LoweredUiValues, FixedUiValues, "Wetter") { assert Lower("Wetter") == "wetter"; }
  lemma UiWindFits() ensures ValueFits(LoweredUiValues, FixedUiValues, "Wind") { assert Lower("Wind") == "wind"; }

  /** General terms, part 1 of 8. */
  const UiGeneral1: Table := [
    ("today", "Heute"),
    ("tomorrow", "Morgen")]

  lemma UiGeneral1Key0() ensures KeyFits(LoweredUiValues, "today") {}
  lemma UiGeneral1Key1() ensures KeyFits(LoweredUiValues, "tomorrow") {}
  lemma UiGeneral1Keys() ensures forall e :: e in UiGeneral1 ==> KeyFits(LoweredUiValues, e.0) { UiGeneral1Key0(); UiGeneral1Key1(); }
  lemma UiGeneral1Values() ensures forall e :: e in UiGeneral1 ==> ValueFits(LoweredUiValues, FixedUiValues, e.1) { UiHeuteFits(); UiMorgenFits(); }

  /** General terms, part 2 of 8. */
  const UiGeneral2: Table := [
    ("current", "Jetzt"),
    ("forecast", "Vorhersage")]

  lemma UiGeneral2Key0() ensures KeyFits(LoweredUiValues, "current") {}
  lemma UiGeneral2Key1() ensures KeyFits(LoweredUiValues, "forecast") {}
  lemma UiGeneral2Keys() ensures forall e :: e in UiGeneral2 ==> KeyFits(LoweredUiValues, e.0) { UiGeneral2Key0(); UiGeneral2Key1(); }
  lemma UiGeneral2Values() ensures forall e :: e in UiGeneral2 ==> ValueFits(LoweredUiValues, FixedUiValues, e.1) { UiJetztFits(); UiVorhersageFits(); }

  /** General terms, part 3 of 8. */
  const UiGeneral3: Table := [
    ("temperature", "Temp"),
    ("humidity", "Feucht")]

  lemma UiGeneral3Key0() ensures KeyFits(LoweredUiValues, "temperature") {}
  lemma UiGeneral3Key1() ensures KeyFits(LoweredUiValues, "humidity") {}
  lemma UiGeneral3Keys() ensures forall e :: e in UiGeneral3 ==> KeyFits(LoweredUiValues, e.0) { UiGeneral3Key0(); UiGeneral3Key1(); }
  lemma UiGeneral3Values() ensures forall e :: e in UiGeneral3 ==> ValueFits(LoweredUiValues, FixedUiValues, e.1) { UiFeuchtFits(); UiTempFits(); }

  /** General terms, part 4 of 8. */
  const UiGeneral4: Table := [
    ("wind", "Wind"),
    ("pressure", "Druck")]

  lemma UiGeneral4Key0() ensures KeyFits(LoweredUiValues, "wind") {}
  lemma UiGeneral4Key1() ensures KeyFits(LoweredUiValues, "pressure") {}
  lemma UiGeneral4Keys() ensures forall e :: e in UiGeneral4 ==> KeyFits(LoweredUiValues, e.0) { UiGeneral4Key0(); UiGeneral4Key1(); }
  lemma UiGeneral4Values() ensures forall e :: e in UiGeneral4 ==> ValueFits(LoweredUiValues, FixedUiValues, e.1) { UiDruckFits(); UiWindFits(); }

  /** General terms, part 5 of 8. */
  const UiGeneral5: Table := [
    ("visibility", "Sicht"),
    ("location", "Ort")]

  lemma UiGeneral5Key0() ensures KeyFits(LoweredUiValues, "visibility") {}
  lemma UiGeneral5Key1() ensures KeyFits(LoweredUiValues, "location") {}
  lemma UiGeneral5Keys() ensures forall e :: e in UiGeneral5 ==> KeyFits(LoweredUiValues, e.0) { UiGeneral5Key0(); UiGeneral5Key1(); }
  lemma UiGeneral5Values() ensures forall e :: e in UiGeneral5 ==> ValueFits(LoweredUiValues, FixedUiValues, e.1) { UiOrtFits(); UiSichtFits(); }

  /** General terms, part 6 of 8. */
  const UiGeneral6: Table := [
    ("events", "Termine"),
    ("no events", "Keine Termine")]

  lemma UiGeneral6Key0() ensures KeyFits(LoweredUiValues, "events") {}
  lemma UiGeneral6Key1() ensures KeyFits(LoweredUiValues, "no events") {}
  lemma UiGeneral6Keys() ensures forall e :: e in UiGeneral6 ==> KeyFits(LoweredUiValues, e.0) { UiGeneral6Key0(); UiGeneral6Key1(); }
  lemma UiGeneral6Values() ensures forall e :: e in UiGeneral6 ==> ValueFits(LoweredUiValues, FixedUiValues, e.1) { UiKeineTermineFits(); UiTermineFits(); }

  /** General terms, part 7 of 8. */
  const UiGeneral7: Table := [
    ("upcoming events", "Termine"),
    ("weather", "Wetter")]

  lemma UiGeneral7Key0() ensures KeyFits(LoweredUiValues, "upcoming events") {}
  lemma UiGeneral7Key1() ensures KeyFits(LoweredUiValues, "weather") {}
  lemma UiGeneral7Keys() ensures forall e :: e in UiGeneral7 ==> KeyFits(LoweredUiValues, e.0) { UiGeneral7Key0(); UiGeneral7Key1(); }
  lemma UiGeneral7Values() ensures forall e :: e in UiGeneral7 ==> ValueFits(LoweredUiValues, FixedUiValues, e.1) { UiTermineFits(); UiWetterFits(); }

  /** General terms, part 8 of 8. */
  const UiGeneral8: Table := [
    ("no events today", "Keine Termine heute"),
    ("updated", "Aktualisiert")]

  lemma UiGeneral8Key0() ensures KeyFits(LoweredUiValues, "no events today") {}
  lemma UiGeneral8Key1() ensures KeyFits(LoweredUiValues, "updated") {}
  lemma UiGeneral8Keys() ensures forall e :: e in UiGeneral8 ==> KeyFits(LoweredUiValues, e.0) { UiGeneral8Key0(); UiGeneral8Key1(); }
  lemma UiGeneral8Values() ensures forall e :: e in UiGeneral8 ==> ValueFits(LoweredUiValues, FixedUiValues, e.1) { UiAktualisiertFits(); UiKeineTermineHeuteFits(); }

  /** General terms. */
  const UiGeneral: Table := UiGeneral1 + UiGeneral2 + UiGeneral3 + UiGeneral4 + UiGeneral5 + UiGeneral6 + UiGeneral7 + UiGeneral8

  lemma UiGeneralKeys() ensures forall e :: e in UiGeneral ==> KeyFits(LoweredUiValues, e.0) { UiGeneral1Keys(); UiGeneral2Keys(); UiGeneral3Keys(); UiGeneral4Keys(); UiGeneral5Keys(); UiGeneral6Keys(); UiGeneral7Keys(); UiGeneral8Keys(); }
  lemma UiGeneralValues() ensures forall e :: e in UiGeneral ==> ValueFits(LoweredUiValues, FixedUiValues, e.1) { UiGeneral1Values(); UiGeneral2Values(); UiGeneral3Values(); UiGeneral4Values(); UiGeneral5Values(); UiGeneral6Values(); UiGeneral7Values(); UiGeneral8Values(); }
  lemma UiGeneralFixedPoints() ensures forall e :: e in UiGeneral ==> UiFixedPoint(e) {}

  /** `UI_TRANSLATIONS`: 16 interface labels and their German forms. */
  const UiTranslations: Table := UiGeneral

  lemma UiFixedLowered()
    ensures FixedLowered(FixedUiValues)
  {
    assert Lower("Wind") == "wind";
  }

  lemma UiFixedStored()
    ensures FixedStored(UiTranslations, FixedUiValues)
  {
    UiGeneralFixedPoints();
    assert ("wind", "Wind") in UiTranslations;
    forall v | v in FixedUiValues
      ensures Lookup(UiTranslations, FixedUiValues[v]) == Some(v)
    {
      LookupUnique(UiTranslations, FixedUiValues[v], v);
    }
  }

  /** Every interface translation either is no key once lower-cased or is
      stored under its own lower-cased form. */
  lemma UiTableSettled()
    ensures Settled(UiTranslations, LoweredUiValues)
  {
    UiGeneralKeys();
    UiGeneralValues();
    UiFixedLowered();
    UiFixedStored();
    SettledIntro(UiTranslations, LoweredUiValues, FixedUiValues);
  }

  /** `translate_ui_text`. */
  function TranslateUiText(text: string): string {
    LabelIn(UiTranslations, text)
  }

  /** A non-empty label whose key is in the interface table is translated
      to a value stored under that key. */
  lemma TranslateUiKnown(text: string, german: string)
    requires text != ""
    requires (MatchKey(text), german) in UiTranslations
    ensures (MatchKey(text), TranslateUiText(text)) in UiTranslations
    ensures Lookup(UiTranslations, MatchKey(text)) == Some(TranslateUiText(text))
  {
    LabelInKnown(UiTranslations, text, german);
  }

  /** An empty label, or one whose key is not in the interface table,
      comes back unchanged. */
  lemma TranslateUiUnknown(text: string)
    requires text == "" || forall e :: e in UiTranslations ==> e.0 != MatchKey(text)
    ensures TranslateUiText(text) == text
  {
    LabelInUnknown(UiTranslations, text);
  }

  /** Translating a translated label changes nothing more. */
  lemma TranslateUiIdempotent(text: string)
    ensures TranslateUiText(TranslateUiText(text)) == TranslateUiText(text)
  {
    UiTableSettled();
    LabelInIdempotent(UiTranslations, LoweredUiValues, text);
  }
}

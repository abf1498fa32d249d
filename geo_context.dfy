/** Geographic and locale context of an event (Sources/ContextKit/Context/GeoContext.swift). */
module Geo {
  import opened Wrappers
  import opened Json

  datatype GeoContext = GeoContext(
    countryCode: string,
    region: string,
    localeIdentifier: string,
    currencyCode: string,
    languageCode: string)

  const AsiaPacific: seq<string> := ["CN", "JP", "KR", "TW", "HK", "SG", "TH", "VN", "ID", "MY", "PH", "IN", "AU", "NZ"]
  const Europe: seq<string> := ["GB", "DE", "FR", "IT", "ES", "NL", "SE", "NO", "DK", "FI", "PL", "CH", "AT", "BE", "IE", "PT", "CZ", "GR", "RO", "HU"]
  const NorthAmerica: seq<string> := ["US", "CA", "MX"]
  const SouthAmerica: seq<string> := ["BR", "AR", "CL", "CO", "PE", "VE", "EC", "BO", "PY", "UY"]
  const MiddleEast: seq<string> := ["AE", "SA", "IL", "TR", "EG", "QA", "KW", "BH", "OM", "JO", "LB"]
  const Africa: seq<string> := ["ZA", "NG", "KE", "GH", "TZ", "UG", "ZW", "ET", "MA", "DZ", "TN"]

  /** The six region tables with their labels, in the order `computeRegion` tests them. */
  const Tables: seq<(string, seq<string>)> := [
    ("Asia-Pacific", AsiaPacific),
    ("Europe", Europe),
    ("North America", NorthAmerica),
    ("South America", SouthAmerica),
    ("Middle East", MiddleEast),
    ("Africa", Africa)
  ]

  const Other := "Other"

  /** The seven labels `computeRegion` can return. */
  const RegionLabels: set<string> :=
    {"Asia-Pacific", "Europe", "North America", "South America", "Middle East", "Africa", "Other"}

  /** The first table (from index `from` on) containing the code gives the label; otherwise "Other". */
  function RegionFrom(code: string, from: nat): (r: string)
    requires from <= |Tables|
    ensures r == Other || exists i :: from <= i < |Tables| && r == Tables[i].0 && code in Tables[i].1
    ensures r == Other <==> forall i :: from <= i < |Tables| ==> code !in Tables[i].1
    decreases |Tables| - from
  {
    if from == |Tables| then Other
    else if code in Tables[from].1 then Tables[from].0
    else RegionFrom(code, from + 1)
  }

  /** `computeRegion(from:)`: exact, case-sensitive membership in the tables, "Other" otherwise. */
  function ComputeRegion(code: string): (r: string)
    ensures r in RegionLabels
    ensures r == Other <==> forall i :: 0 <= i < |Tables| ==> code !in Tables[i].1
  {
    RegionFrom(code, 0)
  }

  /** Two tables share no code. */
  ghost predicate Apart(x: seq<string>, y: seq<string>) {
    forall a, b :: 0 <= a < |x| && 0 <= b < |y| ==> x[a] != y[b]
  }

  /** Codes of two characters are told apart by comparing the characters. */
  lemma ApartByCharacters(x: seq<string>, y: seq<string>)
    requires forall a :: 0 <= a < |x| ==> |x[a]| == 2
    requires forall a, b :: 0 <= a < |x| && 0 <= b < |y| ==> |y[b]| != 2 || x[a][0] != y[b][0] || x[a][1] != y[b][1]
    ensures Apart(x, y)
  {
  }

  /** No country code appears in two tables. */
  lemma TablesDisjoint()
    ensures forall i, j, c :: 0 <= i < j < |Tables| && c in Tables[i].1 ==> c !in Tables[j].1
  {
    AsiaPacificApartFromEurope();
    AsiaPacificApartFromNorthAmerica();
    AsiaPacificApartFromSouthAmerica();
    AsiaPacificApartFromMiddleEast();
    AsiaPacificApartFromAfrica();
    EuropeApartFromNorthAmerica();
    EuropeApartFromSouthAmerica();
    EuropeApartFromMiddleEast();
    EuropeApartFromAfrica();
    NorthAmericaApartFromSouthAmerica();
    NorthAmericaApartFromMiddleEast();
    NorthAmericaApartFromAfrica();
    SouthAmericaApartFromMiddleEast();
    SouthAmericaApartFromAfrica();
    MiddleEastApartFromAfrica();
  }

  lemma AsiaPacificApartFromEurope()
    ensures Apart(AsiaPacific, Europe)
  {
    ApartByCharacters(AsiaPacific, Europe);
  }

  lemma AsiaPacificApartFromNorthAmerica()
    ensures Apart(AsiaPacific, NorthAmerica)
  {
    ApartByCharacters(AsiaPacific, NorthAmerica);
  }

  lemma AsiaPacificApartFromSouthAmerica()
    ensures Apart(AsiaPacific, SouthAmerica)
  {
    ApartByCharacters(AsiaPacific, SouthAmerica);
  }

  lemma AsiaPacificApartFromMiddleEast()
    ensures Apart(AsiaPacific, MiddleEast)
  {
    ApartByCharacters(AsiaPacific, MiddleEast);
  }

  lemma AsiaPacificApartFromAfrica()
    ensures Apart(AsiaPacific, Africa)
  {
    ApartByCharacters(AsiaPacific, Africa);
  }

  lemma EuropeApartFromNorthAmerica()
    ensures Apart(Europe, NorthAmerica)
  {
    ApartByCharacters(Europe, NorthAmerica);
  }

  lemma EuropeApartFromSouthAmerica()
    ensures Apart(Europe, SouthAmerica)
  {
    ApartByCharacters(Europe, SouthAmerica);
  }

  lemma EuropeApartFromMiddleEast()
    ensures Apart(Europe, MiddleEast)
  {
    ApartByCharacters(Europe, MiddleEast);
  }

  lemma EuropeApartFromAfrica()
    ensures Apart(Europe, Africa)
  {
    ApartByCharacters(Europe, Africa);
  }

  lemma NorthAmericaApartFromSouthAmerica()
    ensures Apart(NorthAmerica, SouthAmerica)
  {
    ApartByCharacters(NorthAmerica, SouthAmerica);
  }

  lemma NorthAmericaApartFromMiddleEast()
    ensures Apart(NorthAmerica, MiddleEast)
  {
    ApartByCharacters(NorthAmerica, MiddleEast);
  }

  lemma NorthAmericaApartFromAfrica()
    ensures Apart(NorthAmerica, Africa)
  {
    ApartByCharacters(NorthAmerica, Africa);
  }

  lemma SouthAmericaApartFromMiddleEast()
    ensures Apart(SouthAmerica, MiddleEast)
  {
    ApartByCharacters(SouthAmerica, MiddleEast);
  }

  lemma SouthAmericaApartFromAfrica()
    ensures Apart(SouthAmerica, Africa)
  {
    ApartByCharacters(SouthAmerica, Africa);
  }

  lemma MiddleEastApartFromAfrica()
    ensures Apart(MiddleEast, Africa)
  {
    ApartByCharacters(MiddleEast, Africa);
  }

  /** A country code as the tables list it: two upper-case ASCII letters. */
  predicate IsUpperCode(c: string) {
    |c| == 2 && 'A' <= c[0] <= 'Z' && 'A' <= c[1] <= 'Z'
  }

  /** Every entry of a table is a two-letter upper-case code. */
  predicate UpperCodes(t: seq<string>) {
    forall k :: 0 <= k < |t| ==> IsUpperCode(t[k])
  }

  lemma AsiaPacificUpper()
    ensures UpperCodes(AsiaPacific)
  {
  }

  lemma EuropeUpper()
    ensures UpperCodes(Europe)
  {
  }

  lemma NorthAmericaUpper()
    ensures UpperCodes(NorthAmerica)
  {
  }

  lemma SouthAmericaUpper()
    ensures UpperCodes(SouthAmerica)
  {
  }

  lemma MiddleEastUpper()
    ensures UpperCodes(MiddleEast)
  {
  }

  lemma AfricaUpper()
    ensures UpperCodes(Africa)
  {
  }

  lemma TablesHoldUpperCodes()
    ensures forall i, c :: 0 <= i < |Tables| && c in Tables[i].1 ==> IsUpperCode(c)
  {
    AsiaPacificUpper();
    EuropeUpper();
    NorthAmericaUpper();
    SouthAmericaUpper();
    MiddleEastUpper();
    AfricaUpper();
    assert forall i :: 0 <= i < |Tables| ==> UpperCodes(Tables[i].1);
  }

  /** Matching is exact and case-sensitive: anything but two upper-case letters (e.g. "us", "unknown") is "Other". */
  lemma NonCodeIsOther(code: string)
    requires !IsUpperCode(code)
    ensures ComputeRegion(code) == Other
  {
    TablesHoldUpperCodes();
  }

  /** Because the tables are disjoint, every listed code gets its own table's label, whatever the test order. */
  lemma {:induction false} RegionOfListedCode(i: nat, code: string)
    requires i < |Tables| && code in Tables[i].1
    ensures ComputeRegion(code) == Tables[i].0
  {
    TablesDisjoint();
    RegionFromListed(0, i, code);
  }

  lemma {:induction false} RegionFromListed(from: nat, i: nat, code: string)
    requires from <= i < |Tables| && code in Tables[i].1
    requires forall a, b, c :: 0 <= a < b < |Tables| && c in Tables[a].1 ==> c !in Tables[b].1
    ensures RegionFrom(code, from) == Tables[i].0
    decreases i - from
  {
    if from < i {
      assert code !in Tables[from].1;
      RegionFromListed(from + 1, i, code);
    }
  }

  lemma NorthAmericaExamples()
    ensures ComputeRegion("US") == "North America"
    ensures ComputeRegion("CA") == "North America"
    ensures ComputeRegion("MX") == "North America"
    ensures ComputeRegion("us") == Other
    ensures ComputeRegion("unknown") == Other
  {
    NonCodeIsOther("us");
    NonCodeIsOther("unknown");
    RegionOfListedCode(2, "US");
    RegionOfListedCode(2, "CA");
    RegionOfListedCode(2, "MX");
  }

  /**
   * `GeoContext.capture()` from the locale's region identifier, locale identifier, currency and
   * language code (each of the optional ones nil when the locale lacks it).
   */
  function Capture(regionId: Option<string>, localeId: string, currency: Option<string>, language: Option<string>): (g: GeoContext)
    ensures g.countryCode == regionId.GetOr("unknown") && g.region == ComputeRegion(g.countryCode)
    ensures g.localeIdentifier == localeId
    ensures g.currencyCode == currency.GetOr("USD") && g.languageCode == language.GetOr("en")
  {
    var code := regionId.GetOr("unknown");
    GeoContext(code, ComputeRegion(code), localeId, currency.GetOr("USD"), language.GetOr("en"))
  }

  /** `GeoContext.empty()`: every field "unknown", so its region is none of the labels a capture produces. */
  function Empty(): (g: GeoContext)
    ensures g.countryCode == g.region == g.localeIdentifier == g.currencyCode == g.languageCode == "unknown"
    ensures g.region !in RegionLabels
  {
    GeoContext("unknown", "unknown", "unknown", "unknown", "unknown")
  }

  // Coding keys: country_code, region, locale_identifier, currency_code, language_code.

  function Encode(g: GeoContext): (j: Json)
    ensures j.JObject? && j.fields.Keys == {"country_code", "region", "locale_identifier", "currency_code", "language_code"}
  {
    JObject(map[
      "country_code" := JString(g.countryCode),
      "region" := JString(g.region),
      "locale_identifier" := JString(g.localeIdentifier),
      "currency_code" := JString(g.currencyCode),
      "language_code" := JString(g.languageCode)])
  }

  function Decode(j: Json): Option<GeoContext> {
    var countryCode :- StringField(j, "country_code");
    var region :- StringField(j, "region");
    var localeIdentifier :- StringField(j, "locale_identifier");
    var currencyCode :- StringField(j, "currency_code");
    var languageCode :- StringField(j, "language_code");
    Some(GeoContext(countryCode, region, localeIdentifier, currencyCode, languageCode))
  }

  lemma RoundTrip(g: GeoContext)
    ensures Decode(Encode(g)) == Some(g)
  {
  }
}

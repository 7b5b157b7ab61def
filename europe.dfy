/**
 * The static country list behind the FROM_EUROPE expression function
 * (server/data/countriesInEurope.ts), and the OR-chain it compiles to.
 */
module Europe {
  import opened Text

  /** The `country` field of every entry of the list, in list order. */
  const CountriesInEurope: seq<string> := [
      "Hungary",
      "Belarus",
      "Austria",
      "Serbia",
      "Switzerland",
      "Germany",
      "Holy",
      "Andorra",
      "Bulgaria",
      "United Kingdom",
      "France",
      "Montenegro",
      "Luxembourg",
      "Italy",
      "Denmark",
      "Finland",
      "Slovakia",
      "Norway",
      "Ireland",
      "Spain",
      "Malta",
      "Ukraine",
      "Croatia",
      "Moldova",
      "Monaco",
      "Liechtenstein",
      "Poland",
      "Iceland",
      "San",
      "Bosnia and Herzegovina",
      "Albania",
      "Lithuania",
      "North Macedonia",
      "Slovenia",
      "Romania",
      "Latvia",
      "Netherlands",
      "Russia",
      "Estonia",
      "Belgium",
      "Czech Republic",
      "Greece",
      "Portugal",
      "Sweden"
    ]

  /** One comparison of the `country` column per listed country, in list order. */
  function CountryComparisons(): (r: seq<string>)
    ensures |r| == |CountriesInEurope| == 44
    ensures forall i :: 0 <= i < |r| ==> r[i] == "country = \"" + CountriesInEurope[i] + "\""
  {
    Render(CountriesInEurope, (c: string) => "country = \"" + c + "\"")
  }

  /** The SQL that FROM_EUROPE compiles to: the comparisons joined by " OR ". */
  function FromEuropeSql(): (r: string)
    ensures var first := "country = \"" + CountriesInEurope[0] + "\"";
      |r| > |first| + 4 && r[..|first| + 4] == first + " OR "
  {
    var parts := CountryComparisons();
    assert Join(parts, " OR ") == (parts[0] + " OR ") + Join(parts[1..], " OR ");
    Join(parts, " OR ")
  }
}

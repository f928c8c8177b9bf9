/** The regional airport matcher of app/hooks/useAirportSearch.ts: a
    case-insensitive substring search over a fixed list, capped at ten results. */
module AirportSearch {
  import opened Wrappers
  import opened Ascii
  import opened Listing

  datatype Airport = Airport(iata: string, name: string, city: string, state: Option<string>, country: string)

  /** The most results a search returns. */
  const MaxResults: nat := 10

  /** The curated list the hook keeps in state and never replaces. */
  const RegionalAirports: seq<Airport> := [
    Airport("KBDN", "Bend Municipal Airport", "Bend", Some("OR"), "USA"),
    Airport("KRDM", "Roberts Field", "Redmond", Some("OR"), "USA"),
    Airport("KEUG", "Mahlon Sweet Field", "Eugene", Some("OR"), "USA"),
    Airport("KPDX", "Portland International", "Portland", Some("OR"), "USA"),
    Airport("KSEA", "Seattle-Tacoma International", "Seattle", Some("WA"), "USA"),
    Airport("KBFI", "Boeing Field", "Seattle", Some("WA"), "USA"),
    Airport("KPAE", "Paine Field", "Everett", Some("WA"), "USA"),
    Airport("KGEG", "Spokane International", "Spokane", Some("WA"), "USA"),
    Airport("KBOI", "Boise Airport", "Boise", Some("ID"), "USA"),
    Airport("KSUN", "Friedman Memorial", "Sun Valley", Some("ID"), "USA"),
    Airport("KTWF", "Magic Valley Regional", "Twin Falls", Some("ID"), "USA"),
    Airport("KSLC", "Salt Lake City International", "Salt Lake City", Some("UT"), "USA"),
    Airport("KLAS", "Harry Reid International", "Las Vegas", Some("NV"), "USA"),
    Airport("KRNO", "Reno-Tahoe International", "Reno", Some("NV"), "USA"),
    Airport("KSMF", "Sacramento International", "Sacramento", Some("CA"), "USA"),
    Airport("KSFO", "San Francisco International", "San Francisco", Some("CA"), "USA"),
    Airport("KSJC", "Norman Y. Mineta San Jose", "San Jose", Some("CA"), "USA"),
    Airport("KLAX", "Los Angeles International", "Los Angeles", Some("CA"), "USA"),
    Airport("KSAN", "San Diego International", "San Diego", Some("CA"), "USA"),
    Airport("KPHX", "Phoenix Sky Harbor", "Phoenix", Some("AZ"), "USA"),
    Airport("KDEN", "Denver International", "Denver", Some("CO"), "USA"),
    Airport("KASE", "Aspen-Pitkin County", "Aspen", Some("CO"), "USA"),
    Airport("KEGE", "Eagle County Regional", "Vail", Some("CO"), "USA"),
    Airport("KMSO", "Missoula International", "Missoula", Some("MT"), "USA"),
    Airport("KBZN", "Bozeman Yellowstone", "Bozeman", Some("MT"), "USA"),
    Airport("KJAC", "Jackson Hole Airport", "Jackson", Some("WY"), "USA"),
    Airport("KOAK", "Oakland International", "Oakland", Some("CA"), "USA"),
    Airport("KBUR", "Hollywood Burbank", "Burbank", Some("CA"), "USA"),
    Airport("KSNA", "John Wayne Airport", "Santa Ana", Some("CA"), "USA"),
    Airport("KPSP", "Palm Springs International", "Palm Springs", Some("CA"), "USA")
  ]

  /** The filter's test: the lower-cased term occurs in the lower-cased code, name
      or city, or in the state when the airport has a non-empty one. */
  predicate Matches(a: Airport, term: string) {
    Contains(ToLower(a.iata), term) ||
    Contains(ToLower(a.name), term) ||
    Contains(ToLower(a.city), term) ||
    (Present(a.state) && Contains(ToLower(a.state.value), term))
  }

  function Matcher(term: string): Airport -> bool {
    a => Matches(a, term)
  }

  /** `searchAirports(query)` over the given list. */
  function SearchAirports(airports: seq<Airport>, query: string): (r: seq<Airport>)
    ensures |query| < 2 ==> r == []
    ensures |r| <= MaxResults
    ensures forall k :: 0 <= k < |r| ==> r[k] in airports && Matches(r[k], ToLower(query))
  {
    if |query| < 2 then []
    else Take(Filter(Matcher(ToLower(query)), airports), MaxResults)
  }

  /** The hook's own entry point: the search always runs over the curated list. */
  function HookSearch(query: string): (r: seq<Airport>)
    ensures |r| <= MaxResults
    ensures forall k :: 0 <= k < |r| ==> r[k] in RegionalAirports
  {
    SearchAirports(RegionalAirports, query)
  }

  /** The results keep the order of the list they were drawn from. */
  lemma SearchInListOrder(airports: seq<Airport>, query: string)
    ensures IsSubsequence(SearchAirports(airports, query), airports)
  {
    if |query| >= 2 {
      TakeFilterIsSubsequence(Matcher(ToLower(query)), airports, MaxResults);
    }
  }

  /** The number of results is the number of matching airports, capped at ten. */
  lemma SearchSize(airports: seq<Airport>, query: string)
    requires |query| >= 2
    ensures var n := Count(Matcher(ToLower(query)), airports);
            |SearchAirports(airports, query)| == if n <= MaxResults then n else MaxResults
  {
    FilterLength(Matcher(ToLower(query)), airports);
  }

  /** No match is skipped before the cap: a matching airport with fewer than ten
      matches ahead of it in the list is returned, at the position given by that
      number of matches. */
  lemma SearchKeepsEarlyMatches(airports: seq<Airport>, query: string, i: nat)
    requires |query| >= 2 && i < |airports| && Matches(airports[i], ToLower(query))
    requires Count(Matcher(ToLower(query)), airports[..i]) < MaxResults
    ensures var k := Count(Matcher(ToLower(query)), airports[..i]);
            k < |SearchAirports(airports, query)| && SearchAirports(airports, query)[k] == airports[i]
  {
    FilterAt(Matcher(ToLower(query)), airports, i);
  }

  /** Every result is a matching airport with fewer than ten matches ahead of it. */
  lemma SearchOnlyEarlyMatches(airports: seq<Airport>, query: string, k: nat)
    requires k < |SearchAirports(airports, query)|
    ensures exists i :: 0 <= i < |airports| && airports[i] == SearchAirports(airports, query)[k] &&
                        Matches(airports[i], ToLower(query)) &&
                        Count(Matcher(ToLower(query)), airports[..i]) == k < MaxResults
  {
    FilterFrom(Matcher(ToLower(query)), airports, k);
  }
}

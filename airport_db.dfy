/** The AirportDB lookup of app/hooks/useAirportDB.ts: a direct lookup for
    ICAO-shaped queries, a local fallback list for everything else and for every
    failure. The network request is an input: what it would answer is passed in
    as a LookupOutcome. */
module AirportDB {
  import opened Wrappers
  import opened Ascii
  import opened Listing

  datatype AirportDBResult = AirportDBResult(
    iata: string, icao: string, name: string, city: string, state: Option<string>, country: string,
    elevation: Option<real>, lat: Option<real>, lon: Option<real>)

  /** The fields of an airportdb.io airport record that the mapping reads; a field
      the answer leaves out is None. */
  datatype AirportRecord = AirportRecord(
    iata_code: Option<string>, icao_code: Option<string>, ident: Option<string>,
    name: Option<string>, municipality: Option<string>, region_name: Option<string>,
    iso_region: Option<string>, iso_country: Option<string>,
    elevation_ft: Option<real>, latitude_deg: Option<real>, longitude_deg: Option<real>)

  /** What the request for an ICAO code comes to. */
  datatype LookupOutcome =
    | Found(record: AirportRecord)   // an ok response whose body parsed
    | NotOk                          // a response whose status is not 2xx
    | Aborted                        // a later search aborted this request (AbortError)
    | Failed                         // any other thrown error: network, unparseable body

  const MaxResults: nat := 10
  const ApiBase: string := "https://airportdb.io/api/v1/airport/"

  /** The direct-lookup URL for an ICAO code: the code, then the token as a query parameter. */
  function LookupUrl(icao: string, apiToken: string): (u: string)
    ensures |u| == |ApiBase| + |icao| + 10 + |apiToken|
    ensures u[..|ApiBase|] == ApiBase && u[|ApiBase|..|ApiBase| + |icao|] == icao
    ensures u[|ApiBase| + |icao|..] == "?apiToken=" + apiToken
  {
    ApiBase + icao + "?apiToken=" + apiToken
  }

  /** The fallback list of getFallbackAirports; every ICAO code is 'K' and the IATA code. */
  const FallbackList: seq<AirportDBResult> := [
    AirportDBResult("BDN", "KBDN", "Bend Municipal Airport", "Bend", Some("OR"), "USA", None, None, None),
    AirportDBResult("RDM", "KRDM", "Roberts Field", "Redmond", Some("OR"), "USA", None, None, None),
    AirportDBResult("EUG", "KEUG", "Mahlon Sweet Field", "Eugene", Some("OR"), "USA", None, None, None),
    AirportDBResult("PDX", "KPDX", "Portland International", "Portland", Some("OR"), "USA", None, None, None),
    AirportDBResult("SEA", "KSEA", "Seattle-Tacoma International", "Seattle", Some("WA"), "USA", None, None, None),
    AirportDBResult("BFI", "KBFI", "Boeing Field", "Seattle", Some("WA"), "USA", None, None, None),
    AirportDBResult("PAE", "KPAE", "Paine Field", "Everett", Some("WA"), "USA", None, None, None),
    AirportDBResult("GEG", "KGEG", "Spokane International", "Spokane", Some("WA"), "USA", None, None, None),
    AirportDBResult("BOI", "KBOI", "Boise Airport", "Boise", Some("ID"), "USA", None, None, None),
    AirportDBResult("SUN", "KSUN", "Friedman Memorial", "Sun Valley", Some("ID"), "USA", None, None, None),
    AirportDBResult("SLC", "KSLC", "Salt Lake City International", "Salt Lake City", Some("UT"), "USA", None, None, None),
    AirportDBResult("LAS", "KLAS", "Harry Reid International", "Las Vegas", Some("NV"), "USA", None, None, None),
    AirportDBResult("RNO", "KRNO", "Reno-Tahoe International", "Reno", Some("NV"), "USA", None, None, None),
    AirportDBResult("SFO", "KSFO", "San Francisco International", "San Francisco", Some("CA"), "USA", None, None, None),
    AirportDBResult("SJC", "KSJC", "Norman Y. Mineta San Jose", "San Jose", Some("CA"), "USA", None, None, None),
    AirportDBResult("LAX", "KLAX", "Los Angeles International", "Los Angeles", Some("CA"), "USA", None, None, None),
    AirportDBResult("SAN", "KSAN", "San Diego International", "San Diego", Some("CA"), "USA", None, None, None),
    AirportDBResult("PHX", "KPHX", "Phoenix Sky Harbor", "Phoenix", Some("AZ"), "USA", None, None, None),
    AirportDBResult("DEN", "KDEN", "Denver International", "Denver", Some("CO"), "USA", None, None, None)
  ]

  /** The fallback filter's test: iata, icao, name, city or (non-empty) state. */
  predicate Matches(a: AirportDBResult, term: string) {
    Contains(ToLower(a.iata), term) ||
    Contains(ToLower(a.icao), term) ||
    Contains(ToLower(a.name), term) ||
    Contains(ToLower(a.city), term) ||
    (Present(a.state) && Contains(ToLower(a.state.value), term))
  }

  function Matcher(term: string): AirportDBResult -> bool {
    a => Matches(a, term)
  }

  /** The filter-then-truncate of getFallbackAirports over a given list: the
      entries matching the lower-cased, untrimmed query, in list order, at most ten. */
  function FilterList(list: seq<AirportDBResult>, query: string): (r: seq<AirportDBResult>)
    ensures |r| <= MaxResults
    ensures forall k :: 0 <= k < |r| ==> r[k] in list && Matches(r[k], ToLower(query))
  {
    Take(Filter(Matcher(ToLower(query)), list), MaxResults)
  }

  /** getFallbackAirports(query). */
  function FallbackAirports(query: string): seq<AirportDBResult> {
    FilterList(FallbackList, query)
  }

  lemma FallbackInListOrder(list: seq<AirportDBResult>, query: string)
    ensures IsSubsequence(FilterList(list, query), list)
  {
    TakeFilterIsSubsequence(Matcher(ToLower(query)), list, MaxResults);
  }

  /** A matching entry with fewer than ten matches ahead of it is returned, at the
      position given by that number of matches. */
  lemma FallbackKeepsEarlyMatches(list: seq<AirportDBResult>, query: string, i: nat)
    requires i < |list| && Matches(list[i], ToLower(query))
    requires Count(Matcher(ToLower(query)), list[..i]) < MaxResults
    ensures var k := Count(Matcher(ToLower(query)), list[..i]);
            k < |FilterList(list, query)| && FilterList(list, query)[k] == list[i]
  {
    FilterAt(Matcher(ToLower(query)), list, i);
  }

  lemma FallbackSize(list: seq<AirportDBResult>, query: string)
    ensures var n := Count(Matcher(ToLower(query)), list);
            |FilterList(list, query)| == if n <= MaxResults then n else MaxResults
  {
    FilterLength(Matcher(ToLower(query)), list);
  }

  /** The response-to-result mapping: each string field is the first present one
      of its source fields, else ''; icao falls back from icao_code to ident; the
      state is always set; the numbers are copied as they are. */
  function MapRecord(j: AirportRecord): (r: AirportDBResult)
    ensures r.iata == OrElse(j.iata_code, "") && r.name == OrElse(j.name, "")
    ensures r.city == OrElse(j.municipality, "") && r.country == OrElse(j.iso_country, "")
    ensures Present(j.icao_code) ==> r.icao == j.icao_code.value
    ensures !Present(j.icao_code) && Present(j.ident) ==> r.icao == j.ident.value
    ensures !Present(j.icao_code) && !Present(j.ident) ==> r.icao == ""
    ensures r.state.Some?
    ensures Present(j.region_name) ==> r.state.value == j.region_name.value
    ensures !Present(j.region_name) ==> r.state.value == OrElse(j.iso_region, "")
    ensures r.elevation == j.elevation_ft && r.lat == j.latitude_deg && r.lon == j.longitude_deg
  {
    AirportDBResult(
      OrElse(j.iata_code, ""),
      OrElse(j.icao_code, OrElse(j.ident, "")),
      OrElse(j.name, ""),
      OrElse(j.municipality, ""),
      Some(OrElse(j.region_name, OrElse(j.iso_region, ""))),
      OrElse(j.iso_country, ""),
      j.elevation_ft, j.latitude_deg, j.longitude_deg)
  }

  /** `/^[A-Z]{4}$/.test(term)`. */
  predicate IsIcaoShaped(term: string) {
    |term| == 4 && forall k :: 0 <= k < 4 ==> IsUpperLetter(term[k])
  }

  /** The state of the useAirportDB hook: its loading and error flags, and the
      URLs of the direct lookups it has issued. */
  class Hook {
    var loading: bool
    var error: Option<string>
    var requested: seq<string>
    /** getFallbackAirports's list, held by the hook so its methods refer to it by name. */
    const fallback: seq<AirportDBResult>

    constructor ()
      ensures !loading && error == None && requested == [] && fallback == FallbackList
    {
      loading, error, requested := false, None, [];
      fallback := FallbackList;
    }

    /** searchAirports(query), with the API token and the outcome of the direct
        lookup (if there is one) as inputs. */
    method Search(query: string, apiToken: Option<string>, outcome: LookupOutcome) returns (r: seq<AirportDBResult>)
      modifies this
      // a query under two characters once trimmed: nothing is searched or changed
      ensures |Trim(query)| < 2 ==> r == [] && unchanged(this)
      // no token: the fallback list, and nothing is issued or changed
      ensures |Trim(query)| >= 2 && !Present(apiToken) ==> r == FilterList(fallback, query) && unchanged(this)
      // with a token, the error is cleared and only an ICAO-shaped term is looked up
      ensures |Trim(query)| >= 2 && Present(apiToken) ==>
                error == None &&
                var term := ToUpper(Trim(query));
                requested == old(requested) + (if IsIcaoShaped(term) then [LookupUrl(term, apiToken.value)] else [])
      ensures |Trim(query)| >= 2 && Present(apiToken) && !IsIcaoShaped(ToUpper(Trim(query))) ==>
                r == FilterList(fallback, query) && !loading
      // an ICAO-shaped term: the record found, the fallback list when the lookup
      // fails, and nothing (with loading still set) when it is aborted
      ensures |Trim(query)| >= 2 && Present(apiToken) && IsIcaoShaped(ToUpper(Trim(query))) ==>
                loading == outcome.Aborted? &&
                r == (if outcome.Found? then [MapRecord(outcome.record)]
                      else if outcome.Aborted? then []
                      else FilterList(fallback, query))
    {
      if |Trim(query)| < 2 {
        return [];
      }
      if !Present(apiToken) {
        return FilterList(fallback, query);
      }
      r := SearchWithToken(query, apiToken.value, outcome);
    }

    /** The part of searchAirports past both guards: loading is set and the error
        cleared, an ICAO-shaped term is looked up directly, any other term is
        answered from the fallback list. */
    method SearchWithToken(query: string, apiToken: string, outcome: LookupOutcome) returns (r: seq<AirportDBResult>)
      modifies this
      ensures error == None
      ensures var term := ToUpper(Trim(query));
              requested == old(requested) + (if IsIcaoShaped(term) then [LookupUrl(term, apiToken)] else [])
      ensures !IsIcaoShaped(ToUpper(Trim(query))) ==> r == FilterList(fallback, query) && !loading
      ensures IsIcaoShaped(ToUpper(Trim(query))) ==>
                loading == outcome.Aborted? &&
                r == (if outcome.Found? then [MapRecord(outcome.record)]
                      else if outcome.Aborted? then []
                      else FilterList(fallback, query))
    {
      loading := true;
      error := None;
      var term := ToUpper(Trim(query));
      if IsIcaoShaped(term) {
        r := DirectLookup(query, term, apiToken, outcome);
      } else {
        r := FilterList(fallback, query);
        loading := false;
      }
    }

    /** The try block once the term is ICAO-shaped: the request is issued, and its
        outcome decides the result. An aborted request leaves loading set. */
    method DirectLookup(query: string, term: string, apiToken: string, outcome: LookupOutcome)
      returns (r: seq<AirportDBResult>)
      requires loading
      modifies this
      ensures error == old(error)
      ensures requested == old(requested) + [LookupUrl(term, apiToken)]
      ensures match outcome
              case Found(j) => r == [MapRecord(j)] && !loading
              case NotOk => r == FilterList(fallback, query) && !loading
              case Failed => r == FilterList(fallback, query) && !loading
              case Aborted => r == [] && loading
    {
      requested := requested + [LookupUrl(term, apiToken)];
      match outcome {
        case Found(j) =>
          loading := false;
          r := [MapRecord(j)];
        case NotOk =>
          r := FilterList(fallback, query);
          loading := false;
        case Aborted =>
          r := [];
        case Failed =>
          loading := false;
          r := FilterList(fallback, query);
      }
    }
  }

  /** Nothing in the hook ever sets an error: starting from the constructor's
      state, every search leaves the error flag cleared. */
  method SearchesNeverSetError(h: Hook, queries: seq<string>, apiToken: Option<string>, outcomes: seq<LookupOutcome>)
    requires h.error == None && |outcomes| == |queries|
    modifies h
    ensures h.error == None
  {
    var i := 0;
    while i < |queries|
      invariant 0 <= i <= |queries|
      invariant h.error == None
    {
      var _ := h.Search(queries[i], apiToken, outcomes[i]);
      i := i + 1;
    }
  }
}

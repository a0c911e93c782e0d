/**
 * The `/` handler's choice of location and the URI of the forecast request.
 * The HTTP server, the `fetch` call and JSON decoding are not part of this
 * model.
 */
module Request {
  import opened Weather

  /**
   * `req.query.location` as the query-string parser yields it: absent, one
   * value, or several values when the parameter is repeated.
   */
  datatype QueryValue = Absent | Single(value: string) | Repeated(values: seq<string>)

  /** `Array.prototype.join` with separator `sep`. */
  function Join(values: seq<string>, sep: string): string
    decreases |values|
  {
    if values == [] then ""
    else if |values| == 1 then values[0]
    else values[0] + sep + Join(values[1..], sep)
  }

  /** `req.query.location?.toString()`: undefined when absent; several values are joined with ",". */
  function QueryText(query: QueryValue): Option<string> {
    match query
    case Absent => None
    case Single(v) => Some(v)
    case Repeated(vs) => Some(Join(vs, ","))
  }

  /**
   * `query || remoteAddress`: the query text when it is present and not empty
   * (`||` treats "" as absent), otherwise the socket's remote address.
   */
  function ChooseLocation(query: QueryValue, remoteAddress: string): (location: string)
    ensures QueryText(query).Some? && QueryText(query).value != "" ==> location == QueryText(query).value
    ensures QueryText(query).None? || QueryText(query).value == "" ==> location == remoteAddress
  {
    match QueryText(query)
    case Some(text) => if text != "" then text else remoteAddress
    case None => remoteAddress
  }

  const ForecastEndpoint := "https://api.weatherapi.com/v1/forecast.json"

  /** Everything of the URI before the location. */
  function UriPrefix(key: string): string {
    ForecastEndpoint + "?key=" + key + "&q="
  }

  /** The forecast request's URI: key and location are inserted as they are, without escaping. */
  function ForecastUri(key: string, location: string): (uri: string)
    ensures |uri| == |UriPrefix(key)| + |location|
    ensures uri[..|ForecastEndpoint|] == ForecastEndpoint
    ensures uri[|uri| - |location|..] == location
  {
    UriPrefix(key) + location
  }

  /** The location a URI built for `key` asks for: what follows its fixed prefix. */
  function RequestedLocation(uri: string, key: string): Option<string> {
    var p := UriPrefix(key);
    if |p| <= |uri| && uri[..|p|] == p then Some(uri[|p|..]) else None
  }

  /** The location reaches the URI verbatim: it can be read back unchanged, whatever characters it holds. */
  lemma LocationReadBack(key: string, location: string)
    ensures RequestedLocation(ForecastUri(key, location), key) == Some(location)
  {
  }

  /** Without a usable `location` parameter the weather API is asked about the caller's address. */
  lemma MissingLocationQueriesRemoteAddress(query: QueryValue, remoteAddress: string, key: string)
    requires QueryText(query).None? || QueryText(query).value == ""
    ensures RequestedLocation(ForecastUri(key, ChooseLocation(query, remoteAddress)), key) == Some(remoteAddress)
  {
  }
}

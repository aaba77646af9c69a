/**
 * The pieces of Go's net/http that the proxy manipulates: a header is a map from
 * (already canonical) key to its list of values; requests, URLs and responses are
 * objects whose fields the proxy updates in place.
 */
module Http {
  import opened Wrappers

  type HeaderMap = map<string, seq<string>>

  /** The values stored under `key`, or none. */
  function Values(h: HeaderMap, key: string): seq<string>
  {
    if key in h then h[key] else []
  }

  /** Header.Get: the first value stored under `key`, or "" when there is none. */
  function FirstValue(h: HeaderMap, key: string): string
  {
    if key in h && |h[key]| > 0 then h[key][0] else ""
  }

  /** http.Header: a map the code shares by reference and changes in place. */
  class Header {
    var entries: HeaderMap

    /** make(http.Header) */
    constructor ()
      ensures entries == map[]
    {
      entries := map[];
    }

    constructor FromMap(m: HeaderMap)
      ensures entries == m
    {
      entries := m;
    }

    function Get(key: string): string
      reads this
    {
      FirstValue(entries, key)
    }

    /** Header.Add: appends `value` after the values already under `key`. */
    method Add(key: string, value: string)
      modifies this
      ensures entries == old(entries)[key := Values(old(entries), key) + [value]]
    {
      entries := entries[key := Values(entries, key) + [value]];
    }

    /** Header.Set: replaces the values under `key` by the single `value`. */
    method Set(key: string, value: string)
      modifies this
      ensures entries == old(entries)[key := [value]]
    {
      entries := entries[key := [value]];
    }

    /** Header.Del: removes `key` and its values. */
    method Del(key: string)
      modifies this
      ensures entries == old(entries) - {key}
    {
      entries := entries - {key};
    }
  }

  /** The four URL fields the director reads or writes, as a value. */
  datatype UrlParts = UrlParts(scheme: string, host: string, path: string, rawQuery: string)

  /** url.URL, reduced to the fields the proxy uses. */
  class Url {
    var scheme: string
    var host: string
    var path: string
    var rawQuery: string

    function Parts(): UrlParts
      reads this
    {
      UrlParts(scheme, host, path, rawQuery)
    }
  }

  /**
   * http.Request, reduced to the fields the proxy uses. `url` and `header` are
   * references, so a shallow copy shares them with the original. `remoteIP` is the
   * host part that net.SplitHostPort extracts from RemoteAddr, or None when that
   * call fails.
   */
  class Request {
    const httpMethod: string
    var host: string
    const url: Url
    var header: Header
    const remoteIP: Option<string>
    var close: bool

    /** `*outreq = *r`: a new request with the same field values, references included. */
    constructor ShallowCopy(r: Request)
      ensures httpMethod == r.httpMethod && host == r.host && url == r.url
      ensures header == r.header && remoteIP == r.remoteIP && close == r.close
    {
      httpMethod, host, url, header, remoteIP, close := r.httpMethod, r.host, r.url, r.header, r.remoteIP, r.close;
    }
  }

  /**
   * http.Response as the transport returns it. `trailer` holds the trailer names
   * the backend announced; their values arrive only after the body.
   */
  class Response {
    const statusCode: int
    const header: Header
    const trailer: HeaderMap

    constructor (statusCode: int, header: Header, trailer: HeaderMap)
      ensures this.statusCode == statusCode && this.header == header && this.trailer == trailer
    {
      this.statusCode, this.header, this.trailer := statusCode, header, trailer;
    }
  }
}

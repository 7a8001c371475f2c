/** The outgoing request that Foundation's URLRequest represents: the "wire request". */
module Wire {
  import opened Wrappers
  import opened Bytes

  type Url = string

  /** Header fields keyed by their ASCII-lower-cased name, because URLRequest looks names up
      case-insensitively. */
  type HeaderMap = map<string, string>

  /** URLRequest.CachePolicy. */
  datatype CachePolicy =
    | UseProtocolCachePolicy
    | ReloadIgnoringLocalCacheData
    | ReloadIgnoringLocalAndRemoteCacheData
    | ReturnCacheDataElseLoad
    | ReturnCacheDataDontLoad
    | ReloadRevalidatingCacheData

  /** Seconds; only ever copied, never computed with. */
  type TimeInterval = real

  datatype WireRequest = WireRequest(
    url: Url,
    httpMethod: string,
    headers: HeaderMap,
    body: Option<Bytes>,
    timeout: TimeInterval,
    cachePolicy: CachePolicy)

  /** URLRequest's own default timeout. */
  const DefaultTimeout: TimeInterval := 60.0

  /** `URLRequest(url:)`: GET, no header, no body, the default timeout and cache policy. */
  function NewWireRequest(url: Url): (w: WireRequest)
    ensures w.url == url && w.httpMethod == "GET" && w.headers == map[] && w.body == None
    ensures w.timeout == DefaultTimeout && w.cachePolicy == UseProtocolCachePolicy
  {
    WireRequest(url, "GET", map[], None, DefaultTimeout, UseProtocolCachePolicy)
  }

  function HeaderKey(name: string): string {
    Lower(name)
  }

  /** `value(forHTTPHeaderField:)`. */
  function HeaderValue(h: HeaderMap, name: string): (r: Option<string>)
    ensures r.Some? <==> HeaderKey(name) in h
  {
    if HeaderKey(name) in h then Some(h[HeaderKey(name)]) else None
  }

  /** `setValue(_:forHTTPHeaderField:)`: sets (or replaces) one field, touches no other. */
  function SetHeader(h: HeaderMap, name: string, value: string): (r: HeaderMap)
    ensures HeaderValue(r, name) == Some(value)
    ensures r.Keys == h.Keys + {HeaderKey(name)}
    ensures forall k :: k in h && k != HeaderKey(name) ==> r[k] == h[k]
  {
    h[HeaderKey(name) := value]
  }

  /** One step of the caller-header loop: set the field only where it is still absent. */
  function AddIfAbsent(h: HeaderMap, header: (string, string)): HeaderMap {
    if HeaderValue(h, header.0) == None then SetHeader(h, header.0, header.1) else h
  }

  /** The caller headers merged, in iteration order, over `h`: first write wins, and a
      field that was already present is never replaced by a caller header. */
  function MergedHeaders(h: HeaderMap, headers: seq<(string, string)>): (m: HeaderMap)
    ensures forall k :: k in h ==> k in m && m[k] == h[k]
    decreases |headers|
  {
    if headers == [] then h
    else AddIfAbsent(MergedHeaders(h, headers[..|headers| - 1]), headers[|headers| - 1])
  }

  function HeaderKeys(headers: seq<(string, string)>): set<string> {
    set i | 0 <= i < |headers| :: HeaderKey(headers[i].0)
  }

  /** The merged map holds exactly the old names and the caller's names. */
  lemma {:induction false} MergedKeys(h: HeaderMap, headers: seq<(string, string)>)
    ensures MergedHeaders(h, headers).Keys == h.Keys + HeaderKeys(headers)
    decreases |headers|
  {
    if headers != [] {
      var n := |headers| - 1;
      MergedKeys(h, headers[..n]);
      assert HeaderKeys(headers) == HeaderKeys(headers[..n]) + {HeaderKey(headers[n].0)} by {
        forall k | k in HeaderKeys(headers) ensures k in HeaderKeys(headers[..n]) + {HeaderKey(headers[n].0)} {
          var i :| 0 <= i < |headers| && k == HeaderKey(headers[i].0);
          if i < n {
            assert headers[..n][i] == headers[i];
          }
        }
        forall k | k in HeaderKeys(headers[..n]) ensures k in HeaderKeys(headers) {
          var i :| 0 <= i < n && k == HeaderKey(headers[..n][i].0);
          assert headers[..n][i] == headers[i];
        }
      }
    }
  }

  /** A field that was absent takes the value of the first caller header with that name. */
  lemma {:induction false} MergedFirstWins(h: HeaderMap, headers: seq<(string, string)>, i: nat)
    requires i < |headers| && HeaderKey(headers[i].0) !in h
    requires forall j :: 0 <= j < i ==> HeaderKey(headers[j].0) != HeaderKey(headers[i].0)
    ensures HeaderValue(MergedHeaders(h, headers), headers[i].0) == Some(headers[i].1)
    decreases |headers|
  {
    var n := |headers| - 1;
    var k := HeaderKey(headers[i].0);
    if i < n {
      assert headers[..n][i] == headers[i];
      MergedFirstWins(h, headers[..n], i);
    } else {
      MergedKeys(h, headers[..n]);
    }
  }

  /** The caller-header loop, `for header in headers where value(forHTTPHeaderField:) == nil`. */
  method MergeHeaders(w: WireRequest, headers: Option<seq<(string, string)>>) returns (r: WireRequest)
    ensures r == w.(headers := MergedHeaders(w.headers, headers.GetOr([])))
  {
    r := w;
    if headers.Some? {
      var hs := headers.value;
      for i := 0 to |hs|
        invariant r == w.(headers := MergedHeaders(w.headers, hs[..i]))
      {
        assert hs[..i + 1][..i] == hs[..i];
        if HeaderValue(r.headers, hs[i].0) == None {
          r := r.(headers := SetHeader(r.headers, hs[i].0, hs[i].1));
        }
      }
      assert hs[..|hs|] == hs;
    }
  }
}

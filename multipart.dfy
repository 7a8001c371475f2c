/** MultipartDataField and MultipartData: a multipart/form-data body built in a byte buffer
    (section 4 of RFC 7578; delimiters as in section 5.1.1 of RFC 2046). */
module Multipart {
  import opened Wrappers
  import opened Bytes
  import Base64
  import opened Wire
  import opened Errors
  import opened HttpMethod
  import opened Authentication
  import opened MutableDataBuffer

  /** One form field: its parameters in the dictionary's iteration order, the payload and
      an optional MIME type. */
  datatype MultipartDataField = MultipartDataField(
    parameters: seq<(string, string)>,
    data: Bytes,
    mimeType: Option<string>)

  const CRLF: string := "\r\n"

  /** `"Boundary-"` followed by the lower-cased UUID string of the instance. */
  function BoundaryFor(uuid: string): (b: string)
    ensures |b| == 9 + |uuid| && b[..9] == "Boundary-" && b[9..] == Lower(uuid)
  {
    "Boundary-" + Lower(uuid)
  }

  function Delimiter(boundary: string): string {
    "--" + boundary + CRLF
  }

  function CloseDelimiter(boundary: string): string {
    "--" + boundary + "--"
  }

  function MultipartContentType(boundary: string): string {
    "multipart/form-data; boundary=" + boundary
  }

  function Parameter(p: (string, string)): string {
    "; " + p.0 + "=\"" + p.1 + "\""
  }

  /** The `; key="value"` list, one entry per parameter in iteration order. */
  function ParametersText(ps: seq<(string, string)>): string
    decreases |ps|
  {
    if ps == [] then "" else ParametersText(ps[..|ps| - 1]) + Parameter(ps[|ps| - 1])
  }

  function DispositionLine(ps: seq<(string, string)>): string {
    "Content-Disposition: form-data" + ParametersText(ps) + CRLF
  }

  function ContentTypeLine(mimeType: Option<string>): string {
    if mimeType.Some? then "Content-Type: " + mimeType.value + CRLF else ""
  }

  /** Everything of a field that comes before its Base64 payload. */
  function FieldHeader(boundary: string, f: MultipartDataField): string {
    Delimiter(boundary) + DispositionLine(f.parameters) + ContentTypeLine(f.mimeType) + CRLF
  }

  /** The text of one field: delimiter, disposition, optional type line, blank line,
      Base64 payload, line break. */
  function FieldText(boundary: string, f: MultipartDataField): string {
    FieldHeader(boundary, f) + Base64.Encode(f.data) + CRLF
  }

  /** The bytes of one field: they open with the delimiter and close with a line break. */
  function FieldBytes(boundary: string, f: MultipartDataField): (r: Bytes)
    ensures |r| >= |Utf8(Delimiter(boundary))| + |Utf8(CRLF)|
    ensures r[..|Utf8(Delimiter(boundary))|] == Utf8(Delimiter(boundary))
    ensures r[|r| - |Utf8(CRLF)|..] == Utf8(CRLF)
  {
    var d, rest := Delimiter(boundary), DispositionLine(f.parameters) + ContentTypeLine(f.mimeType) + CRLF + Base64.Encode(f.data);
    assert FieldText(boundary, f) == d + rest + CRLF;
    Utf8Framed(d, rest, CRLF);
    Utf8(FieldText(boundary, f))
  }

  /** The UTF-8 bytes of `open + middle + close` start with those of `open` and end with
      those of `close`. */
  lemma Utf8Framed(open: string, middle: string, close: string)
    ensures var r := Utf8(open + middle + close);
            && |r| >= |Utf8(open)| + |Utf8(close)|
            && r[..|Utf8(open)|] == Utf8(open)
            && r[|r| - |Utf8(close)|..] == Utf8(close)
  {
    Utf8Append(open, middle);
    Utf8Append(open + middle, close);
  }

  /** `FieldBytes` under a fixed boundary. */
  function FieldBytesWith(boundary: string): MultipartDataField -> Bytes {
    f => FieldBytes(boundary, f)
  }

  /** The bytes `g` gives each element of `xs`, one after the other. */
  function Joined<T>(g: T -> Bytes, xs: seq<T>): Bytes
    decreases |xs|
  {
    if xs == [] then [] else Joined(g, xs[..|xs| - 1]) + g(xs[|xs| - 1])
  }

  /** The bytes of several fields, in order. */
  function FieldsBytes(boundary: string, fs: seq<MultipartDataField>): Bytes {
    Joined(FieldBytesWith(boundary), fs)
  }

  /** The request MultipartData.asURLRequest builds over a buffer holding `bodySoFar`. */
  function MultipartRequest(
    boundary: string, bodySoFar: Bytes, url: Url, m: Method, headers: Option<seq<(string, string)>>,
    cachePolicy: CachePolicy, timeout: Option<TimeInterval>, auth: AuthenticationPolicy, round: nat
  ): (r: Result<WireRequest, ExternalFault>)
    ensures var a := Authenticate(auth.provider, round, NewWireRequest(url).(cachePolicy := cachePolicy));
            (r.Failure? <==> a.Failure?) && (r.Failure? ==> r.error == a.error)
  {
    var w0 := NewWireRequest(url).(cachePolicy := cachePolicy);
    match Authenticate(auth.provider, round, w0)
    case Failure(f) => Failure(f)
    case Success(w1) =>
      var w2 := w1.(headers := MergedHeaders(w1.headers, headers.GetOr([])));
      var w3 := w2.(httpMethod := RawValue(m),
                    headers := SetHeader(w2.headers, "Content-Type", MultipartContentType(boundary)));
      var w4 := w3.(body := Some(bodySoFar + Utf8(CloseDelimiter(boundary))));
      Success(if timeout.Some? then w4.(timeout := timeout.value) else w4)
  }

  class MultipartData {
    const boundary: string
    const httpBody: MutableData

    /** A new builder: a fresh boundary from the given UUID and an empty body. */
    constructor (uuid: string)
      ensures boundary == BoundaryFor(uuid)
      ensures fresh(httpBody) && httpBody.bytes == []
    {
      boundary := BoundaryFor(uuid);
      httpBody := new MutableData();
    }

    /** `dataFormField(_:)`: the bytes of one field, assembled in a scratch buffer. */
    method DataFormField(f: MultipartDataField) returns (d: Bytes)
      ensures d == FieldBytes(boundary, f)
    {
      var fieldData := new MutableData();
      fieldData.AppendString(Delimiter(boundary));
      var content := "Content-Disposition: form-data";
      var ps := f.parameters;
      for i := 0 to |ps|
        invariant content == "Content-Disposition: form-data" + ParametersText(ps[..i])
      {
        assert ps[..i + 1][..i] == ps[..i];
        assert ParametersText(ps[..i + 1]) == ParametersText(ps[..i]) + Parameter(ps[i]);
        content := content + "; " + ps[i].0 + "=\"" + ps[i].1 + "\"";
      }
      assert ps[..|ps|] == ps;
      content := content + CRLF;
      assert content == DispositionLine(f.parameters);
      fieldData.AppendString(content);
      ghost var before := fieldData.bytes;
      if f.mimeType.Some? {
        fieldData.AppendString("Content-Type: " + f.mimeType.value + CRLF);
      }
      assert fieldData.bytes == before + Utf8(ContentTypeLine(f.mimeType));
      fieldData.AppendString(CRLF);
      fieldData.AppendString(Base64.Encode(f.data));
      fieldData.AppendString(CRLF);
      d := fieldData.bytes;
      FieldBytesSplit(boundary, f);
    }

    /** `addDataField(_:)`: the field's bytes go at the end of the body. */
    method AddDataField(f: MultipartDataField)
      modifies httpBody
      ensures httpBody.bytes == old(httpBody.bytes) + FieldBytes(boundary, f)
    {
      var d := DataFormField(f);
      httpBody.Append(d);
    }

    /** `asURLRequest(url:method:headers:cachePolicy:timeoutInterval:authenticationPolicy:)`.
        Once authentication has succeeded the close delimiter is appended to the shared
        body, on every call. */
    method AsURLRequest(
      url: Url, m: Method, headers: Option<seq<(string, string)>>, cachePolicy: CachePolicy,
      timeout: Option<TimeInterval>, auth: AuthenticationPolicy, round: nat
    ) returns (r: Result<WireRequest, ExternalFault>)
      modifies httpBody
      ensures r == MultipartRequest(boundary, old(httpBody.bytes), url, m, headers, cachePolicy, timeout, auth, round)
      ensures httpBody.bytes == if r.Success? then old(httpBody.bytes) + Utf8(CloseDelimiter(boundary))
                                else old(httpBody.bytes)
    {
      var w := NewWireRequest(url);
      w := w.(cachePolicy := cachePolicy);
      var authenticated := Authenticate(auth.provider, round, w);
      if authenticated.Failure? {
        return Failure(authenticated.error);
      }
      w := authenticated.value;
      w := MergeHeaders(w, headers);
      w := w.(httpMethod := RawValue(m));
      w := w.(headers := SetHeader(w.headers, "Content-Type", MultipartContentType(boundary)));
      httpBody.AppendString(CloseDelimiter(boundary));
      w := w.(body := Some(httpBody.bytes));
      if timeout.Some? {
        w := w.(timeout := timeout.value);
      }
      r := Success(w);
    }
  }

  /** The field's bytes are the bytes of its pieces, in the order they are appended. */
  lemma FieldBytesSplit(boundary: string, f: MultipartDataField)
    ensures FieldBytes(boundary, f)
         == Utf8(Delimiter(boundary)) + Utf8(DispositionLine(f.parameters))
          + Utf8(ContentTypeLine(f.mimeType)) + Utf8(CRLF) + Utf8(Base64.Encode(f.data)) + Utf8(CRLF)
  {
    var a, b, c, e := Delimiter(boundary), DispositionLine(f.parameters), ContentTypeLine(f.mimeType), Base64.Encode(f.data);
    Utf8Append(a, b);
    Utf8Append(a + b, c);
    Utf8Append(a + b + c, CRLF);
    Utf8Append(a + b + c + CRLF, e);
    Utf8Append(a + b + c + CRLF + e, CRLF);
  }

  /** `s` holds `t` from position `p` on. */
  predicate OccursAt(s: string, t: string, p: nat) {
    p + |t| <= |s| && s[p..p + |t|] == t
  }

  /** The tail of a concatenation is its second part. */
  lemma SuffixAfter(a: string, b: string)
    ensures |a + b| >= |b| && (a + b)[|a + b| - |b|..] == b
  {
  }

  /** A part opens with the boundary delimiter and closes with a line break. */
  lemma FieldFraming(boundary: string, f: MultipartDataField)
    ensures OccursAt(FieldText(boundary, f), Delimiter(boundary), 0)
    ensures var t := FieldText(boundary, f); |t| >= 2 && t[|t| - 2..] == CRLF
  {
    var d, e := Delimiter(boundary), Base64.Encode(f.data);
    var rest := DispositionLine(f.parameters) + ContentTypeLine(f.mimeType) + CRLF + e + CRLF;
    var t := FieldText(boundary, f);
    assert t == d + rest;
    assert t[0..|d|] == d;
    SuffixAfter(FieldHeader(boundary, f) + e, CRLF);
  }

  /** The headers of a part end in a blank line. */
  lemma FieldHeaderEndsWithBlankLine(boundary: string, f: MultipartDataField)
    ensures var h := FieldHeader(boundary, f); |h| >= 4 && h[|h| - 4..] == CRLF + CRLF
  {
    var d, l := Delimiter(boundary), DispositionLine(f.parameters);
    var h := FieldHeader(boundary, f);
    if f.mimeType.Some? {
      assert h == (d + l + "Content-Type: " + f.mimeType.value) + (CRLF + CRLF);
      SuffixAfter(d + l + "Content-Type: " + f.mimeType.value, CRLF + CRLF);
    } else {
      assert h == (d + "Content-Disposition: form-data" + ParametersText(f.parameters)) + (CRLF + CRLF);
      SuffixAfter(d + "Content-Disposition: form-data" + ParametersText(f.parameters), CRLF + CRLF);
    }
  }

  /** The Content-Type line of a part follows its disposition line exactly when the field
      has a MIME type. */
  lemma ContentTypeLineIffMimeType(boundary: string, f: MultipartDataField)
    ensures OccursAt(FieldText(boundary, f), "Content-Type: ", |Delimiter(boundary)| + |DispositionLine(f.parameters)|)
            <==> f.mimeType.Some?
  {
    var d, l := Delimiter(boundary), DispositionLine(f.parameters);
    var rest := ContentTypeLine(f.mimeType) + CRLF + Base64.Encode(f.data) + CRLF;
    var t := FieldText(boundary, f);
    assert t == d + l + rest;
    assert t[|d| + |l|..] == rest;
    if f.mimeType.Some? {
      assert rest[..14] == "Content-Type: ";
    } else {
      assert rest[0] == '\r';
      assert t[|d| + |l|] == '\r';
    }
  }

  /** The payload of a part, between its headers and its final line break, decodes back to
      the field's data. */
  lemma PayloadDecodes(boundary: string, f: MultipartDataField)
    ensures var t, h := FieldText(boundary, f), |FieldHeader(boundary, f)|;
            h <= |t| - 2 && Base64.Decode(t[h..|t| - 2]) == Some(f.data)
  {
    var t, h := FieldText(boundary, f), FieldHeader(boundary, f);
    assert t == h + Base64.Encode(f.data) + CRLF;
    assert t[|h|..|t| - 2] == Base64.Encode(f.data);
    Base64.RoundTrip(f.data);
  }

  /** Adding fields in two batches gives the body of adding them all in order. */
  lemma FieldsBytesAppend(boundary: string, fs: seq<MultipartDataField>, gs: seq<MultipartDataField>)
    ensures FieldsBytes(boundary, fs + gs) == FieldsBytes(boundary, fs) + FieldsBytes(boundary, gs)
  {
    JoinedAppend(FieldBytesWith(boundary), fs, gs);
  }

  /** Joining two sequences one after the other is joining their concatenation. */
  lemma {:induction false} JoinedAppend<T>(g: T -> Bytes, xs: seq<T>, ys: seq<T>)
    ensures Joined(g, xs + ys) == Joined(g, xs) + Joined(g, ys)
    decreases |ys|
  {
    if ys != [] {
      var n := |ys| - 1;
      assert (xs + ys)[..|xs + ys| - 1] == xs + ys[..n] && (xs + ys)[|xs + ys| - 1] == ys[n];
      JoinedAppend(g, xs, ys[..n]);
    } else {
      assert xs + ys == xs;
    }
  }


  /** What `asURLRequest` builds once authentication succeeds: the given method, URL and
      cache policy, the timeout only when one is given, `Content-Type` naming the boundary
      whatever was there before, every other header the provider set kept, and the body so
      far followed by the close delimiter. */
  lemma MultipartRequestShape(
    boundary: string, bodySoFar: Bytes, url: Url, m: Method, headers: Option<seq<(string, string)>>,
    cachePolicy: CachePolicy, timeout: Option<TimeInterval>, auth: AuthenticationPolicy, round: nat)
    requires Authenticate(auth.provider, round, NewWireRequest(url).(cachePolicy := cachePolicy)).Success?
    ensures var r := MultipartRequest(boundary, bodySoFar, url, m, headers, cachePolicy, timeout, auth, round);
            var w1 := Authenticate(auth.provider, round, NewWireRequest(url).(cachePolicy := cachePolicy)).value;
            && r.Success?
            && r.value.httpMethod == RawValue(m)
            && r.value.url == w1.url && r.value.cachePolicy == w1.cachePolicy
            && r.value.timeout == (if timeout.Some? then timeout.value else w1.timeout)
            && HeaderValue(r.value.headers, "Content-Type") == Some(MultipartContentType(boundary))
            && (forall k :: k in w1.headers && k != HeaderKey("Content-Type") ==> k in r.value.headers && r.value.headers[k] == w1.headers[k])
            && r.value.body == Some(bodySoFar + Utf8(CloseDelimiter(boundary)))
  {
  }

  /** Building the request again appends a second close delimiter, so the second request
      differs from the first: `asURLRequest` is not idempotent. */
  lemma SecondBuildAppendsAgain(
    boundary: string, bodySoFar: Bytes, url: Url, m: Method, headers: Option<seq<(string, string)>>,
    cachePolicy: CachePolicy, timeout: Option<TimeInterval>, round: nat)
    ensures var close := Utf8(CloseDelimiter(boundary));
            var first := MultipartRequest(boundary, bodySoFar, url, m, headers, cachePolicy, timeout, NoAuthentication(), round);
            var second := MultipartRequest(boundary, bodySoFar + close, url, m, headers, cachePolicy, timeout, NoAuthentication(), round);
            && first.Success? && second.Success?
            && second.value.body == Some(bodySoFar + close + close)
            && first.value != second.value
  {
    var close := Utf8(CloseDelimiter(boundary));
    var first := MultipartRequest(boundary, bodySoFar, url, m, headers, cachePolicy, timeout, NoAuthentication(), round);
    var second := MultipartRequest(boundary, bodySoFar + close, url, m, headers, cachePolicy, timeout, NoAuthentication(), round);
    assert |first.value.body.value| < |second.value.body.value|;
  }
}

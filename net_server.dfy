/**
 * What the net server does with one request: route it to the HTTP handler or
 * the WebSocket handler, marshal the request into the script's view, turn the
 * handler's outcome into a response, and keep the task scheduler informed of
 * the background task that carries a WebSocket session.
 *
 * The transport, the WebSocket handshake, the Lua interpreter and the task
 * scheduler are outside the model: what they decide enters as parameters.
 */
module NetServer {
  import opened Wrappers
  import opened StrOps

  type byte = x: int | 0 <= x < 256
  type Bytes = seq<byte>

  /** `text` is the character reading of the bytes `v`, one char per byte. */
  predicate Encodes(text: string, v: Bytes) {
    |text| == |v| && forall k :: 0 <= k < |v| ==> text[k] as int == v[k]
  }

  /** The bytes of an ASCII text, for the fixed texts the server emits. */
  function AsciiBytes(s: string): (r: Bytes)
    requires forall i :: 0 <= i < |s| ==> s[i] as int < 128
    ensures Encodes(s, r)
  {
    seq(|s|, i requires 0 <= i < |s| => s[i] as int)
  }

  // ===========================================================================
  // Requests and the script's view of them
  // ===========================================================================

  /**
   * An incoming request, its body already collected. `isUpgrade` is what the
   * WebSocket library's upgrade-request test says about it.
   */
  datatype Request = Request(
    path: string,
    query: Option<string>,
    httpMethod: string,
    headers: seq<(string, Bytes)>,
    body: Bytes,
    isUpgrade: bool)

  /** The read-only table handed to the HTTP handler. */
  datatype RequestView = RequestView(
    path: string,
    query: map<string, string>,
    httpMethod: string,
    headers: map<string, string>,
    body: Bytes)

  /** No later pair has the key of pair `i`. */
  predicate LastForKey<K(==), V>(pairs: seq<(K, V)>, i: int)
    requires 0 <= i < |pairs|
  {
    forall j :: i < j < |pairs| ==> pairs[j].0 != pairs[i].0
  }

  /**
   * A table filled from `pairs` in order. Assumed behaviour of the table
   * builder: a later pair overwrites an earlier one with the same key.
   */
  function ToTable<K(==), V>(pairs: seq<(K, V)>): (m: map<K, V>)
    ensures m.Keys == set i | 0 <= i < |pairs| :: pairs[i].0
    ensures forall i :: 0 <= i < |pairs| && LastForKey(pairs, i) ==> m[pairs[i].0] == pairs[i].1
  {
    if |pairs| == 0 then map[]
    else
      var init := pairs[..|pairs| - 1];
      var last := pairs[|pairs| - 1];
      var m := ToTable(init)[last.0 := last.1];
      assert forall i :: 0 <= i < |init| ==> init[i] == pairs[i];
      assert m.Keys == set i | 0 <= i < |pairs| :: pairs[i].0 by {
        assert (set i | 0 <= i < |pairs| :: pairs[i].0)
            == (set i | 0 <= i < |init| :: init[i].0) + {last.0};
      }
      forall i | 0 <= i < |pairs| && LastForKey(pairs, i)
        ensures m[pairs[i].0] == pairs[i].1
      {
        if i < |init| {
          assert LastForKey(init, i);
        }
      }
      m
  }

  // ---------------------------------------------------------------------------
  // Query string: split('&'), then split_once('=') on each segment
  // ---------------------------------------------------------------------------

  /** `uri.query().unwrap_or_default()`. */
  function QueryText(query: Option<string>): (r: string)
    ensures r == "" <==> query.None? || query == Some("")
  {
    if query.Some? then query.value else ""
  }

  /**
   * `filter_map(|q| q.split_once('='))`: the segments holding `=`, in order,
   * each cut at its first `=`.
   */
  function KeyValuePairs(segments: seq<string>): (r: seq<(string, string)>)
    ensures |r| <= |segments|
    ensures forall p :: p in r ==> '=' !in p.0 && p.0 + ['='] + p.1 in segments
    ensures forall i :: 0 <= i < |segments| && '=' in segments[i] ==> SplitOnce(segments[i], '=').value in r
  {
    if |segments| == 0 then []
    else
      var rest := KeyValuePairs(segments[1..]);
      assert forall i :: 1 <= i < |segments| ==> segments[i] == segments[1..][i - 1];
      match SplitOnce(segments[0], '=')
      case None => rest
      case Some(kv) => [kv] + rest
  }

  /** Segments are handled one by one, so the pairs keep the segments' order. */
  lemma {:induction false} KeyValuePairsAppend(a: seq<string>, b: seq<string>)
    ensures KeyValuePairs(a + b) == KeyValuePairs(a) + KeyValuePairs(b)
  {
    if |a| > 0 {
      assert (a + b)[1..] == a[1..] + b;
      KeyValuePairsAppend(a[1..], b);
    } else {
      assert a + b == b;
    }
  }

  /**
   * The query parameters as the ordered list the table is filled from: each
   * one is an `&`-separated segment of the query cut at its first `=`.
   */
  function QueryPairs(query: Option<string>): (r: seq<(string, string)>)
    ensures forall p :: p in r ==> '=' !in p.0 && p.0 + ['='] + p.1 in Split(QueryText(query), '&')
    ensures forall p :: p in r ==> '&' !in p.0 && '&' !in p.1
  {
    var segments := Split(QueryText(query), '&');
    var r := KeyValuePairs(segments);
    assert forall p :: p in r ==> '&' !in p.0 && '&' !in p.1 by {
      forall p | p in r
        ensures '&' !in p.0 && '&' !in p.1
      {
        var seg := p.0 + ['='] + p.1;
        assert seg in segments;
        assert forall k :: 0 <= k < |p.0| ==> p.0[k] == seg[k];
        assert forall k :: 0 <= k < |p.1| ==> p.1[k] == seg[|p.0| + 1 + k];
      }
    }
    r
  }

  /** The `query` table of the request view: no key holds `=` or `&`. */
  function QueryParams(query: Option<string>): (r: map<string, string>)
    ensures forall k :: k in r ==> '=' !in k && '&' !in k
  {
    var pairs := QueryPairs(query);
    var r := ToTable(pairs);
    assert forall k :: k in r ==> '=' !in k && '&' !in k by {
      forall k | k in r
        ensures '=' !in k && '&' !in k
      {
        var i :| 0 <= i < |pairs| && pairs[i].0 == k;
        assert pairs[i] in pairs;
      }
    }
    r
  }

  /** A missing query and an empty one both give no parameters. */
  lemma QueryAbsent()
    ensures QueryParams(None) == map[]
    ensures QueryParams(Some("")) == map[]
  {
    assert Split("", '&') == [""];
  }

  /**
   * One segment `k=v`: the key is everything before the first `=` (possibly
   * nothing), the value everything after it (possibly more `=`).
   */
  lemma SingleQueryPair(k: string, v: string)
    requires '=' !in k && '&' !in k && '&' !in v
    ensures QueryPairs(Some(k + "=" + v)) == [(k, v)]
  {
    var seg := k + "=" + v;
    SplitNoSep(seg, '&');
    SplitOnceAt(k, '=', v);
  }

  /** Writing pairs as `k=v&k=v...` and parsing them gives the pairs back. */
  function EncodeQuery(pairs: seq<(string, string)>): string
    requires |pairs| >= 1
  {
    Join(seq(|pairs|, i requires 0 <= i < |pairs| => pairs[i].0 + "=" + pairs[i].1), '&')
  }

  predicate WellFormedPairs(pairs: seq<(string, string)>) {
    forall i :: 0 <= i < |pairs| ==>
      '=' !in pairs[i].0 && '&' !in pairs[i].0 && '&' !in pairs[i].1
  }

  lemma QueryRoundTrip(pairs: seq<(string, string)>)
    requires |pairs| >= 1 && WellFormedPairs(pairs)
    ensures QueryPairs(Some(EncodeQuery(pairs))) == pairs
  {
    var segs := seq(|pairs|, i requires 0 <= i < |pairs| => pairs[i].0 + "=" + pairs[i].1);
    SplitJoin(segs, '&');
    SegmentsToPairs(pairs, segs);
  }

  lemma {:induction false} SegmentsToPairs(pairs: seq<(string, string)>, segs: seq<string>)
    requires WellFormedPairs(pairs)
    requires |segs| == |pairs|
    requires forall i :: 0 <= i < |pairs| ==> segs[i] == pairs[i].0 + "=" + pairs[i].1
    ensures KeyValuePairs(segs) == pairs
  {
    if |pairs| > 0 {
      SplitOnceAt(pairs[0].0, '=', pairs[0].1);
      SegmentsToPairs(pairs[1..], segs[1..]);
    }
  }

  // ---------------------------------------------------------------------------
  // Header values: HeaderValue::to_str().unwrap()
  // ---------------------------------------------------------------------------

  /** `HeaderValue::to_str` succeeds exactly when every byte is visible ASCII or a tab. */
  predicate VisibleAscii(v: Bytes) {
    forall i :: 0 <= i < |v| ==> (32 <= v[i] < 127) || v[i] == 9
  }

  /** The text of a visible-ASCII header value. */
  function AsciiText(v: Bytes): (r: string)
    requires VisibleAscii(v)
    ensures Encodes(r, v)
  {
    seq(|v|, i requires 0 <= i < |v| => v[i] as char)
  }

  /**
   * The request's headers as text pairs, in the header map's order; None
   * where the source panics on a value that is not visible ASCII.
   */
  function HeaderStrings(headers: seq<(string, Bytes)>): (r: Option<seq<(string, string)>>)
    ensures r.None? <==> exists i :: 0 <= i < |headers| && !VisibleAscii(headers[i].1)
    ensures r.Some? ==> |r.value| == |headers| && forall i :: 0 <= i < |headers| ==>
              r.value[i].0 == headers[i].0 && Encodes(r.value[i].1, headers[i].1)
  {
    if |headers| == 0 then Some([])
    else if !VisibleAscii(headers[0].1) then None
    else match HeaderStrings(headers[1..])
      case None =>
        assert forall i :: 1 <= i < |headers| ==> headers[i] == headers[1..][i - 1];
        None
      case Some(rest) =>
        assert forall i :: 1 <= i < |headers| ==> headers[i] == headers[1..][i - 1];
        Some([(headers[0].0, AsciiText(headers[0].1))] + rest)
  }

  /** The request view, or None where building it panics on a header value. */
  function MarshalRequest(req: Request): (r: Option<RequestView>)
    ensures r.None? <==> exists i :: 0 <= i < |req.headers| && !VisibleAscii(req.headers[i].1)
  {
    match HeaderStrings(req.headers)
    case None => None
    case Some(headers) =>
      Some(RequestView(req.path, QueryParams(req.query), req.httpMethod, ToTable(headers), req.body))
  }

  /** With distinct names, every request header appears once in the view, its value intact. */
  lemma HeaderViewRoundTrip(req: Request)
    requires forall i, j :: 0 <= i < j < |req.headers| ==> req.headers[i].0 != req.headers[j].0
    requires forall i :: 0 <= i < |req.headers| ==> VisibleAscii(req.headers[i].1)
    ensures MarshalRequest(req).Some?
    ensures MarshalRequest(req).value.headers.Keys == set i | 0 <= i < |req.headers| :: req.headers[i].0
    ensures forall i :: 0 <= i < |req.headers| ==>
              Encodes(MarshalRequest(req).value.headers[req.headers[i].0], req.headers[i].1)
  {
    var hs := HeaderStrings(req.headers).value;
    var table := ToTable(hs);
    assert MarshalRequest(req).value.headers == table;
    assert (set i | 0 <= i < |hs| :: hs[i].0) == set i | 0 <= i < |req.headers| :: req.headers[i].0 by {
      assert forall i :: 0 <= i < |hs| ==> hs[i].0 == req.headers[i].0;
    }
    forall i | 0 <= i < |req.headers|
      ensures Encodes(table[req.headers[i].0], req.headers[i].1)
    {
      assert hs[i].0 == req.headers[i].0;
      assert LastForKey(hs, i);
    }
  }

  /** The view keeps everything else of the request as it came. */
  lemma MarshalKeepsRequest(req: Request)
    requires MarshalRequest(req).Some?
    ensures MarshalRequest(req).value.path == req.path
    ensures MarshalRequest(req).value.httpMethod == req.httpMethod
    ensures MarshalRequest(req).value.body == req.body
    ensures MarshalRequest(req).value.query == QueryParams(req.query)
  {
  }

  // ===========================================================================
  // Responses
  // ===========================================================================

  datatype Response = Response(status: int, headers: seq<(string, Bytes)>, body: Bytes)

  /** Which conversion of a returned table failed. */
  datatype ConversionTarget = StatusField | HeadersField | HeaderPair | BodyField

  datatype LuaError =
    | ConversionError(target: ConversionTarget)
    | ScriptError(message: string)
    | HandshakeError
    | SocketError
    | ThreadError

  /** The three places where the source unwraps or expects and would abort. */
  datatype PanicSite = HeaderToStr | ResponseBuild | WebSocketUpgrade

  /** The request future's end: a response, a failed future, or a panic. */
  datatype ResponseOutcome = Respond(response: Response) | Fail(error: LuaError) | Panic(site: PanicSite)

  /** A field of a returned table: nil, a value of the wanted type, or a value that does not convert. */
  datatype Field<T> = Absent | Present(value: T) | Unconvertible

  /** One `pairs` step over the `headers` table: a string key and string value, or a pair that does not convert. */
  datatype HeaderEntry = Entry(name: string, value: Bytes) | UnconvertibleEntry

  /** The three keys the server reads from a returned table; other keys are never read. */
  datatype ResponseTable = ResponseTable(status: Field<int>, headers: Field<seq<HeaderEntry>>, body: Field<Bytes>)

  /** What calling the HTTP handler gave. */
  datatype HandlerOutcome =
    | Raised(error: LuaError)
    | ReturnedString(text: Bytes)
    | ReturnedTable(table: ResponseTable)
    | ReturnedOther

  // ---------------------------------------------------------------------------
  // What the response builder accepts (the http crate's rules)
  // ---------------------------------------------------------------------------

  /** `StatusCode::from_u16` accepts three-digit codes. */
  predicate ValidStatus(code: int) {
    100 <= code <= 999
  }

  /** A token character of section 3.2.6 of RFC 7230. */
  predicate IsTokenChar(c: char) {
    ('a' <= c <= 'z') || ('A' <= c <= 'Z') || ('0' <= c <= '9') || c in "!#$%&'*+-.^_`|~"
  }

  predicate ValidHeaderName(name: string) {
    |name| > 0 && forall i :: 0 <= i < |name| ==> IsTokenChar(name[i])
  }

  /** `HeaderValue::from_bytes` rejects control bytes other than tab, and DEL. */
  predicate ValidHeaderValue(v: Bytes) {
    forall i :: 0 <= i < |v| ==> (v[i] >= 32 && v[i] != 127) || v[i] == 9
  }

  /** The response builder: status and headers so far, and whether one of them was rejected. */
  datatype Builder = Builder(status: int, headers: seq<(string, Bytes)>, rejected: bool)

  /** `Response::builder().status(code)`. */
  function NewBuilder(code: int): (r: Builder)
    ensures r.status == code && r.headers == []
    ensures r.rejected <==> !(100 <= code <= 999)
  {
    Builder(code, [], !ValidStatus(code))
  }

  /** `builder.header(name, value)`: appends; a rejected builder ignores further headers. */
  function AddHeader(b: Builder, name: string, value: Bytes): (r: Builder)
    ensures r.status == b.status
    ensures r.rejected <==> b.rejected || !ValidHeaderName(name) || !ValidHeaderValue(value)
    ensures !r.rejected ==> r.headers == b.headers + [(name, value)]
  {
    if b.rejected then b
    else if ValidHeaderName(name) && ValidHeaderValue(value) then b.(headers := b.headers + [(name, value)])
    else b.(rejected := true)
  }

  /** `builder.body(body).unwrap()`. */
  function Finish(b: Builder, body: Bytes): (r: ResponseOutcome)
    ensures r.Respond? <==> !b.rejected
    ensures r.Respond? ==> r.response == Response(b.status, b.headers, body)
    ensures !r.Respond? ==> r == Panic(ResponseBuild)
  {
    if b.rejected then Panic(ResponseBuild) else Respond(Response(b.status, b.headers, body))
  }

  // ---------------------------------------------------------------------------
  // Converting the fields of a returned table
  // ---------------------------------------------------------------------------

  /** `t.get::<_, Option<u16>>("status")?.unwrap_or(200)`: a number outside u16 does not convert. */
  function StatusOf(f: Field<int>): (r: Result<int, LuaError>)
    ensures r.Ok? ==> 0 <= r.value < 0x1_0000
    ensures r.Ok? <==> f.Absent? || (f.Present? && 0 <= f.value < 0x1_0000)
    ensures r.Ok? ==> r.value == (if f.Absent? then 200 else f.value)
    ensures r.Err? ==> r.error == ConversionError(StatusField)
  {
    match f
    case Absent => Ok(200)
    case Present(n) => if 0 <= n < 0x1_0000 then Ok(n) else Err(ConversionError(StatusField))
    case Unconvertible => Err(ConversionError(StatusField))
  }

  /** `t.get::<_, Option<LuaTable>>("headers")?`: no table means no headers. */
  function HeadersOf(f: Field<seq<HeaderEntry>>): (r: Result<seq<HeaderEntry>, LuaError>)
    ensures r.Err? <==> f.Unconvertible?
    ensures r.Err? ==> r.error == ConversionError(HeadersField)
    ensures r.Ok? ==> r.value == (if f.Absent? then [] else f.value)
  {
    match f
    case Absent => Ok([])
    case Present(entries) => Ok(entries)
    case Unconvertible => Err(ConversionError(HeadersField))
  }

  /** `t.get::<_, Option<LuaString>>("body")?`, an absent body being empty. */
  function BodyOf(f: Field<Bytes>): (r: Result<Bytes, LuaError>)
    ensures r.Err? <==> f.Unconvertible?
    ensures r.Err? ==> r.error == ConversionError(BodyField)
    ensures r.Ok? ==> r.value == (if f.Absent? then [] else f.value)
  {
    match f
    case Absent => Ok([])
    case Present(b) => Ok(b)
    case Unconvertible => Err(ConversionError(BodyField))
  }

  /** The header loop: each pair converted (`pair?`) and appended in iteration order. */
  function ApplyEntries(entries: seq<HeaderEntry>, b: Builder): (r: Result<Builder, LuaError>)
    ensures r.Err? ==> r.error == ConversionError(HeaderPair)
    ensures r.Ok? ==> r.value.status == b.status && (b.rejected ==> r.value.rejected)
    ensures r.Ok? && !r.value.rejected ==> b.headers <= r.value.headers
  {
    if |entries| == 0 then Ok(b)
    else match entries[0]
      case UnconvertibleEntry => Err(ConversionError(HeaderPair))
      case Entry(name, value) =>
        var b1 := AddHeader(b, name, value);
        var r := ApplyEntries(entries[1..], b1);
        assert r.Ok? && !r.value.rejected ==> b.headers <= b1.headers <= r.value.headers;
        r
  }

  predicate AllConvertible(entries: seq<HeaderEntry>) {
    forall i :: 0 <= i < |entries| ==> entries[i].Entry?
  }

  predicate AllAccepted(entries: seq<HeaderEntry>) {
    forall i :: 0 <= i < |entries| && entries[i].Entry? ==>
      ValidHeaderName(entries[i].name) && ValidHeaderValue(entries[i].value)
  }

  /** The (name, value) pairs of convertible entries, in order. */
  function EntryPairs(entries: seq<HeaderEntry>): (r: seq<(string, Bytes)>)
    requires AllConvertible(entries)
    ensures |r| == |entries|
  {
    seq(|entries|, i requires 0 <= i < |entries| && AllConvertible(entries) => (entries[i].name, entries[i].value))
  }

  /**
   * The header loop stops at the first pair that does not convert; otherwise
   * it keeps the status and appends every pair in order, unless the builder
   * rejected the status or some header.
   */
  lemma {:induction false} ApplyEntriesSpec(entries: seq<HeaderEntry>, b: Builder)
    ensures ApplyEntries(entries, b).Ok? <==> AllConvertible(entries)
    ensures ApplyEntries(entries, b).Err? ==> ApplyEntries(entries, b).error == ConversionError(HeaderPair)
    ensures AllConvertible(entries) ==>
      var b' := ApplyEntries(entries, b).value;
      && b'.status == b.status
      && (b'.rejected <==> b.rejected || !AllAccepted(entries))
      && (!b'.rejected ==> b'.headers == b.headers + EntryPairs(entries))
  {
    if |entries| > 0 {
      var rest := entries[1..];
      assert forall i :: 1 <= i < |entries| ==> entries[i] == rest[i - 1];
      if entries[0].Entry? {
        var b1 := AddHeader(b, entries[0].name, entries[0].value);
        ApplyEntriesSpec(rest, b1);
        if AllConvertible(entries) {
          assert AllConvertible(rest);
          assert AllAccepted(entries) <==>
            (ValidHeaderName(entries[0].name) && ValidHeaderValue(entries[0].value) && AllAccepted(rest));
          if !ApplyEntries(entries, b).value.rejected {
            assert EntryPairs(entries) == [(entries[0].name, entries[0].value)] + EntryPairs(rest);
          }
        } else {
          assert !AllConvertible(rest);
        }
      }
    }
  }

  /**
   * The response for a returned table (lines 126-143). Conversions are tried
   * in source order and the first failure fails the request; only then does
   * a builder that rejected the status or a header panic.
   */
  function TableResponse(t: ResponseTable): (r: ResponseOutcome)
    ensures r.Fail? ==> r.error.ConversionError?
    ensures r.Panic? ==> r.site == ResponseBuild
    ensures r.Respond? ==> ValidStatus(r.response.status) && BodyOf(t.body) == Ok(r.response.body)
    ensures r.Respond? && t.status.Absent? ==> r.response.status == 200
  {
    match StatusOf(t.status)
    case Err(e) => Fail(e)
    case Ok(code) =>
      match HeadersOf(t.headers)
      case Err(e) => Fail(e)
      case Ok(entries) =>
        match ApplyEntries(entries, NewBuilder(code))
        case Err(e) => Fail(e)
        case Ok(b) =>
          match BodyOf(t.body)
          case Err(e) => Fail(e)
          case Ok(body) => Finish(b, body)
  }

  /** Every field of the table converts, including every header pair. */
  predicate TableConverts(t: ResponseTable) {
    && StatusOf(t.status).Ok?
    && HeadersOf(t.headers).Ok? && AllConvertible(HeadersOf(t.headers).value)
    && BodyOf(t.body).Ok?
  }

  /** The builder accepts the table's status and every one of its headers. */
  predicate TableAccepted(t: ResponseTable)
    requires TableConverts(t)
  {
    ValidStatus(StatusOf(t.status).value) && AllAccepted(HeadersOf(t.headers).value)
  }

  /**
   * A table that converts and is accepted gives its status (200 when absent),
   * every header pair in iteration order, and its body (empty when absent).
   */
  lemma TableResponseRespond(t: ResponseTable)
    ensures TableResponse(t).Respond? <==> TableConverts(t) && TableAccepted(t)
    ensures TableResponse(t).Respond? ==>
      var r := TableResponse(t).response;
      && r.status == (if t.status.Present? then t.status.value else 200)
      && r.headers == (if t.headers.Present? then EntryPairs(t.headers.value) else [])
      && r.body == (if t.body.Present? then t.body.value else [])
  {
    var s := StatusOf(t.status);
    if s.Ok? && HeadersOf(t.headers).Ok? {
      ApplyEntriesSpec(HeadersOf(t.headers).value, NewBuilder(s.value));
    }
  }

  /** A table fails the request exactly when one of its conversions fails. */
  lemma TableResponseFail(t: ResponseTable)
    ensures TableResponse(t).Fail? <==> !TableConverts(t)
    ensures TableResponse(t).Fail? ==> TableResponse(t).error.ConversionError?
  {
    var s := StatusOf(t.status);
    if s.Ok? && HeadersOf(t.headers).Ok? {
      ApplyEntriesSpec(HeadersOf(t.headers).value, NewBuilder(s.value));
    }
  }

  /** A table panics exactly when it converts but the builder rejects its status or a header. */
  lemma TableResponsePanic(t: ResponseTable)
    ensures TableResponse(t).Panic? <==> TableConverts(t) && !TableAccepted(t)
    ensures TableResponse(t).Panic? ==> TableResponse(t).site == ResponseBuild
  {
    TableResponseRespond(t);
    TableResponseFail(t);
  }

  /** The header loop of lines 128-135, rebinding the builder at each pair. */
  method RespondWithTable(t: ResponseTable) returns (r: ResponseOutcome)
    ensures r == TableResponse(t)
  {
    var status := StatusOf(t.status);
    if status.Err? {
      return Fail(status.error);
    }
    var resp := NewBuilder(status.value);
    var headers := HeadersOf(t.headers);
    if headers.Err? {
      return Fail(headers.error);
    }
    var entries := headers.value;
    for i := 0 to |entries|
      invariant ApplyEntries(entries[i..], resp) == ApplyEntries(entries, NewBuilder(status.value))
    {
      assert entries[i..][1..] == entries[i + 1..];
      match entries[i]
      case UnconvertibleEntry =>
        return Fail(ConversionError(HeaderPair));
      case Entry(name, value) =>
        resp := AddHeader(resp, name, value);
    }
    assert entries[|entries|..] == [];
    var body := BodyOf(t.body);
    if body.Err? {
      return Fail(body.error);
    }
    r := Finish(resp, body.value);
  }

  // ---------------------------------------------------------------------------
  // The response classifier
  // ---------------------------------------------------------------------------

  /** The reply to a handler that failed or returned neither a string nor a table. */
  function InternalServerError(): Response {
    Response(500, [], AsciiBytes("Internal Server Error"))
  }

  /** The reply to a handler that returned a string. */
  function PlainText(text: Bytes): Response {
    Response(200, [("Content-Type", AsciiBytes("text/plain"))], text)
  }

  /** Lines 118-161: the handler's outcome turned into the request future's end. */
  function Classify(o: HandlerOutcome): (r: ResponseOutcome)
    ensures r.Fail? ==> o.ReturnedTable? && r.error.ConversionError?
    ensures r.Panic? ==> o.ReturnedTable? && r.site == ResponseBuild
    ensures r.Respond? ==> ValidStatus(r.response.status)
  {
    match o
    case ReturnedString(text) => Respond(PlainText(text))
    case ReturnedTable(t) => TableResponse(t)
    case Raised(_) => Respond(InternalServerError())
    case ReturnedOther => Respond(InternalServerError())
  }

  /** A string is a 200 with exactly one header, `Content-Type: text/plain`, and the string as body. */
  lemma ClassifyString(text: Bytes)
    ensures Classify(ReturnedString(text)).Respond?
    ensures Classify(ReturnedString(text)).response.status == 200
    ensures Classify(ReturnedString(text)).response.headers == [("Content-Type", AsciiBytes("text/plain"))]
    ensures Classify(ReturnedString(text)).response.body == text
  {
  }

  /** A handler error and a value of another kind get the same fixed 500 reply. */
  lemma ClassifyFailures(e: LuaError)
    ensures Classify(Raised(e)) == Classify(ReturnedOther)
    ensures Classify(ReturnedOther).Respond?
    ensures Classify(ReturnedOther).response.status == 500
    ensures Classify(ReturnedOther).response.headers == []
    ensures Classify(ReturnedOther).response.body == AsciiBytes("Internal Server Error")
  {
  }

  /**
   * Only a returned table can fail the request or panic, and it fails only
   * on a conversion of one of its fields.
   */
  lemma ClassifyFailsOnlyOnConversion(o: HandlerOutcome)
    ensures Classify(o).Fail? <==> o.ReturnedTable? && !TableConverts(o.table)
    ensures Classify(o).Panic? <==> o.ReturnedTable? && TableConverts(o.table) && !TableAccepted(o.table)
    ensures !o.ReturnedTable? ==> Classify(o).Respond? && Classify(o).response.status in {200, 500}
  {
    if o.ReturnedTable? {
      TableResponseFail(o.table);
      TableResponsePanic(o.table);
    }
  }

  /** A table with none of the three keys is a 200 with no headers and an empty body. */
  lemma ClassifyEmptyTable()
    ensures Classify(ReturnedTable(ResponseTable(Absent, Absent, Absent))) == Respond(Response(200, [], []))
  {
  }

  // ===========================================================================
  // The HTTP path and the dispatch decision
  // ===========================================================================

  /** Lines 76-161: marshal the request, call the handler, classify what it gave. */
  function ServeHttp(handler: RequestView -> HandlerOutcome, req: Request): (r: ResponseOutcome)
    ensures r == Panic(HeaderToStr) <==> exists i :: 0 <= i < |req.headers| && !VisibleAscii(req.headers[i].1)
    ensures r.Fail? ==> r.error.ConversionError?
    ensures r.Respond? ==> ValidStatus(r.response.status)
  {
    match MarshalRequest(req)
    case None => Panic(HeaderToStr)
    case Some(view) => Classify(handler(view))
  }

  /** The server's two registered handlers; the WebSocket one is optional. */
  datatype Service = Service(httpHandler: RequestView -> HandlerOutcome, hasWebSocketHandler: bool)

  /** Line 42: only an upgrade request to a server with a WebSocket handler is upgraded. */
  predicate TakesUpgradePath(svc: Service, req: Request) {
    svc.hasWebSocketHandler && req.isUpgrade
  }

  /** What the WebSocket library's upgrade gave: the switching-protocols reply, or a refusal. */
  datatype UpgradeOutcome = UpgradeRefused | Upgraded(response: Response)

  /** The request's two possible fates. */
  datatype Dispatched = ServedHttp(outcome: ResponseOutcome) | UpgradedToWebSocket

  /** Line 42, the routing decision that `Call` follows. */
  function Dispatch(svc: Service, req: Request): (d: Dispatched)
    ensures d.UpgradedToWebSocket? <==> svc.hasWebSocketHandler && req.isUpgrade
    ensures d.ServedHttp? ==> d.outcome == ServeHttp(svc.httpHandler, req)
  {
    if TakesUpgradePath(svc, req) then UpgradedToWebSocket else ServedHttp(ServeHttp(svc.httpHandler, req))
  }

  /** A request that is not an upgrade request never reaches the WebSocket path. */
  lemma PlainRequestServedAsHttp(svc: Service, req: Request)
    requires !req.isUpgrade
    ensures Dispatch(svc, req) == ServedHttp(ServeHttp(svc.httpHandler, req))
  {
  }

  /** Without a WebSocket handler an upgrade request is an ordinary HTTP request. */
  lemma NoWebSocketHandlerServedAsHttp(svc: Service, req: Request)
    requires !svc.hasWebSocketHandler
    ensures Dispatch(svc, req) == ServedHttp(ServeHttp(svc.httpHandler, req))
    ensures Dispatch(svc, req) == Dispatch(svc, req.(isUpgrade := false))
  {
  }

  /** On the upgrade path the HTTP handler is never consulted. */
  lemma UpgradeIgnoresHttpHandler(svc: Service, other: RequestView -> HandlerOutcome, req: Request)
    requires TakesUpgradePath(svc, req)
    ensures Dispatch(svc, req) == UpgradedToWebSocket
    ensures Dispatch(svc.(httpHandler := other), req) == Dispatch(svc, req)
  {
  }

  // ===========================================================================
  // Service readiness
  // ===========================================================================

  datatype Poll<T> = Ready(value: T) | Pending

  /** Both `poll_ready` implementations: always ready, never an error. */
  function PollReady(): (p: Poll<Result<(), LuaError>>)
    ensures p.Ready? && p.value.Ok?
  {
    Ready(Ok(()))
  }

  // ===========================================================================
  // The WebSocket path and the task scheduler's background tasks
  // ===========================================================================

  datatype SchedulerEvent = Registered | ScheduledBlocking | Unregistered(result: Result<(), LuaError>)

  /** How many events release a background task. */
  function Releases(events: seq<SchedulerEvent>): (n: nat)
    ensures n <= |events|
  {
    if |events| == 0 then 0
    else (if events[0].Unregistered? then 1 else 0) + Releases(events[1..])
  }

  lemma {:induction false} ReleasesAppend(a: seq<SchedulerEvent>, b: seq<SchedulerEvent>)
    ensures Releases(a + b) == Releases(a) + Releases(b)
  {
    if |a| > 0 {
      assert (a + b)[1..] == a[1..] + b;
      ReleasesAppend(a[1..], b);
    } else {
      assert a + b == b;
    }
  }

  /** The handle `register_background_task` gives; it is released at most once. */
  class BackgroundTask {
    var released: bool

    constructor ()
      ensures !released
    {
      released := false;
    }
  }

  /**
   * The part of the task scheduler the server touches: the number of
   * outstanding background tasks (the program does not exit while it is
   * positive), and the log of calls it received.
   */
  class TaskScheduler {
    var backgroundTasks: nat
    ghost var events: seq<SchedulerEvent>

    constructor ()
      ensures backgroundTasks == 0 && events == []
    {
      backgroundTasks := 0;
      events := [];
    }

    method RegisterBackgroundTask() returns (task: BackgroundTask)
      modifies this
      ensures fresh(task) && !task.released
      ensures backgroundTasks == old(backgroundTasks) + 1
      ensures events == old(events) + [Registered]
    {
      task := new BackgroundTask();
      backgroundTasks := backgroundTasks + 1;
      events := events + [Registered];
    }

    /** Hands the handler's thread to the scheduler; `outcome` is what that gives back. */
    method ScheduleBlocking(outcome: Result<(), LuaError>) returns (r: Result<(), LuaError>)
      modifies this
      ensures r == outcome
      ensures backgroundTasks == old(backgroundTasks)
      ensures events == old(events) + [ScheduledBlocking]
    {
      r := outcome;
      events := events + [ScheduledBlocking];
    }

    method Unregister(task: BackgroundTask, result: Result<(), LuaError>)
      requires !task.released && backgroundTasks > 0
      modifies this, task
      ensures task.released
      ensures backgroundTasks == old(backgroundTasks) - 1
      ensures events == old(events) + [Unregistered(result)]
    {
      task.released := true;
      backgroundTasks := backgroundTasks - 1;
      events := events + [Unregistered(result)];
    }
  }

  /**
   * Lines 40-76: route the request. On the HTTP path nothing in the scheduler
   * changes. On the upgrade path a background task is registered before the
   * session task is spawned, and the library's switching-protocols reply is
   * returned at once; the spawned task is `RunSession`.
   */
  method Call(sched: TaskScheduler, svc: Service, req: Request, upgrade: UpgradeOutcome)
    returns (r: ResponseOutcome, spawned: Option<BackgroundTask>)
    modifies sched
    ensures Dispatch(svc, req).ServedHttp? ==>
      r == Dispatch(svc, req).outcome && spawned.None? && unchanged(sched)
    ensures Dispatch(svc, req).UpgradedToWebSocket? && upgrade.UpgradeRefused? ==>
      r == Panic(WebSocketUpgrade) && spawned.None? && unchanged(sched)
    ensures Dispatch(svc, req).UpgradedToWebSocket? && upgrade.Upgraded? ==>
      && r == Respond(upgrade.response)
      && spawned.Some? && fresh(spawned.value) && !spawned.value.released
      && sched.backgroundTasks == old(sched.backgroundTasks) + 1
      && sched.events == old(sched.events) + [Registered]
  {
    var d := Dispatch(svc, req);
    if d.UpgradedToWebSocket? {
      if upgrade.UpgradeRefused? {
        return Panic(WebSocketUpgrade), None;
      }
      var task := sched.RegisterBackgroundTask();
      r, spawned := Respond(upgrade.response), Some(task);
    } else {
      r, spawned := d.outcome, None;
    }
  }

  /** What the foreign calls of the session task give (lines 60, 61, 66 and 65). */
  datatype SessionEnv = SessionEnv(
    handshake: bool,
    socketWrapped: bool,
    threadCreated: bool,
    handler: Result<(), LuaError>)

  /** The handshake, the socket wrapping and the thread creation all succeed. */
  predicate SessionStarts(env: SessionEnv) {
    env.handshake && env.socketWrapped && env.threadCreated
  }

  /** What the session task returns: the first failing step's error, else the scheduler's answer. */
  function SessionResult(env: SessionEnv): (r: Result<(), LuaError>)
    ensures SessionStarts(env) ==> r == env.handler
    ensures !SessionStarts(env) ==> r.Err? && r.error in {HandshakeError, SocketError, ThreadError}
    ensures !env.handshake ==> r == Err(HandshakeError)
    ensures env.handshake && !env.socketWrapped ==> r == Err(SocketError)
    ensures env.handshake && env.socketWrapped && !env.threadCreated ==> r == Err(ThreadError)
  {
    if !env.handshake then Err(HandshakeError)
    else if !env.socketWrapped then Err(SocketError)
    else if !env.threadCreated then Err(ThreadError)
    else env.handler
  }

  /** The scheduler calls the session task makes, as written: the `?` exits skip the unregister. */
  function SessionEvents(env: SessionEnv): (r: seq<SchedulerEvent>)
    ensures r == [] <==> !SessionStarts(env)
    ensures r != [] ==> r[0] == ScheduledBlocking && r[|r| - 1].Unregistered?
  {
    if SessionStarts(env) then [ScheduledBlocking, Unregistered(Ok(()))] else []
  }

  /**
   * As written, the task is released exactly when the session starts, and it
   * is reported as a success whatever the handler did.
   */
  lemma SessionReleasesOnlyWhenStarted(env: SessionEnv)
    ensures Releases(SessionEvents(env)) == (if SessionStarts(env) then 1 else 0)
    ensures forall e :: e in SessionEvents(env) && e.Unregistered? ==> e.result == Ok(())
  {
    if SessionStarts(env) {
      assert Releases([Unregistered(Ok(()))]) == 1;
    }
  }

  /** Lines 57-71: the spawned session task, as written. */
  method RunSession(sched: TaskScheduler, task: BackgroundTask, env: SessionEnv)
    returns (r: Result<(), LuaError>)
    requires !task.released && sched.backgroundTasks > 0
    modifies sched, task
    ensures r == SessionResult(env)
    ensures sched.events == old(sched.events) + SessionEvents(env)
    ensures sched.backgroundTasks == old(sched.backgroundTasks) - Releases(SessionEvents(env))
    ensures task.released <==> SessionStarts(env)
  {
    SessionReleasesOnlyWhenStarted(env);
    if !env.handshake {
      return Err(HandshakeError);
    }
    if !env.socketWrapped {
      return Err(SocketError);
    }
    if !env.threadCreated {
      return Err(ThreadError);
    }
    r := sched.ScheduleBlocking(env.handler);
    sched.Unregister(task, Ok(()));
  }

  /** The session task with the release on every path, carrying the session's outcome. */
  function ReleasingSessionEvents(env: SessionEnv): seq<SchedulerEvent> {
    (if SessionStarts(env) then [ScheduledBlocking] else []) + [Unregistered(SessionResult(env))]
  }

  /** The releasing session frees its task exactly once, last, and reports how the session ended. */
  lemma ReleasingSessionReleasesOnce(env: SessionEnv)
    ensures Releases(ReleasingSessionEvents(env)) == 1
    ensures ReleasingSessionEvents(env)[|ReleasingSessionEvents(env)| - 1] == Unregistered(SessionResult(env))
  {
    var pre: seq<SchedulerEvent> := if SessionStarts(env) then [ScheduledBlocking] else [];
    ReleasesAppend(pre, [Unregistered(SessionResult(env))]);
    assert Releases(pre) == 0;
  }

  method RunSessionReleasing(sched: TaskScheduler, task: BackgroundTask, env: SessionEnv)
    returns (r: Result<(), LuaError>)
    requires !task.released && sched.backgroundTasks > 0
    modifies sched, task
    ensures r == SessionResult(env)
    ensures sched.events == old(sched.events) + ReleasingSessionEvents(env)
    ensures sched.backgroundTasks == old(sched.backgroundTasks) - 1
    ensures task.released
  {
    if !env.handshake {
      r := Err(HandshakeError);
    } else if !env.socketWrapped {
      r := Err(SocketError);
    } else if !env.threadCreated {
      r := Err(ThreadError);
    } else {
      r := sched.ScheduleBlocking(env.handler);
    }
    sched.Unregister(task, r);
  }

  /**
   * An upgrade request served end to end on a fresh scheduler, as written:
   * the reply is the library's, the task is outstanding while the session
   * runs, and afterwards the count is back to zero exactly when the session
   * started.
   */
  method ServeUpgradeSession(svc: Service, req: Request, reply: Response, env: SessionEnv)
    returns (r: ResponseOutcome, during: nat, after: nat, ghost log: seq<SchedulerEvent>)
    requires TakesUpgradePath(svc, req)
    ensures r == Respond(reply)
    ensures during == 1
    ensures after == (if SessionStarts(env) then 0 else 1)
    ensures log == [Registered] + SessionEvents(env)
  {
    var sched := new TaskScheduler();
    var spawned;
    r, spawned := Call(sched, svc, req, Upgraded(reply));
    during := sched.backgroundTasks;
    var _ := RunSession(sched, spawned.value, env);
    after := sched.backgroundTasks;
    log := sched.events;
  }

  /** The same with the releasing session: the count always returns to zero. */
  method ServeUpgradeSessionReleasing(svc: Service, req: Request, reply: Response, env: SessionEnv)
    returns (r: ResponseOutcome, during: nat, after: nat, ghost log: seq<SchedulerEvent>)
    requires TakesUpgradePath(svc, req)
    ensures r == Respond(reply)
    ensures during == 1 && after == 0
    ensures log == [Registered] + ReleasingSessionEvents(env)
  {
    var sched := new TaskScheduler();
    var spawned;
    r, spawned := Call(sched, svc, req, Upgraded(reply));
    during := sched.backgroundTasks;
    var _ := RunSessionReleasing(sched, spawned.value, env);
    after := sched.backgroundTasks;
    log := sched.events;
  }
}

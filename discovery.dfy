/** The discovery client of iotc_wiced_discovery.c: two HTTPS exchanges per
    try (GET the agent descriptor from the discovery host, POST to the agent's
    sync endpoint), a static 1024-byte receive buffer that both exchanges share,
    and a retry loop that gives a sync response with a parsing error another
    try unless it is the last one.

    The HTTP client, TLS and DNS are the WICED libraries: each exchange is an
    input (`Exchange`) saying whether the connection came up and which events
    the HTTP client delivered while the caller waited. The two parsers of the
    IoTConnect C library are inputs as well (`Attempt.dr`, `Attempt.parsed`). */
module Discovery {
  import opened Common
  import opened Sync

  const RECEIVE_BUFFER_MAX_SIZE: nat := 1024
  const PORT: nat := 443

  // Header names defined by the WICED HTTP client (http.h, not part of this model).
  const HTTP_HEADER_HOST: string := "Host: "
  const HTTP_HEADER_CONTENT_TYPE: string := "Content-Type: "
  const HTTP_HEADER_CONTENT_LENGTH: string := "Content-Length: "
  const CONNECTION_HEADER: string := "Connection: "
  const CONNECTION_CLOSE: string := "close"
  const CONTENT_TYPE_JSON: string := "application/json"

  /** The URL path of the first-stage GET. */
  function GetPath(cpid: string, env: string): string {
    "/api/sdk/cpid/" + cpid + "/lang/M_C/ver/2.0/env/" + env
  }

  /** The URL path of the second-stage POST, on the agent's host. */
  function SyncPath(dr: DiscoveryResponse): string {
    dr.path + "sync?"
  }

  // ---------------------------------------------------------------------------
  // Requests and headers

  datatype HttpMethod = Get | Post

  /** http_header_field_t: a name and a value with their lengths. */
  datatype HeaderField = HeaderField(field: string, fieldLength: nat, value: string, valueLength: nat)

  predicate LengthsMatch(h: HeaderField) {
    h.fieldLength == |h.field| && h.valueLength == |h.value|
  }

  /** set_header_field: points the header at `name` and `value` and records their strlen. */
  function SetHeaderField(name: string, value: string): (h: HeaderField)
    ensures LengthsMatch(h)
    ensures h.field == name && h.value == value
  {
    HeaderField(name, |name|, value, |value|)
  }

  /** One request as written to the HTTP client: method, host (also the TLS server
      name and peer CN), path, the headers passed to http_request_write_header,
      and the body. */
  datatype Request = Request(verb: HttpMethod, host: string, path: string, headers: seq<HeaderField>, body: string)

  /** One call of synchronous_rest_call: its arguments and, when the connection
      came up, the request it sent. */
  datatype RestCall = RestCall(host: string, path: string, postData: Option<string>, sent: Option<Request>)

  /** %u of a value: its decimal digits, most significant first. */
  function NatToDecimal(n: nat): (s: string)
    ensures 1 <= |s|
    ensures forall k :: 0 <= k < |s| ==> '0' <= s[k] <= '9'
    decreases n
  {
    if n < 10 then [Digit(n)] else NatToDecimal(n / 10) + [Digit(n % 10)]
  }

  function Digit(d: nat): (c: char)
    requires d < 10
    ensures '0' <= c <= '9'
  {
    "0123456789"[d]
  }

  /** The number a string of decimal digits denotes (reads Content-Length back). */
  function DecimalValue(s: string): nat
    requires forall k :: 0 <= k < |s| ==> '0' <= s[k] <= '9'
  {
    if s == [] then 0 else DecimalValue(s[..|s| - 1]) * 10 + ((s[|s| - 1] as int) - ('0' as int))
  }

  function Pow10(k: nat): nat {
    if k == 0 then 1 else 10 * Pow10(k - 1)
  }

  lemma {:induction false} DecimalRoundTrip(n: nat)
    ensures DecimalValue(NatToDecimal(n)) == n
    decreases n
  {
    var s := NatToDecimal(n);
    if n >= 10 {
      DecimalRoundTrip(n / 10);
      assert s[..|s| - 1] == NatToDecimal(n / 10);
    }
  }

  lemma {:induction false} DecimalWidth(n: nat, k: nat)
    requires 1 <= k && n < Pow10(k)
    ensures |NatToDecimal(n)| <= k
    decreases n
  {
    if n >= 10 {
      assert Pow10(1) == 10;
      assert k >= 2;
      assert n / 10 < Pow10(k - 1);
      DecimalWidth(n / 10, k - 1);
    }
  }

  /** The Content-Length value of a POST: strlen(post_data) cast to uint16_t, in decimal. */
  function ContentLength(postData: string): string {
    NatToDecimal(|postData| % UINT16_LIMIT)
  }

  /** The request synchronous_rest_call writes once connected: POST when there is post data, GET otherwise. */
  function RequestFor(host: string, path: string, postData: Option<string>): Request {
    match postData
    case None =>
      Request(Get, host, path,
              [SetHeaderField(HTTP_HEADER_HOST, host), SetHeaderField(CONNECTION_HEADER, CONNECTION_CLOSE)], "")
    case Some(p) =>
      Request(Post, host, path,
              [SetHeaderField(HTTP_HEADER_HOST, host), SetHeaderField(CONNECTION_HEADER, CONNECTION_CLOSE),
               SetHeaderField(HTTP_HEADER_CONTENT_TYPE, CONTENT_TYPE_JSON),
               SetHeaderField(HTTP_HEADER_CONTENT_LENGTH, ContentLength(p))], p)
  }

  /** A GET carries Host and Connection; a POST adds Content-Type application/json and a
      Content-Length that reads back as the body's length (mod 2^16, the uint16_t cast)
      and fits the 6-byte buffer it is printed into. Every header's lengths are its strings'. */
  lemma RequestHeaders(host: string, path: string, postData: Option<string>)
    ensures var r := RequestFor(host, path, postData);
      && r.host == host && r.path == path
      && (forall k :: 0 <= k < |r.headers| ==> LengthsMatch(r.headers[k]))
      && |r.headers| == (if postData.Some? then 4 else 2)
      && r.headers[0].field == HTTP_HEADER_HOST && r.headers[0].value == host
      && r.headers[1].field == CONNECTION_HEADER && r.headers[1].value == CONNECTION_CLOSE
      && (postData.None? ==> r.verb == Get && r.body == "")
      && (postData.Some? ==>
            && r.verb == Post && r.body == postData.value
            && r.headers[2].field == HTTP_HEADER_CONTENT_TYPE && r.headers[2].value == CONTENT_TYPE_JSON
            && r.headers[3].field == HTTP_HEADER_CONTENT_LENGTH
            && DecimalValue(r.headers[3].value) == |postData.value| % UINT16_LIMIT
            && |r.headers[3].value| + 1 <= 6)
  {
    if postData.Some? {
      var n := |postData.value| % UINT16_LIMIT;
      DecimalRoundTrip(n);
      assert Pow10(5) == 100000;
      DecimalWidth(n, 5);
    }
  }

  // ---------------------------------------------------------------------------
  // The receive buffer

  /** An event the HTTP client delivers to event_handler. `forOurRequest` is
      `response->request == &request`. */
  datatype HttpEvent = DataReceived(forOurRequest: bool, payload: seq<char>) | HttpDisconnected | OtherHttpEvent

  /** What one exchange did: did http_client_connect succeed, and which events
      arrived before the 20 s wait ended. */
  datatype Exchange = Exchange(connected: bool, events: seq<HttpEvent>)

  /** `src` written over the front of `buf` (memcpy; sprintf when `src` ends in NUL). */
  function Overwrite(buf: seq<char>, src: seq<char>): (r: seq<char>)
    requires |src| <= |buf|
    ensures |r| == |buf| && r[..|src|] == src && r[|src|..] == buf[|src|..]
  {
    src + buf[|src|..]
  }

  /** `data_buff[0] = 0`. */
  function Cleared(buf: seq<char>): (r: seq<char>)
    requires |buf| > 0
    ensures |r| == |buf| && r[0] == NUL && r[1..] == buf[1..]
  {
    [NUL] + buf[1..]
  }

  /** event_handler on the buffer: a payload for our request of at most 1024 bytes
      is copied, exactly its bytes and no terminator; anything else leaves it alone. */
  function ApplyHttpEvent(buf: seq<char>, e: HttpEvent): (r: seq<char>)
    requires |buf| == RECEIVE_BUFFER_MAX_SIZE
    ensures |r| == RECEIVE_BUFFER_MAX_SIZE
    ensures e.DataReceived? && e.forOurRequest && |e.payload| <= RECEIVE_BUFFER_MAX_SIZE ==>
              r[..|e.payload|] == e.payload && r[|e.payload|..] == buf[|e.payload|..]
    ensures !(e.DataReceived? && e.forOurRequest && |e.payload| <= RECEIVE_BUFFER_MAX_SIZE) ==> r == buf
  {
    match e
    case DataReceived(ours, p) =>
      if ours && |p| <= RECEIVE_BUFFER_MAX_SIZE then Overwrite(buf, p) else buf
    case _ => buf
  }

  /** The events of an exchange applied in order of arrival. */
  function ApplyHttpEvents(buf: seq<char>, es: seq<HttpEvent>): (r: seq<char>)
    requires |buf| == RECEIVE_BUFFER_MAX_SIZE
    ensures |r| == RECEIVE_BUFFER_MAX_SIZE
    decreases |es|
  {
    if es == [] then buf else ApplyHttpEvents(ApplyHttpEvent(buf, es[0]), es[1..])
  }

  /** The first byte of the buffer after the events, starting from first byte `h`. */
  function FirstByteAfter(h: char, es: seq<HttpEvent>): char
    decreases |es|
  {
    if es == [] then h
    else
      var h' := match es[0]
        case DataReceived(ours, p) => if ours && 0 < |p| <= RECEIVE_BUFFER_MAX_SIZE then p[0] else h
        case _ => h;
      FirstByteAfter(h', es[1..])
  }

  /** Whether strlen(data_buff) > 0 after the events depends on their payloads only,
      not on the stale bytes behind the first one. */
  lemma {:induction false} FirstByteOfEvents(buf: seq<char>, es: seq<HttpEvent>)
    requires |buf| == RECEIVE_BUFFER_MAX_SIZE
    ensures ApplyHttpEvents(buf, es)[0] == FirstByteAfter(buf[0], es)
    decreases |es|
  {
    if es != [] {
      var b := ApplyHttpEvent(buf, es[0]);
      FirstByteOfEvents(b, es[1..]);
    }
  }

  /** The exchange left a non-empty string in the buffer: it connected (otherwise the
      buffer is cleared and nothing is sent) and its last accepted non-empty payload
      does not start with NUL. */
  predicate Received(ex: Exchange) {
    ex.connected && FirstByteAfter(NUL, ex.events) != NUL
  }

  /** No accepted payload, no data: an exchange whose events bring no payload of 1 to
      1024 bytes for our request leaves the buffer empty. */
  lemma {:induction false} NoPayloadLeavesEmpty(h: char, es: seq<HttpEvent>)
    requires forall k :: 0 <= k < |es| ==> !(es[k].DataReceived? && es[k].forOurRequest
                                              && 0 < |es[k].payload| <= RECEIVE_BUFFER_MAX_SIZE)
    ensures FirstByteAfter(h, es) == h
    decreases |es|
  {
    if es != [] {
      NoPayloadLeavesEmpty(h, es[1..]);
    }
  }

  /** The record of one synchronous_rest_call. */
  function CallRecord(host: string, path: string, postData: Option<string>, ex: Exchange): RestCall {
    RestCall(host, path, postData, if ex.connected then Some(RequestFor(host, path, postData)) else None)
  }

  // ---------------------------------------------------------------------------
  // The retry loop, as a specification over the per-try inputs

  /** What the environment answers to one try: the GET exchange, the agent descriptor
      the library parses out of it, the POST exchange, and the library's parse of the sync
      response (None for NULL). */
  datatype Attempt = Attempt(get: Exchange, dr: DiscoveryResponse, post: Exchange, parsed: Option<SyncResponse>)

  /** The sync response a try produces before the retry rule: NULL unless both buffers were non-empty. */
  function TryResult(a: Attempt): Option<SyncResponse> {
    if Received(a.get) && Received(a.post) then a.parsed else None
  }

  /** Lines 91-97: a parsing error is dropped unless `tries` is 1 (the last try). */
  function TryDecision(r: Option<SyncResponse>, tries: int): Option<SyncResponse> {
    if r.Some? && r.value.ds == ParsingError && tries != 1 then None else r
  }

  /** The value iotc_wiced_discover returns when `tries` tries remain and `ts` holds their answers. */
  function DiscoverSpec(tries: int, ts: seq<Attempt>): Option<SyncResponse>
    requires tries <= |ts|
    decreases if tries <= 0 then 0 else tries
  {
    if tries <= 0 then None
    else
      var r := TryDecision(TryResult(ts[0]), tries);
      if r.Some? then r else DiscoverSpec(tries - 1, ts[1..])
  }

  /** How many tries the loop runs. */
  function AttemptsSpec(tries: int, ts: seq<Attempt>): nat
    requires tries <= |ts|
    decreases if tries <= 0 then 0 else tries
  {
    if tries <= 0 then 0
    else if TryDecision(TryResult(ts[0]), tries).Some? then 1
    else 1 + AttemptsSpec(tries - 1, ts[1..])
  }

  /** The rest calls of one try: always the GET; the POST only when the GET left data. */
  function TryTrace(host: string, getPath: string, postData: string, a: Attempt): seq<RestCall> {
    [CallRecord(host, getPath, None, a.get)]
    + (if Received(a.get) then [CallRecord(a.dr.host, SyncPath(a.dr), Some(postData), a.post)] else [])
  }

  /** The rest calls of the whole loop. */
  function DiscoverTrace(host: string, getPath: string, postData: string, tries: int, ts: seq<Attempt>): seq<RestCall>
    requires tries <= |ts|
    decreases if tries <= 0 then 0 else tries
  {
    if tries <= 0 then []
    else
      TryTrace(host, getPath, postData, ts[0])
      + (if TryDecision(TryResult(ts[0]), tries).Some? then []
         else DiscoverTrace(host, getPath, postData, tries - 1, ts[1..]))
  }

  /** One step of the recursion of DiscoverSpec and DiscoverTrace. */
  lemma UnfoldDiscover(host: string, getPath: string, postData: string, tries: int, ts: seq<Attempt>)
    requires 0 < tries <= |ts|
    ensures var r := TryDecision(TryResult(ts[0]), tries);
      && DiscoverSpec(tries, ts) == (if r.Some? then r else DiscoverSpec(tries - 1, ts[1..]))
      && DiscoverTrace(host, getPath, postData, tries, ts)
         == TryTrace(host, getPath, postData, ts[0])
            + (if r.Some? then [] else DiscoverTrace(host, getPath, postData, tries - 1, ts[1..]))
  {
  }

  /** A try whose GET or POST left the buffer empty, or whose sync response the library
      could not parse, uses up one try and decides nothing; when the GET left nothing the
      POST is not even made. */
  lemma EmptyTryIsWasted(host: string, getPath: string, postData: string, tries: int, ts: seq<Attempt>)
    requires 0 < tries <= |ts|
    requires !Received(ts[0].get) || !Received(ts[0].post) || ts[0].parsed.None?
    ensures DiscoverSpec(tries, ts) == DiscoverSpec(tries - 1, ts[1..])
    ensures AttemptsSpec(tries, ts) == 1 + AttemptsSpec(tries - 1, ts[1..])
    ensures DiscoverTrace(host, getPath, postData, tries, ts)
            == TryTrace(host, getPath, postData, ts[0]) + DiscoverTrace(host, getPath, postData, tries - 1, ts[1..])
    ensures !Received(ts[0].get) ==> TryTrace(host, getPath, postData, ts[0]) == [CallRecord(host, getPath, None, ts[0].get)]
  {
  }

  /** The number of first-stage (GET) calls in a trace. */
  function CountGets(cs: seq<RestCall>): nat {
    if cs == [] then 0 else (if cs[0].postData.None? then 1 else 0) + CountGets(cs[1..])
  }

  lemma {:induction false} CountGetsAppend(a: seq<RestCall>, b: seq<RestCall>)
    ensures CountGets(a + b) == CountGets(a) + CountGets(b)
  {
    if a == [] {
      assert a + b == b;
    } else {
      assert (a + b)[0] == a[0];
      assert (a + b)[1..] == a[1..] + b;
      CountGetsAppend(a[1..], b);
    }
  }

  /** Every try issues exactly one GET, so the trace holds as many GETs as the loop ran
      tries, and that is never more than `num_tries` (none at all when it is not positive). */
  lemma {:induction false} AttemptsAreBounded(host: string, getPath: string, postData: string, tries: int, ts: seq<Attempt>)
    requires tries <= |ts|
    ensures CountGets(DiscoverTrace(host, getPath, postData, tries, ts)) == AttemptsSpec(tries, ts)
    ensures AttemptsSpec(tries, ts) <= (if tries <= 0 then 0 else tries)
    ensures tries <= 0 ==> DiscoverTrace(host, getPath, postData, tries, ts) == [] && DiscoverSpec(tries, ts) == None
    decreases if tries <= 0 then 0 else tries
  {
    if tries > 0 {
      var head := TryTrace(host, getPath, postData, ts[0]);
      assert CountGets(head) == 1 by {
        var a := ts[0];
        assert head[0].postData.None?;
        if Received(a.get) {
          var post := CallRecord(a.dr.host, SyncPath(a.dr), Some(postData), a.post);
          assert head[1..] == [post];
          assert CountGets([post]) == 0 + CountGets([post][1..]);
          assert [post][1..] == [];
        } else {
          assert head[1..] == [];
        }
      }
      if TryDecision(TryResult(ts[0]), tries).Some? {
        CountGetsAppend(head, []);
      } else {
        AttemptsAreBounded(host, getPath, postData, tries - 1, ts[1..]);
        CountGetsAppend(head, DiscoverTrace(host, getPath, postData, tries - 1, ts[1..]));
      }
    }
  }

  /** Try `i` (0-based) of `numTries` ends the loop: it produced a sync response that the
      retry rule keeps. */
  predicate Decisive(ts: seq<Attempt>, numTries: int, i: int)
    requires 0 <= i < |ts|
  {
    TryDecision(TryResult(ts[i]), numTries - i).Some?
  }

  /** The loop returns the response of the first decisive try, unchanged, after exactly
      that many tries. */
  lemma {:induction false} ReturnsFirstDecisive(numTries: int, ts: seq<Attempt>, i: int)
    requires 0 <= i < numTries <= |ts|
    requires Decisive(ts, numTries, i)
    requires forall j :: 0 <= j < i ==> !Decisive(ts, numTries, j)
    ensures DiscoverSpec(numTries, ts) == TryResult(ts[i])
    ensures AttemptsSpec(numTries, ts) == i + 1
    decreases i
  {
    if i > 0 {
      assert !Decisive(ts, numTries, 0);
      var rest, n := ts[1..], numTries - 1;
      forall j | 0 <= j < i - 1 ensures !Decisive(rest, n, j) {
        assert !Decisive(ts, numTries, j + 1);
        assert rest[j] == ts[j + 1];
      }
      assert Decisive(rest, n, i - 1) by { assert rest[i - 1] == ts[i]; }
      ReturnsFirstDecisive(n, rest, i - 1);
    }
  }

  /** When no try is decisive the loop uses up every try and returns NULL. */
  lemma {:induction false} NullWhenNoneDecisive(numTries: int, ts: seq<Attempt>)
    requires numTries <= |ts|
    requires forall j :: 0 <= j < numTries ==> !Decisive(ts, numTries, j)
    ensures DiscoverSpec(numTries, ts) == None
    ensures AttemptsSpec(numTries, ts) == (if numTries <= 0 then 0 else numTries)
    decreases if numTries <= 0 then 0 else numTries
  {
    if numTries > 0 {
      assert !Decisive(ts, numTries, 0);
      var rest, n := ts[1..], numTries - 1;
      forall j | 0 <= j < n ensures !Decisive(rest, n, j) {
        assert !Decisive(ts, numTries, j + 1);
        assert rest[j] == ts[j + 1];
      }
      NullWhenNoneDecisive(n, rest);
    }
  }

  /** Whatever comes back is the answer of the last try made, unchanged; a parsing error
      comes back only from the last of the `numTries` tries. */
  lemma {:induction false} ResultIsLastTry(numTries: int, ts: seq<Attempt>)
    requires numTries <= |ts|
    requires DiscoverSpec(numTries, ts).Some?
    ensures 1 <= AttemptsSpec(numTries, ts) <= numTries
    ensures DiscoverSpec(numTries, ts) == TryResult(ts[AttemptsSpec(numTries, ts) - 1])
    ensures DiscoverSpec(numTries, ts).value.ds == ParsingError ==> AttemptsSpec(numTries, ts) == numTries
    decreases if numTries <= 0 then 0 else numTries
  {
    if !TryDecision(TryResult(ts[0]), numTries).Some? {
      ResultIsLastTry(numTries - 1, ts[1..]);
    }
  }

  /** Two parsing errors and then OK with three tries: the OK response, after three tries. */
  lemma RetriesParsingErrorThenOk(ts: seq<Attempt>)
    requires |ts| >= 3
    requires TryResult(ts[0]).Some? && TryResult(ts[0]).value.ds == ParsingError
    requires TryResult(ts[1]).Some? && TryResult(ts[1]).value.ds == ParsingError
    requires TryResult(ts[2]).Some? && TryResult(ts[2]).value.ds == Ok
    ensures DiscoverSpec(3, ts) == TryResult(ts[2]) && AttemptsSpec(3, ts) == 3
  {
    ReturnsFirstDecisive(3, ts, 2);
  }

  /** Three parsing errors with three tries: the third parsing error is returned and no fourth try is made. */
  lemma GivesUpOnLastParsingError(ts: seq<Attempt>)
    requires |ts| >= 3
    requires forall k :: 0 <= k < 3 ==> TryResult(ts[k]).Some? && TryResult(ts[k]).value.ds == ParsingError
    ensures DiscoverSpec(3, ts) == TryResult(ts[2]) && AttemptsSpec(3, ts) == 3
  {
    ReturnsFirstDecisive(3, ts, 2);
  }

  /** A rejection (any status but OK and parsing error) on the first try ends the loop at once. */
  lemma RejectionIsTerminal(numTries: int, ts: seq<Attempt>)
    requires 1 <= numTries <= |ts|
    requires TryResult(ts[0]).Some? && TryResult(ts[0]).value.ds != ParsingError
    ensures DiscoverSpec(numTries, ts) == TryResult(ts[0]) && AttemptsSpec(numTries, ts) == 1
  {
  }

  /** Every rest call of the loop is well formed: the GETs go to the discovery host with the
      cpid/env path, the POSTs carry the post data to an agent's host and sync path, and a
      call that connected sent exactly RequestFor its arguments. */
  lemma {:induction false} TraceRequests(host: string, getPath: string, postData: string, tries: int, ts: seq<Attempt>)
    requires tries <= |ts|
    ensures forall c :: c in DiscoverTrace(host, getPath, postData, tries, ts) ==>
      && (c.sent.Some? ==> c.sent.value == RequestFor(c.host, c.path, c.postData))
      && (c.postData.None? ==> c.host == host && c.path == getPath)
      && (c.postData.Some? ==> c.postData.value == postData
                               && exists k :: 0 <= k < |ts| && c.host == ts[k].dr.host && c.path == SyncPath(ts[k].dr))
    decreases if tries <= 0 then 0 else tries
  {
    if tries > 0 {
      var rest := if TryDecision(TryResult(ts[0]), tries).Some? then []
                  else DiscoverTrace(host, getPath, postData, tries - 1, ts[1..]);
      if !TryDecision(TryResult(ts[0]), tries).Some? {
        TraceRequests(host, getPath, postData, tries - 1, ts[1..]);
        forall c | c in rest && c.postData.Some?
          ensures exists k :: 0 <= k < |ts| && c.host == ts[k].dr.host && c.path == SyncPath(ts[k].dr)
        {
          var k :| 0 <= k < |ts[1..]| && c.host == ts[1..][k].dr.host && c.path == SyncPath(ts[1..][k].dr);
          assert ts[1..][k] == ts[k + 1];
        }
      }
      assert DiscoverTrace(host, getPath, postData, tries, ts) == TryTrace(host, getPath, postData, ts[0]) + rest;
    }
  }

  // ---------------------------------------------------------------------------
  // The client: its static receive buffer and the calls it has made

  class DiscoveryClient {
    /** IOTCONNECT_DISCOVERY_HOSTNAME, a constant of the IoTConnect C library. */
    const discoveryHost: string
    /** The static data_buff. */
    const dataBuff: array<char>
    /** Every synchronous_rest_call made so far. */
    var calls: seq<RestCall>

    ghost predicate Valid()
      reads this
    {
      dataBuff.Length == RECEIVE_BUFFER_MAX_SIZE
    }

    constructor (discoveryHost: string)
      ensures Valid() && fresh(dataBuff)
      ensures this.discoveryHost == discoveryHost && calls == []
    {
      this.discoveryHost := discoveryHost;
      dataBuff := new char[RECEIVE_BUFFER_MAX_SIZE](_ => NUL);
      calls := [];
    }

    /** memcpy (or sprintf, when `src` ends with its NUL) into the front of data_buff. */
    method Write(src: seq<char>)
      requires Valid() && |src| <= dataBuff.Length
      modifies dataBuff
      ensures dataBuff[..] == Overwrite(old(dataBuff[..]), src)
    {
      for i := 0 to |src|
        invariant dataBuff[..i] == src[..i]
        invariant dataBuff[i..] == old(dataBuff[i..])
      {
        dataBuff[i] := src[i];
        assert dataBuff[..i + 1] == dataBuff[..i] + [src[i]];
        assert src[..i + 1] == src[..i] + [src[i]];
      }
      assert dataBuff[..] == dataBuff[..|src|] + dataBuff[|src|..];
      assert src[..|src|] == src;
    }

    /** event_handler: HTTP_DISCONNECTED only wakes the waiting caller; a received payload
        for our request is copied unless it is longer than the buffer. */
    method OnHttpEvent(e: HttpEvent)
      requires Valid()
      modifies dataBuff
      ensures dataBuff[..] == ApplyHttpEvent(old(dataBuff[..]), e)
    {
      match e
      case DataReceived(ours, p) =>
        if ours {
          if |p| > RECEIVE_BUFFER_MAX_SIZE {
            return;
          }
          Write(p);
        }
      case HttpDisconnected =>
      case OtherHttpEvent =>
    }

    /** synchronous_rest_call: connect (on failure clear the buffer and stop), write the
        request with its headers, clear the buffer, then take what the HTTP client delivers
        until the exchange ends. */
    method SynchronousRestCall(host: string, path: string, postData: Option<string>, ex: Exchange)
      requires Valid()
      modifies this, dataBuff
      ensures Valid()
      ensures calls == old(calls) + [CallRecord(host, path, postData, ex)]
      ensures dataBuff[..] == if ex.connected then ApplyHttpEvents(Cleared(old(dataBuff[..])), ex.events)
                              else Cleared(old(dataBuff[..]))
      ensures (dataBuff[0] != NUL) == Received(ex)
    {
      if !ex.connected {
        dataBuff[0] := NUL;
        assert dataBuff[..] == Cleared(old(dataBuff[..]));
        calls := calls + [RestCall(host, path, postData, None)];
        return;
      }
      var verb := if postData.Some? then Post else Get;
      var header := new HeaderField[4](_ => SetHeaderField("", ""));
      header[0] := SetHeaderField(HTTP_HEADER_HOST, host);
      header[1] := SetHeaderField(CONNECTION_HEADER, CONNECTION_CLOSE);
      var count := 2;
      var body := "";
      if postData.Some? {
        var contentLen := ContentLength(postData.value);
        header[2] := SetHeaderField(HTTP_HEADER_CONTENT_TYPE, CONTENT_TYPE_JSON);
        header[3] := SetHeaderField(HTTP_HEADER_CONTENT_LENGTH, contentLen);
        count := 4;
        body := postData.value;
      }
      var request := Request(verb, host, path, header[..count], body);
      assert request == RequestFor(host, path, postData);
      calls := calls + [RestCall(host, path, postData, Some(request))];

      dataBuff[0] := NUL;
      ghost var start := dataBuff[..];
      assert start == Cleared(old(dataBuff[..]));
      var i := 0;
      while i < |ex.events|
        modifies dataBuff
        invariant 0 <= i <= |ex.events|
        invariant ApplyHttpEvents(dataBuff[..], ex.events[i..]) == ApplyHttpEvents(start, ex.events)
      {
        assert ex.events[i..][1..] == ex.events[i + 1..];
        OnHttpEvent(ex.events[i]);
        i := i + 1;
      }
      assert ex.events[i..] == [];
      assert dataBuff[..] == ApplyHttpEvents(start, ex.events);
      FirstByteOfEvents(start, ex.events);
    }

    /** One pass of the loop body of iotc_wiced_discover (lines 69-99). */
    method RunTry(getPath: string, postData: string, a: Attempt, tries: int) returns (sr: Option<SyncResponse>)
      requires Valid()
      requires |getPath| < RECEIVE_BUFFER_MAX_SIZE
      modifies this, dataBuff
      ensures Valid()
      ensures sr == TryDecision(TryResult(a), tries)
      ensures calls == old(calls) + TryTrace(discoveryHost, getPath, postData, a)
    {
      sr := None;
      Write(getPath + [NUL]);
      SynchronousRestCall(discoveryHost, getPath, None, a.get);
      if dataBuff[0] != NUL {
        var dr := a.dr;
        SynchronousRestCall(dr.host, SyncPath(dr), Some(postData), a.post);
        if dataBuff[0] != NUL {
          sr := a.parsed;
          if sr.Some? && sr.value.ds == ParsingError && tries != 1 {
            sr := None;
          }
        }
      }
    }

    /** iotc_wiced_discover: at most `numTries` tries; each GETs the agent descriptor and,
        if that left data, POSTs the sync request; a parsed response ends the loop unless it
        is a parsing error with tries left. */
    method Discover(env: string, cpid: string, numTries: int, postData: string, ts: seq<Attempt>)
      returns (sr: Option<SyncResponse>)
      requires Valid()
      requires numTries <= |ts|
      requires |GetPath(cpid, env)| < RECEIVE_BUFFER_MAX_SIZE
      modifies this, dataBuff
      ensures Valid()
      ensures sr == DiscoverSpec(numTries, ts)
      ensures calls == old(calls) + DiscoverTrace(discoveryHost, GetPath(cpid, env), postData, numTries, ts)
    {
      var getPath := GetPath(cpid, env);
      ghost var spec := DiscoverSpec(numTries, ts);
      ghost var trace := old(calls) + DiscoverTrace(discoveryHost, getPath, postData, numTries, ts);
      sr := None;
      var tries := numTries;
      var rest := ts;
      while sr.None? && tries > 0
        invariant Valid()
        invariant tries <= |rest|
        invariant sr.Some? ==> sr == spec && calls == trace
        invariant sr.None? ==> spec == DiscoverSpec(tries, rest)
        invariant sr.None? ==> trace == calls + DiscoverTrace(discoveryHost, getPath, postData, tries, rest)
      {
        ghost var before := calls;
        ghost var here := TryTrace(discoveryHost, getPath, postData, rest[0]);
        ghost var later := DiscoverTrace(discoveryHost, getPath, postData, tries - 1, rest[1..]);
        UnfoldDiscover(discoveryHost, getPath, postData, tries, rest);
        sr := RunTry(getPath, postData, rest[0], tries);
        assert calls == before + here;
        if sr.None? {
          assert DiscoverTrace(discoveryHost, getPath, postData, tries, rest) == here + later;
          ConcatAssoc(before, here, later);
        }
        tries := tries - 1;
        rest := rest[1..];
      }
    }
  }
}

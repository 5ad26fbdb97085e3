/** Request routing of the chat handler: the path is the URL up to its first
    '?', and the route is chosen from the HTTP verb and that path. */
module Routing {
  import opened Options

  const SendPath := "/api/chat/send"
  const SessionsPath := "/api/chat/sessions"
  const SessionPrefix := "/api/chat/sessions/"

  /** What the handler does with a request. The id of the two per-session
      routes is the parsed last path segment; `None` is `NaN`. */
  datatype Route =
    | Preflight
    | SendMessage
    | ListSessions
    | ListMessages(id: Option<int>)
    | DeleteSession(id: Option<int>)
    | NoRoute

  /** `url.split('?')[0]`: everything before the first '?'. */
  function StripQuery(url: string): (p: string)
    ensures p <= url
    ensures '?' !in p
    ensures |p| < |url| ==> url[|p|] == '?'
  {
    if url == [] || url[0] == '?' then [] else [url[0]] + StripQuery(url[1..])
  }

  /** `url?.split('?')[0] || ''`: a missing URL gives the empty path. */
  function PathOf(url: Option<string>): (p: string)
    ensures url.None? ==> p == ""
    ensures url.Some? ==> p <= url.value && '?' !in p
    ensures url.Some? && |p| < |url.value| ==> url.value[|p|] == '?'
  {
    match url
    case None => ""
    case Some(u) => StripQuery(u)
  }

  /** `path.split('/').pop()`: everything after the last '/'. */
  function LastSegment(path: string): (s: string)
    ensures |s| <= |path| && s == path[|path| - |s|..]
    ensures '/' !in s
    ensures |s| < |path| ==> path[|path| - |s| - 1] == '/'
  {
    if path == [] || path[|path| - 1] == '/' then []
    else LastSegment(path[..|path| - 1]) + [path[|path| - 1]]
  }

  predicate IsDigit(c: char) { '0' <= c <= '9' }

  function DigitValue(c: char): int { c as int - '0' as int }

  function DigitChar(d: nat): (c: char)
    requires d < 10
    ensures IsDigit(c) && DigitValue(c) == d
  {
    ('0' as int + d) as char
  }

  /** The longest prefix of `s` made of decimal digits. */
  function LeadingDigits(s: string): (d: string)
    ensures d <= s
    ensures forall i :: 0 <= i < |d| ==> IsDigit(d[i])
    ensures |d| < |s| ==> !IsDigit(s[|d|])
  {
    if s == [] || !IsDigit(s[0]) then [] else [s[0]] + LeadingDigits(s[1..])
  }

  /** The value of a digit string, most significant digit first. */
  function DigitsValue(d: string): (v: int)
    ensures (forall i :: 0 <= i < |d| ==> IsDigit(d[i])) ==> v >= 0
  {
    if d == [] then 0 else DigitsValue(d[..|d| - 1]) * 10 + DigitValue(d[|d| - 1])
  }

  /** `s` without one leading sign character. */
  function Unsigned(s: string): (u: string)
    ensures |s| > 0 && (s[0] == '-' || s[0] == '+') ==> u == s[1..]
    ensures |s| == 0 || (s[0] != '-' && s[0] != '+') ==> u == s
  {
    if |s| > 0 && (s[0] == '-' || s[0] == '+') then s[1..] else s
  }

  /** `parseInt(s)` without a radix: an optional sign followed by the leading
      decimal digits; no digits at all gives `NaN`, here `None`. */
  function ParseInt(s: string): (r: Option<int>)
    ensures r.None? <==> Unsigned(s) == [] || !IsDigit(Unsigned(s)[0])
    ensures r.Some? && |s| > 0 && s[0] == '-' ==> r.value <= 0
    ensures r.Some? && (|s| == 0 || s[0] != '-') ==> r.value >= 0
  {
    var negative := |s| > 0 && s[0] == '-';
    var unsigned := Unsigned(s);
    var digits := LeadingDigits(unsigned);
    if digits == [] then None
    else if negative then Some(-DigitsValue(digits))
    else Some(DigitsValue(digits))
  }

  /** `parseInt(path.split('/').pop() || '0')`. */
  function SegmentId(path: string): (r: Option<int>)
    ensures LastSegment(path) == "" ==> r == Some(0)
    ensures LastSegment(path) != "" ==> r == ParseInt(LastSegment(path))
  {
    var segment := LastSegment(path);
    if segment == "" then ParseIntZero(); ParseInt("0") else ParseInt(segment)
  }

  /** The default segment `"0"` reads as 0. */
  lemma ParseIntZero()
    ensures ParseInt("0") == Some(0)
  {
    var z := DecimalString(0);
    assert z == [DigitChar(0)];
    ParseIntDecimal(0);
    assert z == "0";
  }

  /** The method/path dispatch of the handler, in the order the handler tests
      the routes: OPTIONS before anything else, then send, the session list,
      the messages of one session, deletion, and otherwise 404. */
  function Dispatch(verb: string, url: Option<string>): (r: Route)
    ensures r == Preflight <==> verb == "OPTIONS"
    ensures r == SendMessage <==> verb == "POST" && PathOf(url) == SendPath
    ensures r == ListSessions <==> verb == "GET" && PathOf(url) == SessionsPath
    ensures r.ListMessages? <==> verb == "GET" && SessionPrefix <= PathOf(url)
    ensures r.DeleteSession? <==> verb == "DELETE" && SessionPrefix <= PathOf(url)
    ensures r.ListMessages? || r.DeleteSession? ==> r.id == SegmentId(PathOf(url))
  {
    if verb == "OPTIONS" then Preflight
    else
      var path := PathOf(url);
      if verb == "POST" && path == SendPath then SendMessage
      else if verb == "GET" && path == SessionsPath then ListSessions
      else if verb == "GET" && SessionPrefix <= path then ListMessages(SegmentId(path))
      else if verb == "DELETE" && SessionPrefix <= path then DeleteSession(SegmentId(path))
      else NoRoute
  }

  /** The canonical decimal spelling of a natural number. */
  function DecimalString(n: nat): (s: string)
    ensures |s| >= 1
    ensures forall i :: 0 <= i < |s| ==> IsDigit(s[i])
  {
    if n < 10 then [DigitChar(n)] else DecimalString(n / 10) + [DigitChar(n % 10)]
  }

  // ---------------------------------------------------------------- lemmas

  /** Only the part before the first '?' takes part in routing. */
  lemma {:induction false} StripQueryOf(p: string, q: string)
    requires '?' !in p
    ensures StripQuery(p + "?" + q) == p
    ensures StripQuery(p) == p
  {
    if p != [] {
      assert (p + "?" + q)[1..] == p[1..] + "?" + q;
      StripQueryOf(p[1..], q);
    }
  }

  /** A query string never changes the route. */
  lemma DispatchIgnoresQuery(verb: string, p: string, q: string)
    requires '?' !in p
    ensures Dispatch(verb, Some(p + "?" + q)) == Dispatch(verb, Some(p))
  {
    StripQueryOf(p, q);
  }

  /** The last segment of `prefix + seg` is `seg` when `prefix` ends in '/'
      and `seg` holds no '/'. */
  lemma {:induction false} LastSegmentOf(prefix: string, seg: string)
    requires |prefix| > 0 && prefix[|prefix| - 1] == '/'
    requires '/' !in seg
    ensures LastSegment(prefix + seg) == seg
  {
    if seg != [] {
      var path := prefix + seg;
      assert path[..|path| - 1] == prefix + seg[..|seg| - 1];
      LastSegmentOf(prefix, seg[..|seg| - 1]);
      assert seg == seg[..|seg| - 1] + [seg[|seg| - 1]];
    }
  }

  lemma {:induction false} DecimalValue(n: nat)
    ensures DigitsValue(DecimalString(n)) == n
  {
    var s := DecimalString(n);
    if n >= 10 {
      assert s[..|s| - 1] == DecimalString(n / 10);
      DecimalValue(n / 10);
    }
  }

  lemma LeadingDigitsAll(s: string)
    requires forall i :: 0 <= i < |s| ==> IsDigit(s[i])
    ensures LeadingDigits(s) == s
  {
  }

  /** `parseInt` reads back the decimal spelling of every natural number,
      with or without a minus sign. */
  lemma ParseIntDecimal(n: nat)
    ensures ParseInt(DecimalString(n)) == Some(n)
    ensures ParseInt("-" + DecimalString(n)) == Some(-(n as int))
  {
    var s := DecimalString(n);
    LeadingDigitsAll(s);
    DecimalValue(n);
    assert ("-" + s)[1..] == s;
  }

  /** A string that starts with neither a digit nor a sign parses to `NaN`. */
  lemma ParseIntNaN(s: string)
    requires s == [] || (!IsDigit(s[0]) && s[0] != '-' && s[0] != '+')
    ensures ParseInt(s) == None
  {
  }

  /** Any path under `/api/chat/sessions/` routes GET to the message list and
      DELETE to deletion, with the id parsed from its last segment. */
  lemma DispatchSessionPath(path: string)
    requires '?' !in path && SessionPrefix <= path
    ensures Dispatch("GET", Some(path)) == ListMessages(SegmentId(path))
    ensures Dispatch("DELETE", Some(path)) == DeleteSession(SegmentId(path))
    ensures Dispatch("POST", Some(path)) == NoRoute
  {
    StripQueryOf(path, "");
    assert PathOf(Some(path)) == path;
    assert |SessionPrefix| == 19 && |SendPath| == 14 && |SessionsPath| == 18;
    assert path != SendPath && path != SessionsPath;
  }

  /** GET and DELETE on `/api/chat/sessions/<n>` carry the id `n`. */
  lemma DispatchSessionId(n: nat)
    ensures Dispatch("GET", Some(SessionPrefix + DecimalString(n))) == ListMessages(Some(n))
    ensures Dispatch("DELETE", Some(SessionPrefix + DecimalString(n))) == DeleteSession(Some(n))
  {
    var d := DecimalString(n);
    var path := SessionPrefix + d;
    assert '?' !in SessionPrefix && '/' !in d && '?' !in d;
    assert '?' !in path;
    DispatchSessionPath(path);
    LastSegmentOf(SessionPrefix, d);
    ParseIntDecimal(n);
  }

  /** A trailing '/' leaves an empty last segment, which reads as id 0. */
  lemma DispatchTrailingSlash()
    ensures Dispatch("GET", Some(SessionPrefix)) == ListMessages(Some(0))
    ensures Dispatch("DELETE", Some(SessionPrefix)) == DeleteSession(Some(0))
  {
    assert '?' !in SessionPrefix;
    DispatchSessionPath(SessionPrefix);
    LastSegmentOf(SessionPrefix, "");
    assert SessionPrefix + "" == SessionPrefix;
  }

  /** GET on `/api/chat/sessions` itself lists the sessions. */
  lemma DispatchSessionList(q: string)
    ensures Dispatch("GET", Some(SessionsPath)) == ListSessions
    ensures Dispatch("GET", Some(SessionsPath + "?" + q)) == ListSessions
  {
    assert '?' !in SessionsPath;
    StripQueryOf(SessionsPath, q);
  }

  /** GET, POST and DELETE on any other path fall through to 404. */
  lemma DispatchUnmatched(verb: string, p: string)
    requires verb in {"GET", "POST", "DELETE"}
    requires '?' !in p
    requires p != SendPath && p != SessionsPath && !(SessionPrefix <= p)
    ensures Dispatch(verb, Some(p)) == NoRoute
  {
    StripQueryOf(p, "");
  }

  /** OPTIONS is answered before the path is looked at; a verb other than
      OPTIONS, GET, POST and DELETE is never routed; POST only reaches the
      send route. */
  lemma DispatchMethods(verb: string, url: Option<string>)
    ensures verb == "OPTIONS" <==> Dispatch(verb, url) == Preflight
    ensures verb !in {"OPTIONS", "GET", "POST", "DELETE"} ==> Dispatch(verb, url) == NoRoute
    ensures verb == "POST" ==> Dispatch(verb, url) in {SendMessage, NoRoute}
  {
  }
}

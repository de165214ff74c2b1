/** The pure part of the external-call rollup: the netloc of the called
    endpoint with its default-port rule, the metric and trace-node names, the
    removal of the three cross-process keys from a span's params, and the
    ordered list of timing metrics one external call yields. */
module ExternalNaming {
  import opened PyValues

  // ---------------------------------------------------------------------
  // The parsed URL, taken as given

  /** What the port attribute of a parse result gives: nothing, a number, or
      an exception (a port that is not a number, or is out of range). */
  datatype PortField = NoPort | Port(n: nat) | PortRaises

  /** The parts of a URL that urlparse returns and the rollup reads.
      `hostname` is what the hostname attribute gives (lower-cased, brackets
      of an IPv6 literal removed); `netloc` is the raw network location. */
  datatype UrlParts = UrlParts(
    scheme: string,
    netloc: string,
    path: string,
    pathParams: string,
    query: string,
    fragment: string,
    hostname: Option<string>,
    port: PortField)

  /** One call of the URL parser: it returns the parts or raises. */
  datatype ParseOutcome = Parsed(parts: UrlParts) | Raised

  const UnknownUrl: string := "http://unknown.url"

  /** What urlparse gives for UnknownUrl. */
  const UnknownParts: UrlParts :=
    UrlParts("http", "unknown.url", "", "", "", "", Some("unknown.url"), NoPort)

  /** The text handed to the parser: `url or ''`. */
  function UrlText(url: Option<string>): string {
    if url.Some? then url.value else ""
  }

  /** The value of the memoised details property: the parse of the URL, or
      the parse of UnknownUrl when parsing raises. */
  function DetailsOf(parse: string -> ParseOutcome, url: Option<string>): UrlParts {
    match parse(UrlText(url))
    case Parsed(p) => p
    case Raised => UnknownParts
  }

  // ---------------------------------------------------------------------
  // Netloc normalisation

  function LowerChar(c: char): char {
    if 'A' <= c <= 'Z' then (c as int + 32) as char else c
  }

  /** str.lower on the ASCII letters a URL scheme is made of: the result has
      no upper-case letter, each upper-case letter becomes its lower-case
      counterpart, and every other character is kept. */
  function Lower(s: string): (r: string)
    ensures |r| == |s|
    ensures forall i :: 0 <= i < |r| ==> !('A' <= r[i] <= 'Z')
    ensures forall i :: 0 <= i < |s| && 'A' <= s[i] <= 'Z' ==> r[i] as int == s[i] as int + 32
    ensures forall i :: 0 <= i < |s| && !('A' <= s[i] <= 'Z') ==> r[i] == s[i]
  {
    seq(|s|, i requires 0 <= i < |s| => LowerChar(s[i]))
  }

  /** Lower-casing twice is lower-casing once. */
  lemma LowerIdempotent(s: string)
    ensures Lower(Lower(s)) == Lower(s)
  {
  }

  /** `details.hostname or 'unknown'`: an absent or empty hostname is "unknown". */
  function HostOrUnknown(p: UrlParts): (h: string)
    ensures h != ""
    ensures p.hostname.Some? && p.hostname.value != "" ==> h == p.hostname.value
    ensures p.hostname.None? || p.hostname == Some("") ==> h == "unknown"
  {
    if p.hostname.Some? && p.hostname.value != "" then p.hostname.value else "unknown"
  }

  /** The lower-cased scheme and the port; both None when reading the port raises. */
  function SchemeAndPort(p: UrlParts): (Option<string>, Option<nat>) {
    match p.port
    case PortRaises => (None, None)
    case NoPort => (Some(Lower(p.scheme)), None)
    case Port(n) => (Some(Lower(p.scheme)), Some(n))
  }

  predicate IsDefaultPort(scheme: Option<string>, port: Option<nat>) {
    (scheme, port) == (Some("http"), Some(80)) || (scheme, port) == (Some("https"), Some(443))
  }

  /** The port written into the netloc, if any: a default port for the scheme
      is dropped, and so is an absent or zero port (`port and ... or hostname`). */
  function NetlocPort(p: UrlParts): (r: Option<nat>)
    ensures r.Some? ==> p.port == Port(r.value) && r.value != 0
    ensures r.Some? ==> !IsDefaultPort(Some(Lower(p.scheme)), r)
    ensures p.port.NoPort? || p.port.PortRaises? ==> r.None?
  {
    var (scheme, port) := SchemeAndPort(p);
    var port' := if IsDefaultPort(scheme, port) then None else port;
    if port'.Some? && port'.value != 0 then port' else None
  }

  /** The endpoint part of every per-host metric name: host, or host:port. */
  function Netloc(p: UrlParts): (r: string)
    ensures IsPrefix(HostOrUnknown(p), r)
    ensures r == HostOrUnknown(p) <==> NetlocPort(p).None?
  {
    var port := NetlocPort(p);
    if port.Some? then HostOrUnknown(p) + ":" + Decimal(port.value) else HostOrUnknown(p)
  }

  /** The default-port rule: the netloc is the bare host exactly when the port
      is absent, zero or unreadable, or is 80 under http or 443 under https;
      otherwise it is host, a colon and the port in decimal. */
  lemma DefaultPortRule(p: UrlParts)
    ensures Netloc(p) == HostOrUnknown(p) <==>
      || p.port.PortRaises? || p.port == NoPort || p.port == Port(0)
      || (Lower(p.scheme) == "http" && p.port == Port(80))
      || (Lower(p.scheme) == "https" && p.port == Port(443))
    ensures Netloc(p) != HostOrUnknown(p) ==>
      p.port.Port? && Netloc(p) == HostOrUnknown(p) + ":" + Decimal(p.port.n)
  {
  }

  /** Where the last ':' of a text stands, if it has one. */
  function LastColon(s: string): (k: Option<nat>)
    ensures k.Some? ==> k.value < |s| && s[k.value] == ':'
    ensures k.Some? ==> forall j :: k.value < j < |s| ==> s[j] != ':'
    ensures k.None? ==> forall j :: 0 <= j < |s| ==> s[j] != ':'
  {
    if s == [] then None
    else if s[|s| - 1] == ':' then Some(|s| - 1)
    else LastColon(s[..|s| - 1])
  }

  /** Reads a netloc back as a host and a port: the port is the text after the
      last ':' when that text is a non-empty run of digits. */
  function SplitHostPort(netloc: string): (string, Option<nat>) {
    match LastColon(netloc)
    case None => (netloc, None)
    case Some(k) =>
      var digits := netloc[k + 1..];
      if digits != [] && AllDigits(digits) then (netloc[..k], Some(DigitsValue(digits)))
      else (netloc, None)
  }

  /** For a host without ':' the netloc determines the endpoint: splitting it
      gives back the host and the port that was kept. */
  lemma {:induction false} NetlocDeterminesEndpoint(p: UrlParts)
    requires forall i :: 0 <= i < |HostOrUnknown(p)| ==> HostOrUnknown(p)[i] != ':'
    ensures SplitHostPort(Netloc(p)) == (HostOrUnknown(p), NetlocPort(p))
  {
    var h := HostOrUnknown(p);
    match NetlocPort(p)
    case None =>
      assert LastColon(h).None?;
    case Some(n) =>
      var d := Decimal(n);
      var s := h + ":" + d;
      assert s[|h|] == ':';
      assert forall j :: |h| < j < |s| ==> s[j] == d[j - |h| - 1];
      var k := LastColon(s);
      assert k == Some(|h|);
      assert s[|h| + 1..] == d;
      assert s[..|h|] == h;
      DecimalRoundTrip(n);
  }

  /** An IPv6 host loses its brackets, so [::1]:8080 and [::1:8080] on the
      default port share the netloc "::1:8080": the precondition of
      NetlocDeterminesEndpoint is needed. */
  lemma Ipv6NetlocsCollide()
    ensures Netloc(UrlParts("http", "[::1]:8080", "", "", "", "", Some("::1"), Port(8080)))
         == Netloc(UrlParts("http", "[::1:8080]", "", "", "", "", Some("::1:8080"), NoPort))
  {
  }

  /** Normalising again the host and port a netloc was made of gives the
      same netloc. */
  lemma NetlocIdempotent(p: UrlParts)
    ensures var q := p.(hostname := Some(HostOrUnknown(p)),
                        port := if NetlocPort(p).Some? then Port(NetlocPort(p).value) else NoPort);
      Netloc(q) == Netloc(p) && NetlocPort(q) == NetlocPort(p)
  {
  }

  /** A URL the parser cannot read is named and stored as the placeholder
      host: the netloc is "unknown.url" and the stored URL http://unknown.url. */
  lemma DetailsFallback(parse: string -> ParseOutcome, url: Option<string>)
    requires parse(UrlText(url)).Raised?
    ensures Netloc(DetailsOf(parse, url)) == "unknown.url"
    ensures ReconstructedUrl(DetailsOf(parse, url)) == UnknownUrl
  {
  }

  // ---------------------------------------------------------------------
  // URL written into the trace node

  /** urlunsplit of (scheme, netloc, path, '', ''), without its special case
      for schemes that use a netloc when the netloc is empty. */
  function Unsplit(scheme: string, netloc: string, path: string): string {
    var rest :=
      if netloc != "" then
        "//" + netloc + (if path != "" && path[0] != '/' then "/" + path else path)
      else path;
    if scheme != "" then scheme + ":" + rest else rest
  }

  /** The URL stored in the trace node: scheme, raw netloc and path only. */
  function ReconstructedUrl(d: UrlParts): (r: string)
    ensures d.scheme != "" && d.netloc != "" ==> IsPrefix(d.scheme + "://" + d.netloc, r)
    ensures d.scheme == "" && d.netloc == "" ==> r == d.path
  {
    Unsplit(d.scheme, d.netloc, d.path)
  }

  /** The stored URL is scheme://netloc/path for a usual absolute URL; the raw
      netloc keeps any port. */
  lemma ReconstructedUrlForm(d: UrlParts)
    requires d.scheme != "" && d.netloc != "" && (d.path == "" || d.path[0] == '/')
    ensures ReconstructedUrl(d) == d.scheme + "://" + d.netloc + d.path
  {
  }

  /** The query, fragment and path parameters never reach the stored URL. */
  lemma ReconstructedUrlStripsQuery(d: UrlParts, pathParams: string, query: string, fragment: string)
    ensures ReconstructedUrl(d.(pathParams := pathParams, query := query, fragment := fragment))
         == ReconstructedUrl(d)
  {
  }

  // ---------------------------------------------------------------------
  // Cross-process keys

  const CrossProcessIdKey: string := "cross_process_id"
  const ExternalTxnNameKey: string := "external_txn_name"
  const ExternalExclusiveKey: string := "external_exclusive"
  const UrlKey: string := "url"

  /** The three keys, in the order they are popped. */
  const LinkKeys: seq<string> := [CrossProcessIdKey, ExternalTxnNameKey, ExternalExclusiveKey]

  /** What popping the three keys leaves behind: the remaining params, the
      cross-process id and transaction name (None unless all three were there),
      and the popped exclusive time when all three were there. */
  datatype Extraction = Extraction(
    remaining: map<string, Value>,
    crossProcessId: Value,
    externalTxnName: Value,
    externalExclusive: Option<Value>)

  /** Pops the keys in order, stopping at the first one that is missing. */
  function Extract(params: map<string, Value>): (x: Extraction)
    ensures x.remaining.Keys <= params.Keys
    ensures x.externalExclusive.Some? ==>
      x.remaining.Keys == params.Keys - {CrossProcessIdKey, ExternalTxnNameKey, ExternalExclusiveKey}
    ensures x.externalExclusive.None? ==> x.crossProcessId == PyNone && x.externalTxnName == PyNone
  {
    if CrossProcessIdKey !in params then
      Extraction(params, PyNone, PyNone, None)
    else if ExternalTxnNameKey !in params then
      Extraction(params - {CrossProcessIdKey}, PyNone, PyNone, None)
    else if ExternalExclusiveKey !in params then
      Extraction(params - {CrossProcessIdKey, ExternalTxnNameKey}, PyNone, PyNone, None)
    else
      Extraction(params - {CrossProcessIdKey, ExternalTxnNameKey, ExternalExclusiveKey},
                 params[CrossProcessIdKey], params[ExternalTxnNameKey],
                 Some(params[ExternalExclusiveKey]))
  }

  /** The exclusive time the metrics report. */
  function ReportedExclusive(x: Extraction, exclusive: Value): Value {
    if x.externalExclusive.Some? then x.externalExclusive.value else exclusive
  }

  /** All three keys are popped exactly when all three are present, and the
      extraction then carries their values (whatever they are, None included);
      when a key is missing, id and name are None and the span's own exclusive
      time is reported. */
  lemma ExtractAllPoppedIffAllKeys(params: map<string, Value>, exclusive: Value)
    ensures Extract(params).externalExclusive.Some? <==>
      forall i :: 0 <= i < |LinkKeys| ==> LinkKeys[i] in params
    ensures Extract(params).externalExclusive.Some? ==>
      && Extract(params).crossProcessId == params[CrossProcessIdKey]
      && Extract(params).externalTxnName == params[ExternalTxnNameKey]
      && ReportedExclusive(Extract(params), exclusive) == params[ExternalExclusiveKey]
    ensures Extract(params).externalExclusive.None? ==>
      && Extract(params).crossProcessId == PyNone
      && Extract(params).externalTxnName == PyNone
      && ReportedExclusive(Extract(params), exclusive) == exclusive
  {
    assert LinkKeys[0] == CrossProcessIdKey && LinkKeys[1] == ExternalTxnNameKey;
    assert LinkKeys[2] == ExternalExclusiveKey;
  }

  /** Popping removes only cross-process keys: every other key keeps its
      value, and nothing is added. */
  lemma ExtractKeepsOtherKeys(params: map<string, Value>)
    ensures Extract(params).remaining.Keys <= params.Keys
    ensures forall k :: k in params && k !in LinkKeys ==>
      k in Extract(params).remaining && Extract(params).remaining[k] == params[k]
    ensures forall k :: k in Extract(params).remaining ==> Extract(params).remaining[k] == params[k]
  {
  }

  /** A key is removed exactly when it and every key popped before it were
      present: a missing key stops the popping, but what was popped stays popped. */
  lemma ExtractRemovesPresentPrefix(params: map<string, Value>)
    ensures forall j :: 0 <= j < |LinkKeys| ==>
      ((LinkKeys[j] in params && LinkKeys[j] !in Extract(params).remaining) <==>
       forall i :: 0 <= i <= j ==> LinkKeys[i] in params)
  {
    assert LinkKeys[0] == CrossProcessIdKey && LinkKeys[1] == ExternalTxnNameKey;
    assert LinkKeys[2] == ExternalExclusiveKey;
  }

  /** A second extraction finds the keys gone: it removes nothing and takes
      the branch for a missing key (id None, so not linked), whatever the
      first one found. */
  lemma SecondExtractIsUnlinked(params: map<string, Value>)
    ensures Extract(Extract(params).remaining).remaining == Extract(params).remaining
    ensures Extract(Extract(params).remaining).crossProcessId == PyNone
    ensures Extract(Extract(params).remaining).externalExclusive.None?
  {
  }

  // ---------------------------------------------------------------------
  // Names and metrics

  const ExternalAll: string := "External/all"
  const ExternalAllWeb: string := "External/allWeb"
  const ExternalAllOther: string := "External/allOther"
  const WebTransaction: string := "WebTransaction"

  /** One timing metric, keyed by name and scope. */
  datatype Metric = Metric(name: string, scope: string, duration: Value, exclusive: Value)

  /** What names one call: the normalised netloc, the library, the request
      method (`method or ''`) and the cross-process id and transaction name
      left by the extraction. */
  datatype CallKey = CallKey(
    netloc: string,
    library: string,
    requestMethod: string,
    crossProcessId: Value,
    externalTxnName: Value)

  /** Naming takes the cross-process scheme when the id is not None. */
  predicate IsLinked(c: CallKey) {
    c.crossProcessId != PyNone
  }

  function HostAllName(netloc: string): string {
    "External/" + netloc + "/all"
  }

  function PlainCallName(netloc: string, library: string, requestMethod: string): string {
    "External/" + netloc + "/" + library + "/" + requestMethod
  }

  function TransactionName(netloc: string, crossProcessId: Value, txnName: Value): string {
    "ExternalTransaction/" + netloc + "/" + Show(crossProcessId) + "/" + Show(txnName)
  }

  function AppName(netloc: string, crossProcessId: Value): string {
    "ExternalApp/" + netloc + "/" + Show(crossProcessId) + "/all"
  }

  /** The name of the trace node of a call. */
  function NodeName(c: CallKey): (r: string)
    ensures IsPrefix("External/" + c.netloc + "/", r) <==> !IsLinked(c)
    ensures IsLinked(c) ==> IsPrefix("ExternalTransaction/" + c.netloc + "/", r)
  {
    if !IsLinked(c) then PlainCallName(c.netloc, c.library, c.requestMethod)
    else
      var r := TransactionName(c.netloc, c.crossProcessId, c.externalTxnName);
      DifferingCharNotPrefix("External/" + c.netloc + "/", r, 8);
      r
  }

  /** The metrics of one external call, in the order they are yielded. */
  function MetricsFor(c: CallKey, transactionType: string, path: string,
                      duration: Value, exclusive: Value): (ms: seq<Metric>)
    ensures |ms| == 5
    ensures ms[ScopedIndex(c)].scope == path
    ensures forall i :: 0 <= i < |ms| && i != ScopedIndex(c) ==> ms[i].scope == ""
  {
    var rollup := if transactionType == WebTransaction then ExternalAllWeb else ExternalAllOther;
    [Metric(ExternalAll, "", duration, exclusive), Metric(rollup, "", duration, exclusive)] +
    if !IsLinked(c) then
      var name := PlainCallName(c.netloc, c.library, c.requestMethod);
      [Metric(HostAllName(c.netloc), "", duration, exclusive),
       Metric(name, "", duration, exclusive),
       Metric(name, path, duration, exclusive)]
    else
      var name := TransactionName(c.netloc, c.crossProcessId, c.externalTxnName);
      [Metric(name, "", duration, exclusive),
       Metric(name, path, duration, exclusive),
       Metric(AppName(c.netloc, c.crossProcessId), "", duration, exclusive)]
  }

  /** Position of the one metric scoped to the transaction path. */
  function ScopedIndex(c: CallKey): nat {
    if IsLinked(c) then 3 else 4
  }

  /** How many metrics carry a given scope. */
  function CountScope(ms: seq<Metric>, scope: string): (n: nat)
    ensures n <= |ms|
  {
    if ms == [] then 0
    else CountScope(ms[..|ms| - 1], scope) + (if ms[|ms| - 1].scope == scope then 1 else 0)
  }

  /** Every call yields five metrics, External/all first, then
      External/allWeb exactly for a web transaction and External/allOther
      otherwise, all with the span's duration and one exclusive time. */
  lemma MetricsShape(c: CallKey, transactionType: string, path: string, duration: Value, exclusive: Value)
    ensures var ms := MetricsFor(c, transactionType, path, duration, exclusive);
      && |ms| == 5
      && ms[0].name == ExternalAll
      && (ms[1].name == ExternalAllWeb <==> transactionType == WebTransaction)
      && (ms[1].name == ExternalAllOther <==> transactionType != WebTransaction)
      && forall i :: 0 <= i < |ms| ==> ms[i].duration == duration && ms[i].exclusive == exclusive
  {
  }

  /** One metric, the second of the two per-call metrics, is scoped to the
      transaction path; the other four are unscoped. */
  lemma MetricsScopes(c: CallKey, transactionType: string, path: string, duration: Value, exclusive: Value)
    ensures var ms := MetricsFor(c, transactionType, path, duration, exclusive);
      forall i :: 0 <= i < |ms| ==> ms[i].scope == (if i == ScopedIndex(c) then path else "")
  {
  }

  /** In metrics that are all unscoped, no metric carries a non-empty scope. */
  lemma {:induction false} CountScopeAllUnscoped(ms: seq<Metric>, scope: string)
    requires scope != ""
    requires forall i :: 0 <= i < |ms| ==> ms[i].scope == ""
    ensures CountScope(ms, scope) == 0 && CountScope(ms, "") == |ms|
  {
    if ms != [] {
      CountScopeAllUnscoped(ms[..|ms| - 1], scope);
    }
  }

  /** In metrics where only the one at j is scoped, that scope is counted once
      and the empty scope for all the others. */
  lemma {:induction false} CountScopeOneScoped(ms: seq<Metric>, j: nat, scope: string)
    requires j < |ms| && scope != ""
    requires forall i :: 0 <= i < |ms| ==> ms[i].scope == (if i == j then scope else "")
    ensures CountScope(ms, scope) == 1 && CountScope(ms, "") == |ms| - 1
  {
    if j == |ms| - 1 {
      CountScopeAllUnscoped(ms[..|ms| - 1], scope);
    } else {
      CountScopeOneScoped(ms[..|ms| - 1], j, scope);
    }
  }

  /** For a non-empty path exactly one metric carries it as scope and four
      carry the empty scope. */
  lemma ScopedExactlyOnce(c: CallKey, transactionType: string, path: string,
                          duration: Value, exclusive: Value)
    requires path != ""
    ensures CountScope(MetricsFor(c, transactionType, path, duration, exclusive), path) == 1
    ensures CountScope(MetricsFor(c, transactionType, path, duration, exclusive), "") == 4
  {
    MetricsScopes(c, transactionType, path, duration, exclusive);
    CountScopeOneScoped(MetricsFor(c, transactionType, path, duration, exclusive), ScopedIndex(c), path);
  }

  /** Unlinked call: External/{netloc}/all, then the per-call name twice. */
  lemma UnlinkedNames(c: CallKey, transactionType: string, path: string, duration: Value, exclusive: Value)
    requires !IsLinked(c)
    ensures var ms := MetricsFor(c, transactionType, path, duration, exclusive);
      && ms[2].name == "External/" + c.netloc + "/all"
      && ms[3].name == ms[4].name == "External/" + c.netloc + "/" + c.library + "/" + c.requestMethod
  {
  }

  /** Linked call: the transaction name twice, then the app name. */
  lemma LinkedNames(c: CallKey, transactionType: string, path: string, duration: Value, exclusive: Value)
    requires IsLinked(c)
    ensures var ms := MetricsFor(c, transactionType, path, duration, exclusive);
      && ms[2].name == ms[3].name ==
         "ExternalTransaction/" + c.netloc + "/" + Show(c.crossProcessId) + "/" + Show(c.externalTxnName)
      && ms[4].name == "ExternalApp/" + c.netloc + "/" + Show(c.crossProcessId) + "/all"
  {
  }

  predicate IsPrefix(prefix: string, s: string) {
    |prefix| <= |s| && s[..|prefix|] == prefix
  }

  /** A text is no prefix of a name that differs from it at some position. */
  lemma DifferingCharNotPrefix(prefix: string, name: string, k: nat)
    requires k < |prefix| && k < |name| && prefix[k] != name[k]
    ensures !IsPrefix(prefix, name)
  {
  }

  /** "External/" followed by text without '/' starts with no "External/{netloc}/". */
  lemma RollupNameNotPlain(netloc: string, tail: string)
    requires forall i :: 0 <= i < |tail| ==> tail[i] != '/'
    ensures !IsPrefix("External/" + netloc + "/", "External/" + tail)
  {
    var prefix := "External/" + netloc + "/";
    var name := "External/" + tail;
    if |prefix| <= |name| {
      var k := |prefix| - 1;
      assert prefix[k] == '/';
      assert name[k] == tail[k - 9];
      DifferingCharNotPrefix(prefix, name, k);
    }
  }

  /** A linked call yields no plain per-host name External/{netloc}/...,
      whatever the netloc is. */
  lemma {:induction false} NoPlainNameWhenLinked(c: CallKey, transactionType: string, path: string,
                                                 duration: Value, exclusive: Value)
    requires IsLinked(c)
    ensures var ms := MetricsFor(c, transactionType, path, duration, exclusive);
      forall i :: 0 <= i < |ms| ==> !IsPrefix("External/" + c.netloc + "/", ms[i].name)
  {
    var ms := MetricsFor(c, transactionType, path, duration, exclusive);
    var prefix := "External/" + c.netloc + "/";
    assert prefix[8] == '/';
    RollupNameNotPlain(c.netloc, "all");
    RollupNameNotPlain(c.netloc, "allWeb");
    RollupNameNotPlain(c.netloc, "allOther");
    assert ExternalAll == "External/" + "all";
    assert ExternalAllWeb == "External/" + "allWeb";
    assert ExternalAllOther == "External/" + "allOther";
    DifferingCharNotPrefix(prefix, ms[2].name, 8);
    DifferingCharNotPrefix(prefix, ms[4].name, 8);
  }

  /** The trace node is named like the per-call metrics: the name the
      scoped metric and the unscoped one just before it carry. */
  lemma NodeNameIsCallMetricName(c: CallKey, transactionType: string, path: string,
                                 duration: Value, exclusive: Value)
    ensures var ms := MetricsFor(c, transactionType, path, duration, exclusive);
      && ms[ScopedIndex(c)].name == NodeName(c)
      && ms[ScopedIndex(c) - 1].name == NodeName(c)
      && ms[ScopedIndex(c)].scope == path
  {
  }

  /** A GET through "requests" to https://api.example.com:443/v1/items: the
      default port disappears from the netloc. */
  lemma ExampleHttpsDefaultPort()
    ensures Netloc(UrlParts("https", "api.example.com:443", "/v1/items", "", "", "",
                            Some("api.example.com"), Port(443))) == "api.example.com"
  {
    assert Lower("https") == "https";
  }

  /** The metrics of that call inside the web transaction
      WebTransaction/Function/app:index. */
  lemma ExampleHttpsMetrics(duration: Value, exclusive: Value)
    ensures var c := CallKey("api.example.com", "requests", "GET", PyNone, PyNone);
      var path := "WebTransaction/Function/app:index";
      MetricsFor(c, WebTransaction, path, duration, exclusive) ==
        [Metric("External/all", "", duration, exclusive),
         Metric("External/allWeb", "", duration, exclusive),
         Metric("External/api.example.com/all", "", duration, exclusive),
         Metric("External/api.example.com/requests/GET", "", duration, exclusive),
         Metric("External/api.example.com/requests/GET", path, duration, exclusive)]
  {
    assert HostAllName("api.example.com") == "External/api.example.com/all";
    assert PlainCallName("api.example.com", "requests", "GET") == "External/api.example.com/requests/GET";
  }

  /** http://h:81/p?x=1#f keeps its port in the metric names and is stored
      in the trace node as http://h:81/p. */
  lemma ExampleQueryStripped()
    ensures var p := UrlParts("http", "h:81", "/p", "", "x=1", "f", Some("h"), Port(81));
      Netloc(p) == "h:81" && ReconstructedUrl(p) == "http://h:81/p"
  {
  }
}

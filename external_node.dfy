/** The external-call span and the transaction it belongs to, as objects: the
    span memoises its parsed URL, pops the cross-process keys out of its own
    params when its metrics are taken, and writes the stripped URL into those
    params when its trace node is built; the root counts the trace nodes. */
module ExternalSpan {
  import opened PyValues
  import opened ExternalNaming

  /** The transaction a span belongs to. Only the node counter changes here. */
  class Root {
    /** `root.type`: "WebTransaction" for a web-originated transaction. */
    const transactionType: string
    /** The metric scope of this transaction. */
    const path: string
    var traceNodeCount: int

    constructor (transactionType: string, path: string, traceNodeCount: int)
      ensures this.transactionType == transactionType && this.path == path
      ensures this.traceNodeCount == traceNodeCount
    {
      this.transactionType := transactionType;
      this.path := path;
      this.traceNodeCount := traceNodeCount;
    }
  }

  /** One node of a transaction's trace tree. */
  datatype TraceNode = TraceNode(
    startTime: Value,
    endTime: Value,
    name: string,
    params: map<string, Value>,
    children: seq<TraceNode>,
    nodeLabel: string,
    methodName: string)

  /** One recorded outbound call. */
  class ExternalNode {
    const library: string
    const url: Option<string>
    /** The request method; None when it was not recorded. */
    const requestMethod: Option<string>
    const startTime: Value
    const endTime: Value
    const duration: Value
    const exclusive: Value
    /** The URL parser the span is read with. */
    const parse: string -> ParseOutcome

    var params: map<string, Value>
    /** The memoised details property; None until first read. */
    var detailsCache: Option<UrlParts>
    /** The attributes the metrics step assigns; None until it first runs.
        A Python None stored in them is PyNone. */
    var crossProcessId: Option<Value>
    var externalTxnName: Option<Value>
    var externalExclusive: Option<Value>

    /** The parser turns the fallback URL into its known parts, the memo
        holds the parse of the span's URL once filled, and the two naming
        attributes are assigned together. */
    ghost predicate Valid()
      reads this
    {
      && parse(UnknownUrl) == Parsed(UnknownParts)
      && (detailsCache.Some? ==> detailsCache.value == DetailsOf(parse, url))
      && (crossProcessId.Some? <==> externalTxnName.Some?)
    }

    constructor (library: string, url: Option<string>, requestMethod: Option<string>,
                 startTime: Value, endTime: Value, duration: Value, exclusive: Value,
                 params: map<string, Value>, parse: string -> ParseOutcome)
      requires parse(UnknownUrl) == Parsed(UnknownParts)
      ensures Valid()
      ensures this.library == library && this.url == url && this.requestMethod == requestMethod
      ensures this.startTime == startTime && this.endTime == endTime
      ensures this.duration == duration && this.exclusive == exclusive
      ensures this.params == params && this.parse == parse
      ensures detailsCache == None && crossProcessId == None
      ensures externalTxnName == None && externalExclusive == None
    {
      this.library := library;
      this.url := url;
      this.requestMethod := requestMethod;
      this.startTime := startTime;
      this.endTime := endTime;
      this.duration := duration;
      this.exclusive := exclusive;
      this.params := params;
      this.parse := parse;
      detailsCache := None;
      crossProcessId := None;
      externalTxnName := None;
      externalExclusive := None;
    }

    /** `self.method or ''`. */
    function MethodText(): string
    {
      if requestMethod.Some? then requestMethod.value else ""
    }

    /** The name key of this call once the metrics step has run. */
    ghost function Key(): CallKey
      reads this
      requires crossProcessId.Some? && externalTxnName.Some?
    {
      CallKey(Netloc(DetailsOf(parse, url)), library, MethodText(),
              crossProcessId.value, externalTxnName.value)
    }

    /** The details property: parses the URL on first read (falling back to
        the parse of UnknownUrl when the parser raises) and afterwards returns
        the memoised parts. */
    method Details() returns (d: UrlParts)
      requires Valid()
      modifies this`detailsCache
      ensures Valid()
      ensures d == DetailsOf(parse, url)
      ensures old(detailsCache).Some? ==> d == old(detailsCache).value
      ensures detailsCache == Some(d)
    {
      if detailsCache.Some? {
        return detailsCache.value;
      }
      var outcome := parse(UrlText(url));
      match outcome {
        case Parsed(p) => d := p;
        case Raised =>
          var fallback := parse(UnknownUrl);
          d := fallback.parts;
      }
      detailsCache := Some(d);
    }

    /** Pops cross_process_id, external_txn_name and external_exclusive from
        params in that order, stopping at the first that is missing. When all
        three were there, the popped values are kept (the call is linked only
        when the popped id is not None); otherwise id and name become None and
        external_exclusive keeps whatever value it had. */
    method PopLinkKeys() returns (allPopped: bool)
      requires Valid()
      modifies this`params, this`crossProcessId, this`externalTxnName, this`externalExclusive
      ensures Valid()
      ensures var x := Extract(old(params));
        && allPopped == x.externalExclusive.Some?
        && params == x.remaining
        && crossProcessId == Some(x.crossProcessId)
        && externalTxnName == Some(x.externalTxnName)
        && externalExclusive == (if allPopped then x.externalExclusive else old(externalExclusive))
    {
      allPopped := false;
      if CrossProcessIdKey in params {
        crossProcessId := Some(params[CrossProcessIdKey]);
        params := params - {CrossProcessIdKey};
        if ExternalTxnNameKey in params {
          externalTxnName := Some(params[ExternalTxnNameKey]);
          params := params - {ExternalTxnNameKey};
          if ExternalExclusiveKey in params {
            externalExclusive := Some(params[ExternalExclusiveKey]);
            params := params - {ExternalExclusiveKey};
            allPopped := true;
          }
        }
      }
      if !allPopped {
        crossProcessId := Some(PyNone);
        externalTxnName := Some(PyNone);
      }
    }

    /** The timing metrics of this call, in the order they are yielded; the
        cross-process keys are popped first, and a call that found all three
        reports the popped exclusive time. */
    method TimeMetrics(root: Root) returns (metrics: seq<Metric>)
      requires Valid()
      modifies this
      ensures Valid()
      ensures detailsCache == Some(DetailsOf(parse, url))
      ensures var x := Extract(old(params));
        && params == x.remaining
        && crossProcessId == Some(x.crossProcessId)
        && externalTxnName == Some(x.externalTxnName)
        && externalExclusive == (if x.externalExclusive.Some? then x.externalExclusive
                                 else old(externalExclusive))
        && metrics == MetricsFor(Key(), root.transactionType, root.path, duration,
                                 ReportedExclusive(x, exclusive))
    {
      var details := Details();
      var netloc := Netloc(details);

      var allPopped := PopLinkKeys();
      var reported := if allPopped then externalExclusive.value else exclusive;

      var rollup: Metric;
      if root.transactionType == WebTransaction {
        rollup := Metric(ExternalAllWeb, "", duration, reported);
      } else {
        rollup := Metric(ExternalAllOther, "", duration, reported);
      }
      metrics := [Metric(ExternalAll, "", duration, reported), rollup];

      var key := CallKey(netloc, library, MethodText(), crossProcessId.value, externalTxnName.value);
      if !IsLinked(key) {
        var name := PlainCallName(netloc, library, key.requestMethod);
        metrics := metrics + [Metric(HostAllName(netloc), "", duration, reported),
                              Metric(name, "", duration, reported),
                              Metric(name, root.path, duration, reported)];
      } else {
        var name := TransactionName(netloc, key.crossProcessId, key.externalTxnName);
        metrics := metrics + [Metric(name, "", duration, reported),
                              Metric(name, root.path, duration, reported),
                              Metric(AppName(netloc, key.crossProcessId), "", duration, reported)];
      }
    }

    /** The trace node of this call. It reads cross_process_id, which only
        the metrics step assigns; without that step the attribute lookup
        raises, so the metrics step must have run. `nodeStart` and `nodeEnd` are the times the
        root computes for this span. Counts the node on the root and writes
        the URL without query and fragment into params under "url". */
    method BuildTraceNode(root: Root, nodeStart: Value, nodeEnd: Value) returns (node: TraceNode)
      requires Valid() && crossProcessId.Some?
      modifies this, root
      ensures Valid()
      ensures root.traceNodeCount == old(root.traceNodeCount) + 1
      ensures params == old(params)[UrlKey := Str(ReconstructedUrl(DetailsOf(parse, url)))]
      ensures crossProcessId == old(crossProcessId) && externalTxnName == old(externalTxnName)
      ensures externalExclusive == old(externalExclusive)
      ensures detailsCache == Some(DetailsOf(parse, url))
      ensures node.name == NodeName(Key()) && node.nodeLabel == node.name
      ensures node.params == params && node.children == [] && node.methodName == ""
      ensures node.startTime == nodeStart && node.endTime == nodeEnd
    {
      var details := Details();
      var netloc := Netloc(details);
      var key := CallKey(netloc, library, MethodText(), crossProcessId.value, externalTxnName.value);

      var name: string;
      if !IsLinked(key) {
        name := PlainCallName(netloc, library, key.requestMethod);
      } else {
        name := TransactionName(netloc, key.crossProcessId, key.externalTxnName);
      }

      root.traceNodeCount := root.traceNodeCount + 1;

      var url := Unsplit(details.scheme, details.netloc, details.path);
      params := params[UrlKey := Str(url)];

      node := TraceNode(nodeStart, nodeEnd, name, params, [], name, "");
    }
  }

  /** Both rollups of one span, metrics first (building the trace node reads
      the cross-process attributes only the metrics step assigns): the trace
      node carries the name of the per-call metrics, and the root has counted
      one more node. */
  method Rollup(span: ExternalNode, root: Root, nodeStart: Value, nodeEnd: Value)
    returns (metrics: seq<Metric>, node: TraceNode)
    requires span.Valid()
    modifies span, root
    ensures span.Valid()
    ensures |metrics| == 5 && metrics[0].name == ExternalAll
    ensures span.crossProcessId.Some? && span.externalTxnName.Some?
    ensures var k := ScopedIndex(span.Key());
      && metrics[k].name == node.name && metrics[k].scope == root.path
      && metrics[k - 1].name == node.name && metrics[k - 1].scope == ""
    ensures root.traceNodeCount == old(root.traceNodeCount) + 1
    ensures var x := Extract(old(span.params));
      && span.params == x.remaining[UrlKey := Str(ReconstructedUrl(DetailsOf(span.parse, span.url)))]
      && span.crossProcessId == Some(x.crossProcessId)
      && span.externalTxnName == Some(x.externalTxnName)
      && span.externalExclusive == (if x.externalExclusive.Some? then x.externalExclusive
                                    else old(span.externalExclusive))
      && metrics == MetricsFor(span.Key(), root.transactionType, root.path, span.duration,
                               ReportedExclusive(x, span.exclusive))
    ensures span.detailsCache == Some(DetailsOf(span.parse, span.url))
    ensures node.params == span.params && UrlKey in node.params
    ensures node.name == NodeName(span.Key()) && node.nodeLabel == node.name
    ensures node.children == [] && node.methodName == ""
    ensures node.startTime == nodeStart && node.endTime == nodeEnd
  {
    metrics := span.TimeMetrics(root);
    ghost var x := Extract(old(span.params));
    MetricsShape(span.Key(), root.transactionType, root.path, span.duration, ReportedExclusive(x, span.exclusive));
    MetricsScopes(span.Key(), root.transactionType, root.path, span.duration, ReportedExclusive(x, span.exclusive));
    NodeNameIsCallMetricName(span.Key(), root.transactionType, root.path, span.duration,
                             ReportedExclusive(x, span.exclusive));
    node := span.BuildTraceNode(root, nodeStart, nodeEnd);
  }

  /** The metrics step run a second time finds the cross-process keys gone:
      it removes nothing more and takes the unlinked branch, naming the call
      External/{netloc}/{library}/{method}. When the first run did not find
      all three keys either, both runs yield the same metrics. */
  method TimeMetricsTwice(span: ExternalNode, root: Root)
    returns (first: seq<Metric>, second: seq<Metric>)
    requires span.Valid()
    modifies span
    ensures span.Valid()
    ensures span.params == Extract(old(span.params)).remaining
    ensures span.crossProcessId == Some(PyNone) && span.externalTxnName == Some(PyNone)
    ensures span.detailsCache == Some(DetailsOf(span.parse, span.url))
    ensures var x := Extract(old(span.params));
      span.externalExclusive == (if x.externalExclusive.Some? then x.externalExclusive
                                 else old(span.externalExclusive))
    ensures var x := Extract(old(span.params));
      first == MetricsFor(CallKey(Netloc(DetailsOf(span.parse, span.url)), span.library,
                                  span.MethodText(), x.crossProcessId, x.externalTxnName),
                          root.transactionType, root.path, span.duration,
                          ReportedExclusive(x, span.exclusive))
    ensures second == MetricsFor(span.Key(), root.transactionType, root.path, span.duration, span.exclusive)
    ensures !IsLinked(span.Key())
    ensures Extract(old(span.params)).externalExclusive.None? ==> first == second
  {
    first := span.TimeMetrics(root);
    SecondExtractIsUnlinked(old(span.params));
    second := span.TimeMetrics(root);
  }
}

# External-call span rollup

This project models the external-call span of the blueware
application-performance agent, which is `ExternalNode` in
`blueware/core/external_node.py`. The agent records one outbound call
(library, URL, request method, timings, params). The model derives two things
from it:

- the ordered timing metrics `(name, scope, duration, exclusive)` that the
  metric aggregator sums per name and scope;
- the single trace node that the trace serializer places in the
  transaction's call tree.

Both derivations share one normalisation step. It turns the parsed URL into
the netloc, written `host` or `host:port`. The port is dropped when it is 80
under http, 443 under https, absent, zero, or unreadable. A missing host
becomes `unknown`.

The metrics step has a side effect. It pops `cross_process_id`,
`external_txn_name` and `external_exclusive` out of the span's params. When
all three were there, the span reports the popped exclusive time. When, in
addition, the popped id is not `None`, the call is linked to a transaction in
another process, and its names follow the `ExternalTransaction`/`ExternalApp`
scheme.

Files:

- `py_values.dfy` (module `PyValues`): Python dict values (`None`, str, int,
  any other object through its `str()` text), and the decimal text of an
  integer as `'%s'` writes it.
- `external_naming.dfy` (module `ExternalNaming`): the pure part. It holds the
  parse result as an abstract record, the netloc rule, the key extraction as a
  function, the metric and node names, and the metric list, with the lemmas
  about them.
- `external_node.dfy` (module `ExternalSpan`): the objects. `Root` is the
  transaction with its trace-node counter. `ExternalNode` is the span, with
  its mutable params, its memoised details and the attributes that the
  metrics step assigns. Its methods are proved against the functions of
  `ExternalNaming`.

Modelling decisions:

- The URL parser is a function-valued field `parse` of the span. A parse
  either returns a `UrlParts` record or raises. The object invariant states
  that `http://unknown.url` parses to its known parts, so the fallback never
  raises.
- An attribute that is not yet assigned is `None` in Dafny. A Python `None`
  stored in it is `Some(PyNone)`.
- The trace node may be built only after the metrics step has run.
  `trace_node` reads `self.cross_process_id` (line 123), which only
  `time_metrics` assigns (lines 54 and 58); without it the lookup raises
  AttributeError, so the model requires it.
- The metrics are returned as a sequence. In Python they come from a
  generator, but the keys are popped before the first metric is yielded.

Behaviour of the code worth knowing:

- A second metrics call after a first call that found all three keys finds
  them gone and takes the unlinked branch. Its metrics may then differ from
  the first call's: the names become plain when the popped id was not `None`,
  and the span's own exclusive time replaces the popped one. After a first
  call that did not find all three keys, both calls yield the same metrics.
  `SecondExtractIsUnlinked` and `TimeMetricsTwice` state this.
- If all three keys are present but the popped `cross_process_id` is `None`,
  the names stay plain while the popped exclusive time is reported (lines
  54-62 and 74). `MetricsFor` holds the `None` test on the id, and
  `ReportedExclusive` holds the choice of exclusive time, as the code keeps
  the two tests apart.
- When a key is missing, the keys popped before it stay removed.
  `ExtractRemovesPresentPrefix` states this.

## Model

| member | source | states |
|---|---|---|
| `PyValues.Decimal` | blueware/core/external_node.py:48 | the port text in a netloc is non-empty, all digits, without leading zeros, and "0" only for zero |
| `PyValues.DecimalRoundTrip` | blueware/core/external_node.py:48 | reading that port text back as digits gives the port |
| `PyValues.Show` | blueware/core/external_node.py:90-91 | the `%s` text of None is "None", that of a string is the string itself, and that of an integer reads back as the integer (digits, with a leading '-' when negative) |
| `PyValues.ShowIntInjective` | blueware/core/external_node.py:90-91 | two integer ids formatted with `%s` give the same text only if they are equal |
| `ExternalNaming.HostOrUnknown` | blueware/core/external_node.py:36 | a present non-empty hostname is kept; an absent or empty one becomes "unknown"; the result is never empty |
| `ExternalNaming.Lower` | blueware/core/external_node.py:39 | the lower-cased scheme has no upper-case letter, each upper-case letter becomes its lower-case counterpart, and every other character is kept |
| `ExternalNaming.LowerIdempotent` | blueware/core/external_node.py:39 | lower-casing twice is lower-casing once |
| `ExternalNaming.NetlocPort` | blueware/core/external_node.py:38-48 | a port kept in the netloc is the parsed port, is non-zero and is not the default port of the lower-cased scheme; an absent or unreadable port is never kept |
| `ExternalNaming.Netloc` | blueware/core/external_node.py:36-48 | the netloc starts with the host, and is exactly the host when no port is kept |
| `ExternalNaming.DefaultPortRule` | blueware/core/external_node.py:38-48 | the netloc is the bare host exactly when the port is absent, 0 or unreadable, or is 80 under http or 443 under https; otherwise it is host, ':' and the port |
| `ExternalNaming.NetlocDeterminesEndpoint` | blueware/core/external_node.py:45-48 | for a host without ':', splitting the netloc at its last ':' gives back the host and the kept port |
| `ExternalNaming.Ipv6NetlocsCollide` | blueware/core/external_node.py:36-48 | IPv6 hosts lose their brackets, so [::1]:8080 and [::1:8080] get the same netloc |
| `ExternalNaming.NetlocIdempotent` | blueware/core/external_node.py:45-48 | normalising the host and kept port of a netloc again gives the same netloc |
| `ExternalNaming.DetailsFallback` | blueware/core/external_node.py:23-26 | a URL that the parser rejects is named "unknown.url" and stored as http://unknown.url |
| `ExternalNaming.ExampleHttpsDefaultPort` | blueware/core/external_node.py:45-48 | https://api.example.com:443/... gets the netloc api.example.com |
| `ExternalNaming.ExampleHttpsMetrics` | blueware/core/external_node.py:64-87 | a GET via requests inside a web transaction yields the five metrics External/all, External/allWeb, External/api.example.com/all, and External/api.example.com/requests/GET unscoped and then scoped |
| `ExternalNaming.ExampleQueryStripped` | blueware/core/external_node.py:141-145 | http://h:81/p?x=1#f keeps port 81 in its netloc and is stored as http://h:81/p |
| `ExternalNaming.ReconstructedUrl` | blueware/core/external_node.py:141-143 | with a scheme and a netloc, the stored URL starts with scheme://netloc using the raw netloc; with neither, it is the path alone |
| `ExternalNaming.ReconstructedUrlForm` | blueware/core/external_node.py:141-143 | for an absolute URL with an absolute or empty path, the stored URL is exactly scheme://netloc followed by the path |
| `ExternalNaming.ReconstructedUrlStripsQuery` | blueware/core/external_node.py:141-143 | query, fragment and path parameters never reach the stored URL, for every parse result |
| `ExternalNaming.Extract` | blueware/core/external_node.py:54-59 | popping only removes keys; when all three keys are present, exactly those three are removed; when a key is missing, id and name are None |
| `ExternalNaming.ExtractAllPoppedIffAllKeys` | blueware/core/external_node.py:50-62 | all three keys are popped exactly when all three are present, and the extraction then carries their values, None included; otherwise id and name are None and the span's own exclusive time is reported |
| `ExternalNaming.ExtractKeepsOtherKeys` | blueware/core/external_node.py:54-56 | popping adds no key and changes no key other than the three cross-process keys |
| `ExternalNaming.ExtractRemovesPresentPrefix` | blueware/core/external_node.py:54-59 | a key is removed exactly when it and every key popped before it were present |
| `ExternalNaming.SecondExtractIsUnlinked` | blueware/core/external_node.py:54-59 | a second extraction removes nothing and always takes the branch for a missing key, with None as id |
| `ExternalNaming.MetricsFor` | blueware/core/external_node.py:64-102 | five metrics, the one at the scoped index carrying the root path and all others the empty scope |
| `ExternalNaming.MetricsShape` | blueware/core/external_node.py:64-72 | there are always five metrics; External/all comes first; External/allWeb comes second exactly for a WebTransaction root, External/allOther otherwise; all share the span's duration and one exclusive time |
| `ExternalNaming.MetricsScopes` | blueware/core/external_node.py:64-102 | only the second per-call metric (index 4 unlinked, 3 linked) is scoped to the root path; the rest have scope "" |
| `ExternalNaming.ScopedExactlyOnce` | blueware/core/external_node.py:64-102 | for a non-empty root path, exactly one metric carries that scope and four carry "" |
| `ExternalNaming.UnlinkedNames` | blueware/core/external_node.py:74-87 | an unlinked call yields External/{netloc}/all, then External/{netloc}/{library}/{method} twice |
| `ExternalNaming.LinkedNames` | blueware/core/external_node.py:89-102 | a linked call yields ExternalTransaction/{netloc}/{id}/{txn} twice, then ExternalApp/{netloc}/{id}/all |
| `ExternalNaming.NoPlainNameWhenLinked` | blueware/core/external_node.py:89-102 | no metric of a linked call starts with External/{netloc}/ |
| `ExternalNaming.NodeName` | blueware/core/external_node.py:121-128 | the node name is a plain External/{netloc}/ name exactly when the call is unlinked, and an ExternalTransaction/{netloc}/ name when it is linked |
| `ExternalNaming.NodeNameIsCallMetricName` | blueware/core/external_node.py:121-128 | the trace node name is the name of both per-call metrics, and the second of them is scoped to the root path |
| `ExternalSpan.ExternalNode.constructor` | blueware/core/external_node.py:12-16 | a new span holds its recorded fields, with details not yet parsed and the cross-process attributes not yet assigned |
| `ExternalSpan.ExternalNode.Details` | blueware/core/external_node.py:18-28 | details is the parse of `url or ''`, or of http://unknown.url when parsing raises; once memoised it is returned unchanged |
| `ExternalSpan.ExternalNode.PopLinkKeys` | blueware/core/external_node.py:50-62 | params lose the popped keys; id and name are assigned; external_exclusive changes only when all three keys were there |
| `ExternalSpan.ExternalNode.TimeMetrics` | blueware/core/external_node.py:30-102 | the new params and attributes are those of the extraction, and the metrics are the five of MetricsFor for this call, root and reported exclusive time |
| `ExternalSpan.ExternalNode.BuildTraceNode` | blueware/core/external_node.py:105-152 | the root counter rises by exactly one; params gain or overwrite only "url"; the node is named by the call, has that name as label, no children and an empty method name |
| `ExternalSpan.Rollup` | blueware/core/external_node.py:121-137 | after the metrics step and then the trace-node step: the span's params are those left by the extraction plus "url"; its attributes are the popped values (external_exclusive kept when not all keys were there) and its details are memoised; the metrics are those of MetricsFor; the node holds the span's params, the given start and end times, no children and an empty method name, and is named and labelled by NodeName, the name of the two per-call metrics; the counter has risen by one |
| `ExternalSpan.TimeMetricsTwice` | blueware/core/external_node.py:54-62 | the first call's metrics are MetricsFor of the first extraction; a second metrics call after the first raises nothing, removes nothing more and uses the unlinked names and the span's own exclusive time; id and name end as None, external_exclusive holds the popped value after a first call that found all three keys and its old value otherwise, and the details are memoised; when the first call did not find all three keys, both calls yield the same metrics |

## Left out

- The WSGI adapter hooks (`blueware/hooks/adapter_flup.py`, `blueware/hooks/adapter_wsgiref.py`) only patch server constructors through `blueware.agent`, which is not part of this model. They have no behaviour of their own here.
- urlparse is not re-implemented. Its result is the abstract `UrlParts` record, and the parser is a field of the span.
- `Unsplit` leaves out one rule of urlunsplit. For a scheme that uses a netloc, urlunsplit adds "//" even when the netloc is empty. The model does not.
- `Lower` lowers ASCII letters only. URL schemes are made of ASCII letters, digits and "+-." only, so the model is exact for them.
- `node_start_time`, `node_end_time` and the `TraceNode` constructor belong to `blueware.core.trace_node`, which is not part of this model. The two times are the parameters `nodeStart` and `nodeEnd` of `ExternalNode.BuildTraceNode`.
- `root.string_table.cache` interns names. It is taken as the identity.
- Durations and timestamps are passed through as opaque values. No arithmetic is done on them.
- The unused `stats`, `parent` and `connections` arguments are left out, and so are the span's `children`.
- The trace node's params are the span's own dict in Python, so later changes to one show in the other. The model returns a copy of the map as it is when the node is built.
- The library name is a string in the model. Python formats whatever object it is with `%s`.

# Tencent Cloud store adapter — Dafny model

This project models the core of a store gateway that lets a federated
Prometheus-style query engine read metrics from the Tencent Cloud monitoring
API (`pkg/store.go`), together with the adapter's configuration and its
validation (`config/config.go`).

- **Series requests.** The equality matchers of a request become a lookup
  (`LabelMatcherToMap`). The `region` and `__name__` entries select the
  upstream region and metric, and every other entry becomes a single-dimension
  instance filter (`MakeMonitorInstance`). One upstream `GetMonitorData`
  request is made for a 60-second period, with the request's millisecond
  bounds truncated to seconds. Every returned data point is sent back as one
  series (`QueryMonitor`, `SendSeries`).
- **Label sets.** A series' label set is the point's dimensions, minus those
  overridden by a non-empty external label, plus all external labels, sorted
  by name (`TranslateAndExtendLabels`, `ExtendLset`, `SortByName`).
- **Chunks.** The samples go into one XOR chunk whose bounds are the first and
  last timestamps in milliseconds (`ChunkSamples`).
- **Other requests.** `Info`, `LabelNames` and `LabelValues` answer from the
  configuration.
- **Configuration.** `TencentConfig.Check` fills the credential from the
  environment when the file has no secret key. It rejects a missing
  credential, an empty metric name and a namespace that is not of the form
  `xxx/product`.

Modules:

- `Wrappers`: the `Option` type.
- `GoSemantics`: the parts of Go the behaviour depends on:
  - string `<`;
  - `strings.Split`;
  - int64 `/` truncating toward zero;
  - `int64(float64)`.
- `Config`: the configuration file, `config/config.go`.
- `Store`: the store, `pkg/store.go`.
- `StoreProperties`: lemmas about the specification functions of `Store`.

Go iterates maps in an unspecified order. Every loop over a map picks its next
key with `:|`, and the methods that contain such a loop are specified up to
that order. An enumeration is "every key exactly once". A label set is "this
multiset, sorted".

Side effects are passed in as parameters:

- The upstream call is a function `fetch` from the request to an error or a
  response envelope.
- The stream's `Send` is a function `send(n, series)`, giving the n-th Send's
  error if any.
- `os.Getenv` is a function `getenv`.

`QueryMonitor` returns the request it issued (`None` when it made none), the
series it handed to Send, and its error.

Behaviour of the code worth noting:

- An external label whose value is the empty string does not suppress the
  upstream dimension of the same name. It is still appended, so the label set
  can then hold two labels with that name.
- A query whose only equality matchers are `region` and `__name__` issues an
  upstream request with an empty instance list.
- `Info` returns an empty list of label sets when there are no external
  labels.

## Model

| member | source | states |
|---|---|---|
| Config.TencentConfig.constructor | config/config.go:40-42 | a new configuration has an empty credential, no metrics and no external labels |
| Config.TencentConfig.Check | config/config.go:62-85 | an empty secret key makes both secrets come from the environment, otherwise the credential is kept; metrics and external labels are unchanged; the result is nil exactly when both secrets are non-empty and every metric has a name and a one-slash namespace; the credential error is reported exactly when the credential is incomplete; the metric-name and namespace errors are only reported when some metric really has that defect |
| Config.NamespaceHasOneSlash | config/config.go:76-78 | a namespace passes the split-in-two test exactly when it contains exactly one `/` |
| Config.WellFormedNamespaceParts | config/config.go:76-78 | an accepted namespace is its two pieces joined by the single `/`, and neither piece contains `/` |
| GoSemantics.LessIrreflexive | pkg/store.go:290-292 | no name sorts before itself |
| GoSemantics.LessTransitive | pkg/store.go:290-292 | the name order used by the sort is transitive |
| GoSemantics.LessTotal | pkg/store.go:290-292 | of two different names, one sorts before the other |
| GoSemantics.LessEqTransitive | pkg/store.go:290-292 | "not after" is transitive, as sorting needs |
| GoSemantics.LessEqOfLess | pkg/store.go:290-292 | a name that sorts before another is not after it |
| GoSemantics.Split | config/config.go:76 | splitting always gives at least one piece, even for the empty string |
| GoSemantics.JoinSplit | config/config.go:76 | joining the pieces with the separator gives back the string |
| GoSemantics.SplitPiecesAvoidSeparator | config/config.go:76 | no piece contains the separator |
| GoSemantics.SplitCount | config/config.go:76 | the number of pieces is the number of separators plus one |
| GoSemantics.DivTrunc1000 | pkg/store.go:211-212 | milliseconds to seconds truncates toward zero: the remainder has the sign of the dividend and is below 1000 in size |
| GoSemantics.TruncToInt | pkg/store.go:129-134 | a float timestamp converts to the integer next to it toward zero |
| GoSemantics.TruncToIntMonotonic | pkg/store.go:129-134 | the conversion never reverses the order of two timestamps |
| Store.KeysOf | pkg/store.go:301-303 | ranging over a map collects every key exactly once |
| Store.LabelsOf | pkg/store.go:83-88 | ranging over the external labels collects every (name, value) pair exactly once |
| Store.LabelMatcherToMap | pkg/store.go:167-176 | the map is the lookup of the matchers' equality entries (its meaning is proved in EqLookupLastWins and EqLookupOnlyEq) |
| Store.SafeGetValue | pkg/store.go:178-183 | a name missing from the lookup reads as ""; a non-empty read is the value of the lookup's entry for that name |
| Store.MakeMonitorInstance | pkg/store.go:149-165 | the instances are one single-dimension instance per matcher not named `region` or `__name__`, in some order, and as many as there are such matchers |
| Store.SortByName | pkg/store.go:290-292 | the array ends sorted by name and is a permutation of what it held |
| Store.InsertLast | pkg/store.go:290-292 | one insertion step: the sorted prefix grows by one element, the elements after it are left alone, and the array stays a permutation |
| Store.Swap | pkg/store.go:290-292 | two elements trade places and nothing else changes |
| Store.ExtendLset | pkg/store.go:283-294 | the result is sorted by name and is exactly the given labels plus one label per external entry |
| Store.EnumerationMultiset | pkg/store.go:284-289 | a sequence listing every key of a set once has that set as its multiset |
| Store.EnumerationSize | pkg/store.go:301-307 | such a sequence is as long as the set is large |
| Store.AppendSeries | pkg/store.go:232-248 | sending one more correctly built series either extends a successful run or ends the run with that Send's error |
| Store.XorChunk.constructor | pkg/store.go:121 | a new chunk holds no samples |
| Store.XorChunk.Append | pkg/store.go:128-130 | appending adds the sample at the end |
| Store.TencentStore.constructor | pkg/store.go:53-72 | the store keeps the configuration and the component it was built with |
| Store.TencentStore.Info | pkg/store.go:74-99 | Info lists every external label once, passes the component through and claims the whole time range; it repeats the labels as one label set only when there are any |
| Store.TencentStore.ChunkSamples | pkg/store.go:116-139 | no chunk when there are no values or no timestamps; otherwise exactly one XOR chunk holding every (timestamp×1000, value) pair in order, bounded by the first and last timestamps ×1000 |
| Store.TencentStore.TranslateAndExtendLabels | pkg/store.go:267-281 | the label set is sorted by name and is exactly the dimensions not overridden by a non-empty external label plus every external label |
| Store.TencentStore.LabelNames | pkg/store.go:297-307 | the names are every external label name once, then `region` and `__name__`; there are two more of them than external labels |
| Store.TencentStore.LabelValues | pkg/store.go:310-332 | a non-empty external value wins; otherwise `region` gives the three supported regions, `__name__` every configured metric name once, and any other name nothing |
| Store.TencentStore.BuildSeries | pkg/store.go:232-235 | one data point becomes a series with the built label set and the chunks of its samples |
| Store.TencentStore.SendSeries | pkg/store.go:232-250 | one series per data point is sent in order; every series is built from its point; the run stops at the first failed Send and returns that error, and otherwise covers every point |
| Store.TencentStore.QueryMonitor | pkg/store.go:185-251 | a missing region, a missing name or an unknown metric gives its error with no upstream request and nothing sent; otherwise exactly one request is issued, for the region, the configured namespace and metric, a 60-second period, the bounds in seconds and the instance filters; an upstream error or a missing response body gives its error with nothing sent; a response is emitted as SendSeries states |
| StoreProperties.EqLookupLastWins | pkg/store.go:167-176 | a name is in the lookup exactly when some equality matcher has it, and it then maps to the last such matcher |
| StoreProperties.EqLookupOnlyEq | pkg/store.go:169-173 | every lookup entry is an equality matcher filed under its own name |
| StoreProperties.RequiredParameterValue | pkg/store.go:178-194 | `region` and `__name__` read as "" when no equality matcher names them, and otherwise as the value of the last one that does; a non-empty read always comes from such a last matcher |
| StoreProperties.InstancesOnePerDimension | pkg/store.go:149-165 | every non-reserved matcher yields its own single-dimension instance, and no instance names `region` or `__name__` |
| StoreProperties.KeptDimensionsExact | pkg/store.go:270-278 | the kept labels are exactly the dimensions without a non-empty external value of the same name |
| StoreProperties.KeptNotOverridden | pkg/store.go:271-273 | no kept dimension has a non-empty external value |
| StoreProperties.ExternalLabelsIncluded | pkg/store.go:283-289 | every external label is in the label set with its own value |
| StoreProperties.ExternalPrecedence | pkg/store.go:267-289 | a label whose name has a non-empty external value carries that value |
| StoreProperties.LabelSetSources | pkg/store.go:267-292 | every label comes from an external label or a non-overridden dimension, and every non-overridden dimension is present |
| StoreProperties.LessEqAntisymmetric | pkg/store.go:290-292 | two names each not after the other are equal |
| StoreProperties.SortedHeadsAgree | pkg/store.go:290-292 | two sorted arrangements of the same labels with distinct names start alike |
| StoreProperties.TailsSameMultiset | pkg/store.go:290-292 | removing equal first labels leaves equal multisets |
| StoreProperties.SortedArrangementUnique | pkg/store.go:290-292 | with distinct names there is only one sorted arrangement, so the unstable sort's result is determined |
| StoreProperties.LabelSetDeterministic | pkg/store.go:267-294 | whatever order the maps are iterated in, a label set without repeated names comes out the same |
| StoreProperties.ChunkBoundsEnclose | pkg/store.go:128-135 | with ascending timestamps matching the values one for one, every sample lies between the chunk's bounds |

## Left out

- The Tencent Cloud SDK client, credentials handling inside it, and the network: the upstream call is the parameter `fetch`.
- The gRPC stream: `Send` is the parameter `send`; `Series` is a thin wrapper that logs and calls `queryMonitor`.
- Logging and JSON marshalling of the request and response: no effect on results.
- The `sync.Pool` of buffers (`getBuffer`, `putBuffer`) and `encodeChunk`: neither is used by the modelled operations.
- The HTTP-status-to-gRPC-code table: not used by the modelled operations.
- Store.XorChunk.Bytes: the XOR bit-level encoding is not modelled; the encoder is the identity on the appended samples, so decoding a chunk gives back its samples by construction and that round trip is not proved.
- Go's `<` on strings compares UTF-8 bytes, while GoSemantics.Less compares characters (code points); the two orders agree on valid UTF-8 text, and strings holding invalid UTF-8 are not modelled.
- float64 arithmetic: values and timestamps are real numbers.
- RFC 3339 formatting of the request bounds: the request carries the whole seconds that are formatted.
- Store.TencentStore.QueryMonitor: does not model the range of times that `time.Unix` and RFC 3339 can render.
- Store.TencentStore.ChunkSamples: does not model int64 overflow of `×1000`, nor the range of the float-to-int conversion. The panic that Go raises when a series has fewer timestamps than values is a precondition. The `Appender()` error path is left out, because a new chunk's appender cannot fail. Null timestamp or value entries from the upstream, which make Go panic on dereference, are not modelled: the model's timestamps and values are plain numbers.
- Store.TencentStore.QueryMonitor: the precondition that every upstream data point is chunkable stands for the same panic. A nil data point in the response, which makes Go panic, is not modelled. A metric table entry holding a nil pointer is not modelled either: the code would report such a metric as unsupported, but validation panics on it first.
- Store.TencentStore.TranslateAndExtendLabels: null dimension names or values from the upstream, which make Go panic on dereference, are not modelled: the model's dimensions hold plain strings.
- Config.TencentConfig.Check: a nil metric entry makes Go panic when its name is read; the model's metric table holds plain values, so such an entry cannot be represented.
- Store.SortByName: any sorting algorithm satisfies `sort.Slice`'s contract. The model uses insertion sort and promises only sorted-plus-permutation, which is also all that `sort.Slice` promises.
- Context cancellation and tracing: not observable in the results.
- `LoadFile`, YAML decoding and `fillDefault` (whose body is empty): file I/O and parsing.
- `cmd/`, the gRPC server and the tracing setup: these are outside the store.

# Ingester client codec

A model, in Dafny, of the ingester RPC codec of the query path
(`pkg/ingester/client/compat.go`). The querier describes what it wants as
time bounds, limits, a label name and lists of Prometheus label matchers
(`labels.Matcher`). The codec packs these into the ingester's protocol
requests (`QueryRequest`, `ExemplarQueryRequest`,
`MetricsForLabelMatchersRequest`, `LabelValuesRequest`, `LabelNamesRequest`),
whose matchers are protocol `LabelMatcher` messages, and on the ingester side
unpacks them again. It also computes `FastFingerprint`, the XOR-folded hash of
a label list.

Files:

- `results.dfy` — `Result` (a value or an error text, for Go's `(T, error)`)
  and `Option` (for a pointer that may be nil).
- `matchers.dfy` — the two match-kind enums, both matcher types, the kind
  mapping in both directions, `toLabelMatchers` and `FromLabelMatchers`.
- `requests.dfy` — the five request types and their builders and unpackers.
- `fingerprint.dfy` — `FastFingerprint`.

The Go functions that loop (`toLabelMatchers`, `FromLabelMatchers`,
`ToExemplarQueryRequest`, `FromExemplarQueryRequest`,
`FromMetricsForLabelMatchersRequest`, `FastFingerprint`) are methods with
loops. Each one is proved equal to a specification function
(`EncodeMatchers`, `DecodeMatchers`, `EncodeExemplarQuery`,
`DecodeExemplarQuery`, `DecodeMetricsQuery`, `Fingerprint`). The properties
are proved about those functions. The Go functions that only build or
project a struct are functions.

`labels.NewMatcher` is a parameter, `build`, of every decoder. It may fail
on any input. Where a property needs more, it assumes one of two things:

- `Rebuilds(build, ms)`: the builder reproduces each matcher of `ms`.
- `Faithful(build)`: whenever the builder succeeds, it returns the kind, name
  and value it was given. `labels.NewMatcher` behaves this way.

The matchers cache that `FromLabelMatchers` consults is transparent: it
always returns what the builder returns.

## Model

| member | source | states |
|---|---|---|
| `Matchers.EncodeType` | pkg/ingester/client/compat.go:238-250 | the kind table: `MatchEqual` to `EQUAL`, `MatchNotEqual` to `NOT_EQUAL`, `MatchRegexp` to `REGEX_MATCH`, `MatchNotRegexp` to `REGEX_NO_MATCH`; a kind is encoded exactly when it is one of these four, and any other kind gives "invalid matcher type" |
| `Matchers.DecodeType` | pkg/ingester/client/compat.go:264-276 | a protocol kind is decoded exactly when it is one of the four known ones; decoding inverts encoding (encode(decode(w)) = w); an unknown kind gives "invalid matcher type" |
| `Matchers.TypeRoundTrip` | pkg/ingester/client/compat.go:239-276 | decode(encode(k)) = k for each of the four kinds, and encoding is injective on them |
| `Matchers.EncodeMatcher` | pkg/ingester/client/compat.go:237-255 | one matcher is encoded when its kind is known: the kind is mapped, and name and value are copied unchanged |
| `Matchers.DecodeMatcher` | pkg/ingester/client/compat.go:263-278 | an unknown protocol kind fails with "invalid matcher type" without calling the builder; otherwise the result is the builder's, applied to the decoded kind and the unchanged name and value |
| `Matchers.EncodeMatchers` | pkg/ingester/client/compat.go:235-258 | encoding succeeds exactly when every kind is known, with an output of the same length and order whose i-th element encodes the i-th input; otherwise it gives "invalid matcher type" and no partial list |
| `Matchers.DecodeMatchers` | pkg/ingester/client/compat.go:260-287 | decoding succeeds exactly when every element decodes, with an output of the same length and order whose i-th element is the i-th element decoded |
| `Matchers.DecodeMatchersFirstError` | pkg/ingester/client/compat.go:278-282 | decoding aborts with the error of the first element that fails |
| `Matchers.DecodeEncodeMatchers` | pkg/ingester/client/compat.go:235-287 | decoding encoded matchers gives a list of the same length, and gives the matchers back when the builder rebuilds them |
| `Matchers.EncodeDecodeMatchers` | pkg/ingester/client/compat.go:235-287 | with a faithful builder, encoding decoded protocol matchers gives the protocol matchers back |
| `Matchers.ToLabelMatchers` | pkg/ingester/client/compat.go:235-258 | the loop computes `EncodeMatchers`, with early return on an unknown kind |
| `Matchers.FromLabelMatchers` | pkg/ingester/client/compat.go:260-287 | the loop computes `DecodeMatchers`, with early return on the first error |
| `Requests.EncodeMatcherLists` | pkg/ingester/client/compat.go:42-49 | one `LabelMatchers` entry per input list, in order, each the encoding of its list; "invalid matcher type" when any list fails |
| `Requests.DecodeMatcherLists` | pkg/ingester/client/compat.go:161-168 | one decoded list per entry, in order, exactly when every entry decodes |
| `Requests.DecodeMatcherListsFirstError` | pkg/ingester/client/compat.go:62-65 | unpacking aborts with the error of the first entry whose list fails |
| `Requests.DecodeEncodeMatcherLists` | pkg/ingester/client/compat.go:41-70 | unpacking packed lists gives one list per input list, each of that list's length, and the lists themselves when the builder rebuilds them |
| `Requests.EncodeDecodeMatcherLists` | pkg/ingester/client/compat.go:41-70 | with a faithful builder, packing unpacked lists gives the entries back |
| `Requests.ToQueryRequest` | pkg/ingester/client/compat.go:15-27 | the request carries `from` and `to` unchanged and the encoded matchers; it fails exactly when a matcher kind is invalid |
| `Requests.FromQueryRequest` | pkg/ingester/client/compat.go:29-38 | it returns the request's timestamps and its decoded matchers; a decoding error is passed through unchanged |
| `Requests.QueryRequestRoundTrip` | pkg/ingester/client/compat.go:16-38 | unpacking a built request returns the same `from` and `to` and as many matchers, and returns the matchers themselves when the builder rebuilds them |
| `Requests.QueryRequestRoundTripBack` | pkg/ingester/client/compat.go:16-38 | with a faithful builder, rebuilding from an unpacked request gives the request back |
| `Requests.EncodeExemplarQuery` | pkg/ingester/client/compat.go:40-56 | the exemplar request carries the time bounds and, in order, one matcher entry per input list, each the encoding of that list; it fails, with "invalid matcher type", exactly when encoding the lists fails |
| `Requests.DecodeExemplarQuery` | pkg/ingester/client/compat.go:58-70 | unpacking returns the raw start and end timestamps and, in order, the decoding of each matcher entry, or the matcher-list error |
| `Requests.ToExemplarQueryRequest` | pkg/ingester/client/compat.go:41-56 | the loop computes `EncodeExemplarQuery` |
| `Requests.FromExemplarQueryRequest` | pkg/ingester/client/compat.go:59-70 | the loop computes `DecodeExemplarQuery`, with early return on the first failing list |
| `Requests.ExemplarQueryRoundTrip` | pkg/ingester/client/compat.go:41-70 | unpacking a built exemplar request returns the same timestamps and one list per input list, each of the same length; the lists themselves when the builder rebuilds them |
| `Requests.ExemplarQueryRoundTripBack` | pkg/ingester/client/compat.go:41-70 | with a faithful builder, rebuilding from an unpacked exemplar request gives it back |
| `Requests.ToMetricsForLabelMatchersRequest` | pkg/ingester/client/compat.go:98-111 | the request holds exactly one matcher set, the encoded matchers, together with the time bounds and the limit |
| `Requests.DecodeMetricsQuery` | pkg/ingester/client/compat.go:159-172 | unpacking returns the time bounds, the limit and, in order, the decoding of each matcher set, or the matcher-list error |
| `Requests.FromMetricsForLabelMatchersRequest` | pkg/ingester/client/compat.go:160-172 | the loop computes `DecodeMetricsQuery`, with early return on the first failing set |
| `Requests.MetricsQueryRoundTrip` | pkg/ingester/client/compat.go:99-111 | unpacking a built metrics request returns the same bounds and limit and exactly one list, of the input's length; the input list itself when the builder rebuilds it |
| `Requests.MetricsQueryRoundTripBack` | pkg/ingester/client/compat.go:160-172 | with a faithful builder, a metrics request with one matcher set is rebuilt from what it unpacks to |
| `Requests.DecodeOptionalMatchers` | pkg/ingester/client/compat.go:195-200 | an absent matcher list decodes to no matchers without error; a present one decodes like any list |
| `Requests.ToLabelValuesRequest` | pkg/ingester/client/compat.go:174-188 | the request carries the label name, the timestamps, the limit and an always-present matcher list |
| `Requests.FromLabelValuesRequest` | pkg/ingester/client/compat.go:190-203 | it returns the label name, timestamps and limit unchanged; an absent matcher list gives no matchers and no error; a matcher error is passed through |
| `Requests.LabelValuesRoundTrip` | pkg/ingester/client/compat.go:175-203 | label name, timestamps and limit survive building and unpacking, with as many matchers; the matchers themselves when the builder rebuilds them |
| `Requests.LabelValuesRoundTripBack` | pkg/ingester/client/compat.go:175-203 | with a faithful builder, rebuilding from an unpacked request gives it back, except that an absent matcher list comes back present and empty |
| `Requests.ToLabelNamesRequest` | pkg/ingester/client/compat.go:205-218 | the request carries the timestamps, the limit and an always-present matcher list |
| `Requests.FromLabelNamesRequest` | pkg/ingester/client/compat.go:220-233 | it returns the timestamps and limit unchanged; an absent matcher list gives no matchers and no error; a matcher error is passed through |
| `Requests.LabelNamesRoundTrip` | pkg/ingester/client/compat.go:206-233 | timestamps and limit survive building and unpacking, with as many matchers; the matchers themselves when the builder rebuilds them |
| `Requests.LabelNamesRoundTripBack` | pkg/ingester/client/compat.go:206-233 | with a faithful builder, rebuilding from an unpacked request gives it back, except that an absent matcher list comes back present and empty |
| `Fingerprint.LabelHash` | pkg/ingester/client/compat.go:297-300 | one label's hash starts from a fresh state and adds the name, then the separator byte 0xFF, then the value |
| `Fingerprint.XorFold` | pkg/ingester/client/compat.go:295-302 | the accumulator starts at 0, so a list without labels folds to 0 |
| `Fingerprint.Fingerprint` | pkg/ingester/client/compat.go:290-304 | no labels give the empty metric's fingerprint (the initial state), one label gives that label's hash, and any other list gives the XOR fold of its labels |
| `Fingerprint.XorFoldSnoc` | pkg/ingester/client/compat.go:296-301 | one more label XORs exactly that label's hash (name, separator byte, value from a fresh state) into the accumulator |
| `Fingerprint.XorFoldRemove` | pkg/ingester/client/compat.go:295-302 | taking any one label out of the list removes exactly its hash from the fold |
| `Fingerprint.XorFoldAppend` | pkg/ingester/client/compat.go:295-302 | the fold of a concatenation is the XOR of the folds of its parts |
| `Fingerprint.XorFoldPermutation` | pkg/ingester/client/compat.go:295-302 | two label lists with the same multiset of labels have the same fold |
| `Fingerprint.FingerprintPermutation` | pkg/ingester/client/compat.go:290-304 | the fingerprint does not change under any permutation of the labels, the empty list included |
| `Fingerprint.FingerprintSplit` | pkg/ingester/client/compat.go:290-304 | a non-empty list's fingerprint is the XOR of the folds of any split of it, and a single label's fingerprint is its own hash |
| `Fingerprint.FastFingerprint` | pkg/ingester/client/compat.go:290-304 | the loop computes `Fingerprint`: the empty metric's fingerprint for no labels, otherwise the XOR of one hash per label |

## Left out

- `MatrixFromSeriesSet` and `SeriesSetToQueryResponse`: these iterate over an external series set and convert float samples and histograms through helpers of another package. Both are floating-point and foreign-call plumbing.
- `LabelsToKeyString`: a thin wrapper over `labels.Bytes`, which is not part of this model.
- `labels.NewMatcher` is the parameter `build`. The regular-expression compilation it performs is not modelled, so the model does not say which matchers fail to build.
- The matchers cache is transparent. Its concurrency, and the sharing of cached matcher objects between calls, are not modelled.
- `hashNew`, `hashAdd` and `hashAddByte` are the opaque fields of `Hasher`. Only the XOR-fold structure of `FastFingerprint` is verified, not the FNV arithmetic. The fingerprint of the empty metric is the hasher's initial state, as in the Prometheus model package, which is not part of this model.
- Go's `int` is taken to be 64 bits wide, so `int64(limit)` and `int(req.Limit)` keep the value. Truncation on a 32-bit platform is not modelled.
- A nil slice and an empty slice are both the empty sequence. A nil element inside a slice of matchers, on which the Go code would panic, cannot be represented.
- On error, the Go functions also return zero values (`0, 0, nil`). `Err` carries only the error text.
- `pkg/ruler/ruler_test.go` and `pkg/ruler/storage.go` are not part of this model. Ring ownership, shuffle sharding and rule synchronisation live in code that is not included, and the storage factory only wires external clients together.

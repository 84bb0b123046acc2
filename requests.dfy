/** The ingester request builders and unpackers of
    pkg/ingester/client/compat.go: each `To…Request` packs time bounds,
    limits, a label name and matcher lists into a protocol request, and each
    `From…Request` unpacks one. */
module Requests {
  import opened Results
  import opened Matchers

  /** Go's `int64`. `model.Time` (milliseconds) is an `int64`, and Go's `int`
      is taken to be 64 bits wide, so every conversion between them in the
      codec keeps the value. */
  newtype int64 = x: int | -0x8000_0000_0000_0000 <= x < 0x8000_0000_0000_0000

  datatype QueryRequest = QueryRequest(startTimestampMs: int64, endTimestampMs: int64, matchers: seq<LabelMatcher>)

  datatype ExemplarQueryRequest = ExemplarQueryRequest(startTimestampMs: int64, endTimestampMs: int64, matchers: seq<LabelMatchers>)

  datatype MetricsForLabelMatchersRequest =
    MetricsForLabelMatchersRequest(startTimestampMs: int64, endTimestampMs: int64, matchersSet: seq<LabelMatchers>, limit: int64)

  /** `matchers` is a pointer in the protocol and may be absent. */
  datatype LabelValuesRequest =
    LabelValuesRequest(labelName: string, startTimestampMs: int64, endTimestampMs: int64, matchers: Option<LabelMatchers>, limit: int64)

  datatype LabelNamesRequest =
    LabelNamesRequest(startTimestampMs: int64, endTimestampMs: int64, matchers: Option<LabelMatchers>, limit: int64)

  /** The successful results of the unpackers (the values before `error`). */
  datatype QueryParams = QueryParams(from: int64, to: int64, matchers: seq<Matcher>)

  datatype ExemplarParams = ExemplarParams(start: int64, end: int64, matcherLists: seq<seq<Matcher>>)

  datatype MetricsParams = MetricsParams(from: int64, to: int64, limit: int64, matcherLists: seq<seq<Matcher>>)

  datatype LabelValuesParams = LabelValuesParams(labelName: string, start: int64, end: int64, limit: int64, matchers: seq<Matcher>)

  datatype LabelNamesParams = LabelNamesParams(start: int64, end: int64, limit: int64, matchers: seq<Matcher>)

  // ---------------------------------------------------------------------------
  // Lists of matcher lists (exemplar and metrics-for-label-matchers requests)
  // ---------------------------------------------------------------------------

  /** The loop of `ToExemplarQueryRequest`: one `LabelMatchers` per input list,
      in order, or "invalid matcher type" as soon as one list fails. */
  function EncodeMatcherLists(lists: seq<seq<Matcher>>): (r: Result<seq<LabelMatchers>>)
    ensures r.Ok? <==> forall i :: 0 <= i < |lists| ==> EncodeMatchers(lists[i]).Ok?
    ensures r.Err? ==> r.error == InvalidMatcherType
    ensures r.Ok? ==> |r.value| == |lists| && forall i :: 0 <= i < |lists| ==> EncodeMatchers(lists[i]) == Ok(r.value[i].matchers)
  {
    if lists == [] then Ok([])
    else
      var front := lists[..|lists| - 1];
      assert forall i :: 0 <= i < |front| ==> front[i] == lists[i];
      match EncodeMatcherLists(front)
      case Err(e) => Err(e)
      case Ok(encoded) =>
        match EncodeMatchers(lists[|lists| - 1])
        case Err(e) => Err(e)
        case Ok(lms) => Ok(encoded + [LabelMatchers(lms)])
  }

  /** The loops of `FromExemplarQueryRequest` and
      `FromMetricsForLabelMatchersRequest`: one decoded list per entry, in
      order, or the error of a failing entry. */
  function DecodeMatcherLists(build: MatcherBuilder, sets: seq<LabelMatchers>): (r: Result<seq<seq<Matcher>>>)
    ensures r.Ok? <==> forall i :: 0 <= i < |sets| ==> DecodeMatchers(build, sets[i].matchers).Ok?
    ensures r.Ok? ==> |r.value| == |sets| && forall i :: 0 <= i < |sets| ==> DecodeMatchers(build, sets[i].matchers) == Ok(r.value[i])
  {
    if sets == [] then Ok([])
    else
      var front := sets[..|sets| - 1];
      assert forall i :: 0 <= i < |front| ==> front[i] == sets[i];
      match DecodeMatcherLists(build, front)
      case Err(e) => Err(e)
      case Ok(decoded) =>
        match DecodeMatchers(build, sets[|sets| - 1].matchers)
        case Err(e) => Err(e)
        case Ok(ms) => Ok(decoded + [ms])
  }

  /** One more decoded entry extends the decoded prefix by its list. */
  lemma DecodeMatcherListsStep(build: MatcherBuilder, sets: seq<LabelMatchers>, i: nat, acc: seq<seq<Matcher>>)
    requires i < |sets|
    requires DecodeMatcherLists(build, sets[..i]) == Ok(acc)
    requires DecodeMatchers(build, sets[i].matchers).Ok?
    ensures DecodeMatcherLists(build, sets[..i + 1]) == Ok(acc + [DecodeMatchers(build, sets[i].matchers).value])
  {
    assert sets[..i + 1][..i] == sets[..i];
  }

  /** Unpacking stops at the FIRST entry whose list fails and reports its error. */
  lemma {:induction false} DecodeMatcherListsFirstError(build: MatcherBuilder, sets: seq<LabelMatchers>, k: nat)
    requires k < |sets|
    requires forall j :: 0 <= j < k ==> DecodeMatchers(build, sets[j].matchers).Ok?
    requires DecodeMatchers(build, sets[k].matchers).Err?
    ensures DecodeMatcherLists(build, sets) == Err(DecodeMatchers(build, sets[k].matchers).error)
  {
    var front := sets[..|sets| - 1];
    assert forall i :: 0 <= i < |front| ==> front[i] == sets[i];
    if k < |sets| - 1 {
      DecodeMatcherListsFirstError(build, front, k);
    } else {
      assert DecodeMatcherLists(build, front).Ok?;
    }
  }

  /** Unpacking packed lists gives the lists back when the builder rebuilds
      every matcher; with any builder, a success has one list per input list,
      each of the input's length. */
  lemma DecodeEncodeMatcherLists(build: MatcherBuilder, lists: seq<seq<Matcher>>)
    requires EncodeMatcherLists(lists).Ok?
    ensures var d := DecodeMatcherLists(build, EncodeMatcherLists(lists).value);
      d.Ok? ==> |d.value| == |lists| && forall i :: 0 <= i < |lists| ==> |d.value[i]| == |lists[i]|
    ensures (forall i :: 0 <= i < |lists| ==> Rebuilds(build, lists[i])) ==>
      DecodeMatcherLists(build, EncodeMatcherLists(lists).value) == Ok(lists)
  {
    var sets := EncodeMatcherLists(lists).value;
    forall i | 0 <= i < |lists|
      ensures EncodeMatchers(lists[i]) == Ok(sets[i].matchers)
      ensures DecodeMatchers(build, sets[i].matchers).Ok? ==> |DecodeMatchers(build, sets[i].matchers).value| == |lists[i]|
      ensures Rebuilds(build, lists[i]) ==> DecodeMatchers(build, sets[i].matchers) == Ok(lists[i])
    {
      DecodeEncodeMatchers(build, lists[i]);
    }
    var d := DecodeMatcherLists(build, sets);
    if d.Ok? {
      forall i | 0 <= i < |lists| ensures |d.value[i]| == |lists[i]| {
        assert DecodeMatchers(build, sets[i].matchers) == Ok(d.value[i]);
      }
    }
    if forall i :: 0 <= i < |lists| ==> Rebuilds(build, lists[i]) {
      assert d.Ok?;
      assert d.value == lists;
    }
  }

  /** Packing unpacked lists gives the entries back, for a faithful builder. */
  lemma EncodeDecodeMatcherLists(build: MatcherBuilder, sets: seq<LabelMatchers>)
    requires Faithful(build)
    requires DecodeMatcherLists(build, sets).Ok?
    ensures EncodeMatcherLists(DecodeMatcherLists(build, sets).value) == Ok(sets)
  {
    var lists := DecodeMatcherLists(build, sets).value;
    forall i | 0 <= i < |sets| ensures EncodeMatchers(lists[i]) == Ok(sets[i].matchers) {
      EncodeDecodeMatchers(build, sets[i].matchers);
    }
    var r := EncodeMatcherLists(lists);
    assert r.value == sets;
  }

  // ---------------------------------------------------------------------------
  // QueryRequest
  // ---------------------------------------------------------------------------

  /** `ToQueryRequest`. */
  function ToQueryRequest(from: int64, to: int64, ms: seq<Matcher>): (r: Result<QueryRequest>)
    ensures r.Ok? <==> forall i :: 0 <= i < |ms| ==> !ms[i].kind.MatchOther?
    ensures r.Err? ==> r.error == InvalidMatcherType
    ensures r.Ok? ==> r.value.startTimestampMs == from && r.value.endTimestampMs == to
    ensures r.Ok? ==> Ok(r.value.matchers) == EncodeMatchers(ms)
  {
    match EncodeMatchers(ms)
    case Err(e) => Err(e)
    case Ok(lms) => Ok(QueryRequest(from, to, lms))
  }

  /** `FromQueryRequest`: the matcher error, if any, is passed through. */
  function FromQueryRequest(build: MatcherBuilder, req: QueryRequest): (r: Result<QueryParams>)
    ensures r.Ok? <==> DecodeMatchers(build, req.matchers).Ok?
    ensures r.Err? ==> r.error == DecodeMatchers(build, req.matchers).error
    ensures r.Ok? ==> r.value.from == req.startTimestampMs && r.value.to == req.endTimestampMs
    ensures r.Ok? ==> Ok(r.value.matchers) == DecodeMatchers(build, req.matchers)
  {
    match DecodeMatchers(build, req.matchers)
    case Err(e) => Err(e)
    case Ok(ms) => Ok(QueryParams(req.startTimestampMs, req.endTimestampMs, ms))
  }

  /** Unpacking a built query request returns the same time bounds and as many
      matchers, and returns the matchers themselves when the builder rebuilds them. */
  lemma QueryRequestRoundTrip(build: MatcherBuilder, from: int64, to: int64, ms: seq<Matcher>)
    requires ToQueryRequest(from, to, ms).Ok?
    ensures var d := FromQueryRequest(build, ToQueryRequest(from, to, ms).value);
      d.Ok? ==> d.value.from == from && d.value.to == to && |d.value.matchers| == |ms|
    ensures Rebuilds(build, ms) ==> FromQueryRequest(build, ToQueryRequest(from, to, ms).value) == Ok(QueryParams(from, to, ms))
  {
    DecodeEncodeMatchers(build, ms);
  }

  /** Building a request from an unpacked one gives the request back. */
  lemma QueryRequestRoundTripBack(build: MatcherBuilder, req: QueryRequest)
    requires Faithful(build)
    requires FromQueryRequest(build, req).Ok?
    ensures var p := FromQueryRequest(build, req).value; ToQueryRequest(p.from, p.to, p.matchers) == Ok(req)
  {
    EncodeDecodeMatchers(build, req.matchers);
  }

  // ---------------------------------------------------------------------------
  // ExemplarQueryRequest
  // ---------------------------------------------------------------------------

  /** What `ToExemplarQueryRequest` builds. */
  function EncodeExemplarQuery(from: int64, to: int64, lists: seq<seq<Matcher>>): (r: Result<ExemplarQueryRequest>)
    ensures r.Ok? <==> EncodeMatcherLists(lists).Ok?
    ensures r.Err? ==> r.error == InvalidMatcherType
    ensures r.Ok? ==> r.value.startTimestampMs == from && r.value.endTimestampMs == to
    ensures r.Ok? ==> |r.value.matchers| == |lists|
    ensures r.Ok? ==> Ok(r.value.matchers) == EncodeMatcherLists(lists)
  {
    match EncodeMatcherLists(lists)
    case Err(e) => Err(e)
    case Ok(sets) => Ok(ExemplarQueryRequest(from, to, sets))
  }

  /** What `FromExemplarQueryRequest` unpacks: the raw timestamps and one
      matcher list per entry, or the error of the first failing entry. */
  function DecodeExemplarQuery(build: MatcherBuilder, req: ExemplarQueryRequest): (r: Result<ExemplarParams>)
    ensures r.Ok? <==> DecodeMatcherLists(build, req.matchers).Ok?
    ensures r.Err? ==> r.error == DecodeMatcherLists(build, req.matchers).error
    ensures r.Ok? ==> r.value.start == req.startTimestampMs && r.value.end == req.endTimestampMs
    ensures r.Ok? ==> |r.value.matcherLists| == |req.matchers|
    ensures r.Ok? ==> Ok(r.value.matcherLists) == DecodeMatcherLists(build, req.matchers)
  {
    match DecodeMatcherLists(build, req.matchers)
    case Err(e) => Err(e)
    case Ok(lists) => Ok(ExemplarParams(req.startTimestampMs, req.endTimestampMs, lists))
  }

  /** `ToExemplarQueryRequest`. */
  method ToExemplarQueryRequest(from: int64, to: int64, lists: seq<seq<Matcher>>) returns (r: Result<ExemplarQueryRequest>)
    ensures r == EncodeExemplarQuery(from, to, lists)
  {
    var reqMatchers: seq<LabelMatchers> := [];
    for i := 0 to |lists|
      invariant EncodeMatcherLists(lists[..i]) == Ok(reqMatchers)
    {
      var ms := ToLabelMatchers(lists[i]);
      if ms.Err? {
        return Err(ms.error);
      }
      assert lists[..i + 1][..i] == lists[..i];
      reqMatchers := reqMatchers + [LabelMatchers(ms.value)];
    }
    assert lists[..|lists|] == lists;
    return Ok(ExemplarQueryRequest(from, to, reqMatchers));
  }

  /** `FromExemplarQueryRequest`. */
  method FromExemplarQueryRequest(build: MatcherBuilder, req: ExemplarQueryRequest) returns (r: Result<ExemplarParams>)
    ensures r == DecodeExemplarQuery(build, req)
  {
    var result: seq<seq<Matcher>> := [];
    for i := 0 to |req.matchers|
      invariant DecodeMatcherLists(build, req.matchers[..i]) == Ok(result)
    {
      var matchers := FromLabelMatchers(build, req.matchers[i].matchers);
      if matchers.Err? {
        DecodeMatcherListsFirstError(build, req.matchers, i);
        return Err(matchers.error);
      }
      DecodeMatcherListsStep(build, req.matchers, i, result);
      result := result + [matchers.value];
    }
    assert req.matchers[..|req.matchers|] == req.matchers;
    return Ok(ExemplarParams(req.startTimestampMs, req.endTimestampMs, result));
  }

  /** Unpacking a built exemplar request returns the same timestamps and one
      list per input list of the same length; the lists themselves when the
      builder rebuilds them. */
  lemma ExemplarQueryRoundTrip(build: MatcherBuilder, from: int64, to: int64, lists: seq<seq<Matcher>>)
    requires EncodeExemplarQuery(from, to, lists).Ok?
    ensures var d := DecodeExemplarQuery(build, EncodeExemplarQuery(from, to, lists).value);
      d.Ok? ==> (d.value.start == from && d.value.end == to && |d.value.matcherLists| == |lists| &&
                 forall i :: 0 <= i < |lists| ==> |d.value.matcherLists[i]| == |lists[i]|)
    ensures (forall i :: 0 <= i < |lists| ==> Rebuilds(build, lists[i])) ==>
      DecodeExemplarQuery(build, EncodeExemplarQuery(from, to, lists).value) == Ok(ExemplarParams(from, to, lists))
  {
    DecodeEncodeMatcherLists(build, lists);
  }

  /** Building an exemplar request from an unpacked one gives the request back. */
  lemma ExemplarQueryRoundTripBack(build: MatcherBuilder, req: ExemplarQueryRequest)
    requires Faithful(build)
    requires DecodeExemplarQuery(build, req).Ok?
    ensures var p := DecodeExemplarQuery(build, req).value; EncodeExemplarQuery(p.start, p.end, p.matcherLists) == Ok(req)
  {
    EncodeDecodeMatcherLists(build, req.matchers);
  }

  // ---------------------------------------------------------------------------
  // MetricsForLabelMatchersRequest
  // ---------------------------------------------------------------------------

  /** `ToMetricsForLabelMatchersRequest`: always exactly one matcher set. */
  function ToMetricsForLabelMatchersRequest(from: int64, to: int64, limit: int64, ms: seq<Matcher>): (r: Result<MetricsForLabelMatchersRequest>)
    ensures r.Ok? <==> EncodeMatchers(ms).Ok?
    ensures r.Err? ==> r.error == InvalidMatcherType
    ensures r.Ok? ==> r.value.startTimestampMs == from && r.value.endTimestampMs == to && r.value.limit == limit
    ensures r.Ok? ==> |r.value.matchersSet| == 1 && Ok(r.value.matchersSet[0].matchers) == EncodeMatchers(ms)
  {
    match EncodeMatchers(ms)
    case Err(e) => Err(e)
    case Ok(lms) => Ok(MetricsForLabelMatchersRequest(from, to, [LabelMatchers(lms)], limit))
  }

  /** What `FromMetricsForLabelMatchersRequest` unpacks. */
  function DecodeMetricsQuery(build: MatcherBuilder, req: MetricsForLabelMatchersRequest): (r: Result<MetricsParams>)
    ensures r.Ok? <==> DecodeMatcherLists(build, req.matchersSet).Ok?
    ensures r.Err? ==> r.error == DecodeMatcherLists(build, req.matchersSet).error
    ensures r.Ok? ==> r.value.from == req.startTimestampMs && r.value.to == req.endTimestampMs && r.value.limit == req.limit
    ensures r.Ok? ==> |r.value.matcherLists| == |req.matchersSet|
    ensures r.Ok? ==> Ok(r.value.matcherLists) == DecodeMatcherLists(build, req.matchersSet)
  {
    match DecodeMatcherLists(build, req.matchersSet)
    case Err(e) => Err(e)
    case Ok(lists) => Ok(MetricsParams(req.startTimestampMs, req.endTimestampMs, req.limit, lists))
  }

  /** `FromMetricsForLabelMatchersRequest`. */
  method FromMetricsForLabelMatchersRequest(build: MatcherBuilder, req: MetricsForLabelMatchersRequest) returns (r: Result<MetricsParams>)
    ensures r == DecodeMetricsQuery(build, req)
  {
    var matchersSet: seq<seq<Matcher>> := [];
    for i := 0 to |req.matchersSet|
      invariant DecodeMatcherLists(build, req.matchersSet[..i]) == Ok(matchersSet)
    {
      var matchers := FromLabelMatchers(build, req.matchersSet[i].matchers);
      if matchers.Err? {
        DecodeMatcherListsFirstError(build, req.matchersSet, i);
        return Err(matchers.error);
      }
      DecodeMatcherListsStep(build, req.matchersSet, i, matchersSet);
      matchersSet := matchersSet + [matchers.value];
    }
    assert req.matchersSet[..|req.matchersSet|] == req.matchersSet;
    return Ok(MetricsParams(req.startTimestampMs, req.endTimestampMs, req.limit, matchersSet));
  }

  /** Unpacking a built metrics request returns the same bounds and limit and
      exactly one matcher list, of the input's length; the input list itself
      when the builder rebuilds it. */
  lemma MetricsQueryRoundTrip(build: MatcherBuilder, from: int64, to: int64, limit: int64, ms: seq<Matcher>)
    requires ToMetricsForLabelMatchersRequest(from, to, limit, ms).Ok?
    ensures var d := DecodeMetricsQuery(build, ToMetricsForLabelMatchersRequest(from, to, limit, ms).value);
      d.Ok? ==> (d.value.from == from && d.value.to == to && d.value.limit == limit &&
                 |d.value.matcherLists| == 1 && |d.value.matcherLists[0]| == |ms|)
    ensures Rebuilds(build, ms) ==>
      DecodeMetricsQuery(build, ToMetricsForLabelMatchersRequest(from, to, limit, ms).value) == Ok(MetricsParams(from, to, limit, [ms]))
  {
    var req := ToMetricsForLabelMatchersRequest(from, to, limit, ms).value;
    assert EncodeMatcherLists([ms]) == Ok(req.matchersSet) by {
      var e := EncodeMatcherLists([ms]);
      assert e.Ok? && |e.value| == 1 && EncodeMatchers(ms) == Ok(e.value[0].matchers);
      assert e.value == [LabelMatchers(EncodeMatchers(ms).value)];
    }
    DecodeEncodeMatcherLists(build, [ms]);
  }

  /** A metrics request with one matcher set is rebuilt from what it unpacks to. */
  lemma MetricsQueryRoundTripBack(build: MatcherBuilder, req: MetricsForLabelMatchersRequest)
    requires Faithful(build)
    requires |req.matchersSet| == 1
    requires DecodeMetricsQuery(build, req).Ok?
    ensures var p := DecodeMetricsQuery(build, req).value;
      ToMetricsForLabelMatchersRequest(p.from, p.to, p.limit, p.matcherLists[0]) == Ok(req)
  {
    EncodeDecodeMatcherLists(build, req.matchersSet);
    var p := DecodeMetricsQuery(build, req).value;
    assert EncodeMatchers(p.matcherLists[0]) == Ok(req.matchersSet[0].matchers);
    assert req.matchersSet == [LabelMatchers(req.matchersSet[0].matchers)];
  }

  // ---------------------------------------------------------------------------
  // LabelValuesRequest and LabelNamesRequest
  // ---------------------------------------------------------------------------

  /** The optional matcher list of the label requests: an absent one decodes
      to no matchers without error. */
  function DecodeOptionalMatchers(build: MatcherBuilder, om: Option<LabelMatchers>): (r: Result<seq<Matcher>>)
    ensures om.None? ==> r == Ok([])
    ensures om.Some? ==> r == DecodeMatchers(build, om.value.matchers)
  {
    match om
    case None => Ok([])
    case Some(lm) => DecodeMatchers(build, lm.matchers)
  }

  /** `ToLabelValuesRequest`: the matcher list is always present. */
  function ToLabelValuesRequest(labelName: string, from: int64, to: int64, limit: int64, ms: seq<Matcher>): (r: Result<LabelValuesRequest>)
    ensures r.Ok? <==> EncodeMatchers(ms).Ok?
    ensures r.Err? ==> r.error == InvalidMatcherType
    ensures r.Ok? ==> r.value.labelName == labelName && r.value.startTimestampMs == from && r.value.endTimestampMs == to && r.value.limit == limit
    ensures r.Ok? ==> r.value.matchers.Some? && Ok(r.value.matchers.value.matchers) == EncodeMatchers(ms)
  {
    match EncodeMatchers(ms)
    case Err(e) => Err(e)
    case Ok(lms) => Ok(LabelValuesRequest(labelName, from, to, Some(LabelMatchers(lms)), limit))
  }

  /** `FromLabelValuesRequest`. */
  function FromLabelValuesRequest(build: MatcherBuilder, req: LabelValuesRequest): (r: Result<LabelValuesParams>)
    ensures req.matchers.None? ==> r == Ok(LabelValuesParams(req.labelName, req.startTimestampMs, req.endTimestampMs, req.limit, []))
    ensures r.Ok? <==> DecodeOptionalMatchers(build, req.matchers).Ok?
    ensures r.Err? ==> r.error == DecodeOptionalMatchers(build, req.matchers).error
    ensures r.Ok? ==> (r.value.labelName == req.labelName && r.value.start == req.startTimestampMs &&
                       r.value.end == req.endTimestampMs && r.value.limit == req.limit)
    ensures r.Ok? ==> Ok(r.value.matchers) == DecodeOptionalMatchers(build, req.matchers)
  {
    match DecodeOptionalMatchers(build, req.matchers)
    case Err(e) => Err(e)
    case Ok(ms) => Ok(LabelValuesParams(req.labelName, req.startTimestampMs, req.endTimestampMs, req.limit, ms))
  }

  /** Unpacking a built label-values request returns the same label name,
      timestamps and limit and as many matchers; the matchers themselves when
      the builder rebuilds them. */
  lemma LabelValuesRoundTrip(build: MatcherBuilder, labelName: string, from: int64, to: int64, limit: int64, ms: seq<Matcher>)
    requires ToLabelValuesRequest(labelName, from, to, limit, ms).Ok?
    ensures var d := FromLabelValuesRequest(build, ToLabelValuesRequest(labelName, from, to, limit, ms).value);
      d.Ok? ==> (d.value.labelName == labelName && d.value.start == from && d.value.end == to &&
                 d.value.limit == limit && |d.value.matchers| == |ms|)
    ensures Rebuilds(build, ms) ==>
      FromLabelValuesRequest(build, ToLabelValuesRequest(labelName, from, to, limit, ms).value) == Ok(LabelValuesParams(labelName, from, to, limit, ms))
  {
    DecodeEncodeMatchers(build, ms);
  }

  /** Rebuilding a label-values request from what it unpacks to gives it back,
      except that an absent matcher list comes back present and empty. */
  lemma LabelValuesRoundTripBack(build: MatcherBuilder, req: LabelValuesRequest)
    requires Faithful(build)
    requires FromLabelValuesRequest(build, req).Ok?
    ensures var p := FromLabelValuesRequest(build, req).value;
      ToLabelValuesRequest(p.labelName, p.start, p.end, p.limit, p.matchers) ==
        Ok(req.(matchers := Some(if req.matchers.Some? then req.matchers.value else LabelMatchers([]))))
  {
    if req.matchers.Some? {
      EncodeDecodeMatchers(build, req.matchers.value.matchers);
    }
  }

  /** `ToLabelNamesRequest`: the matcher list is always present. */
  function ToLabelNamesRequest(from: int64, to: int64, limit: int64, ms: seq<Matcher>): (r: Result<LabelNamesRequest>)
    ensures r.Ok? <==> EncodeMatchers(ms).Ok?
    ensures r.Err? ==> r.error == InvalidMatcherType
    ensures r.Ok? ==> r.value.startTimestampMs == from && r.value.endTimestampMs == to && r.value.limit == limit
    ensures r.Ok? ==> r.value.matchers.Some? && Ok(r.value.matchers.value.matchers) == EncodeMatchers(ms)
  {
    match EncodeMatchers(ms)
    case Err(e) => Err(e)
    case Ok(lms) => Ok(LabelNamesRequest(from, to, Some(LabelMatchers(lms)), limit))
  }

  /** `FromLabelNamesRequest`. */
  function FromLabelNamesRequest(build: MatcherBuilder, req: LabelNamesRequest): (r: Result<LabelNamesParams>)
    ensures req.matchers.None? ==> r == Ok(LabelNamesParams(req.startTimestampMs, req.endTimestampMs, req.limit, []))
    ensures r.Ok? <==> DecodeOptionalMatchers(build, req.matchers).Ok?
    ensures r.Err? ==> r.error == DecodeOptionalMatchers(build, req.matchers).error
    ensures r.Ok? ==> r.value.start == req.startTimestampMs && r.value.end == req.endTimestampMs && r.value.limit == req.limit
    ensures r.Ok? ==> Ok(r.value.matchers) == DecodeOptionalMatchers(build, req.matchers)
  {
    match DecodeOptionalMatchers(build, req.matchers)
    case Err(e) => Err(e)
    case Ok(ms) => Ok(LabelNamesParams(req.startTimestampMs, req.endTimestampMs, req.limit, ms))
  }

  /** Unpacking a built label-names request returns the same timestamps and
      limit and as many matchers; the matchers themselves when the builder
      rebuilds them. */
  lemma LabelNamesRoundTrip(build: MatcherBuilder, from: int64, to: int64, limit: int64, ms: seq<Matcher>)
    requires ToLabelNamesRequest(from, to, limit, ms).Ok?
    ensures var d := FromLabelNamesRequest(build, ToLabelNamesRequest(from, to, limit, ms).value);
      d.Ok? ==> d.value.start == from && d.value.end == to && d.value.limit == limit && |d.value.matchers| == |ms|
    ensures Rebuilds(build, ms) ==>
      FromLabelNamesRequest(build, ToLabelNamesRequest(from, to, limit, ms).value) == Ok(LabelNamesParams(from, to, limit, ms))
  {
    DecodeEncodeMatchers(build, ms);
  }

  /** Rebuilding a label-names request from what it unpacks to gives it back,
      except that an absent matcher list comes back present and empty. */
  lemma LabelNamesRoundTripBack(build: MatcherBuilder, req: LabelNamesRequest)
    requires Faithful(build)
    requires FromLabelNamesRequest(build, req).Ok?
    ensures var p := FromLabelNamesRequest(build, req).value;
      ToLabelNamesRequest(p.start, p.end, p.limit, p.matchers) ==
        Ok(req.(matchers := Some(if req.matchers.Some? then req.matchers.value else LabelMatchers([]))))
  {
    if req.matchers.Some? {
      EncodeDecodeMatchers(build, req.matchers.value.matchers);
    }
  }
}

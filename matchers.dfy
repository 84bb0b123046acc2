/** Label matchers as the query engine sees them (`labels.Matcher`) and as the
    ingester protocol carries them (`LabelMatcher`), with the conversions
    between the two in pkg/ingester/client/compat.go. */
module Matchers {
  import opened Results

  /** The error both conversions report for a match kind they do not know. */
  const InvalidMatcherType := "invalid matcher type"

  /** The query engine's match kind. `MatchOther` stands for any value of the
      underlying integer type that is none of the four named kinds; its `code`
      is meant to lie outside 0..3, the values the named kinds take. */
  datatype MatchType = MatchEqual | MatchNotEqual | MatchRegexp | MatchNotRegexp | MatchOther(code: int)

  /** The protocol's match kind enum. `WireOther` stands for any enum value
      that is none of the four named ones (a newer or corrupt peer); its `code`
      is meant to lie outside 0..3, the values the named ones take. */
  datatype WireMatchType = Equal | NotEqual | RegexMatch | RegexNoMatch | WireOther(code: int)

  /** `labels.Matcher`: the compiled regular expression it also holds is
      determined by the three fields and is not modelled. */
  datatype Matcher = Matcher(kind: MatchType, name: string, value: string)

  /** The protocol's `LabelMatcher` message. */
  datatype LabelMatcher = LabelMatcher(kind: WireMatchType, name: string, value: string)

  /** The protocol's `LabelMatchers` message: one list of matchers. */
  datatype LabelMatchers = LabelMatchers(matchers: seq<LabelMatcher>)

  /** `labels.NewMatcher`, which the decoder calls for every matcher. It is a
      parameter of the model: it may fail (for a regular expression that does
      not compile), and only `Faithful` below is assumed of it where a
      property needs it. */
  type MatcherBuilder = (MatchType, string, string) -> Result<Matcher>

  /** A builder that, when it succeeds, returns a matcher with exactly the
      kind, name and value it was given (as `labels.NewMatcher` does). */
  ghost predicate Faithful(build: MatcherBuilder)
  {
    forall t, n, v :: build(t, n, v).Ok? ==> build(t, n, v).value == Matcher(t, n, v)
  }

  /** The builder succeeds on, and reproduces, every matcher of `ms`. */
  ghost predicate Rebuilds(build: MatcherBuilder, ms: seq<Matcher>)
  {
    forall i :: 0 <= i < |ms| ==> build(ms[i].kind, ms[i].name, ms[i].value) == Ok(ms[i])
  }

  /** The `switch` of `toLabelMatchers` on one match kind. */
  function EncodeType(t: MatchType): (r: Result<WireMatchType>)
    ensures t == MatchEqual ==> r == Ok(Equal)
    ensures t == MatchNotEqual ==> r == Ok(NotEqual)
    ensures t == MatchRegexp ==> r == Ok(RegexMatch)
    ensures t == MatchNotRegexp ==> r == Ok(RegexNoMatch)
    ensures r.Ok? <==> !t.MatchOther?
    ensures r.Ok? ==> !r.value.WireOther?
    ensures r.Err? ==> r.error == InvalidMatcherType
  {
    match t
    case MatchEqual => Ok(Equal)
    case MatchNotEqual => Ok(NotEqual)
    case MatchRegexp => Ok(RegexMatch)
    case MatchNotRegexp => Ok(RegexNoMatch)
    case MatchOther(_) => Err(InvalidMatcherType)
  }

  /** The `switch` inside `FromLabelMatchers` on one protocol kind: the
      inverse of `EncodeType` on the four known kinds. */
  function DecodeType(w: WireMatchType): (r: Result<MatchType>)
    ensures r.Ok? <==> !w.WireOther?
    ensures r.Ok? ==> EncodeType(r.value) == Ok(w)
    ensures r.Err? ==> r.error == InvalidMatcherType
  {
    match w
    case Equal => Ok(MatchEqual)
    case NotEqual => Ok(MatchNotEqual)
    case RegexMatch => Ok(MatchRegexp)
    case RegexNoMatch => Ok(MatchNotRegexp)
    case WireOther(_) => Err(InvalidMatcherType)
  }

  /** Decoding an encoded kind gives the kind back, and encoding is
      injective on the known kinds. */
  lemma TypeRoundTrip(t: MatchType, u: MatchType)
    requires !t.MatchOther? && !u.MatchOther?
    ensures DecodeType(EncodeType(t).value) == Ok(t)
    ensures EncodeType(t) == EncodeType(u) ==> t == u
  {
  }

  /** One iteration of `toLabelMatchers`. */
  function EncodeMatcher(m: Matcher): (r: Result<LabelMatcher>)
    ensures r.Ok? <==> !m.kind.MatchOther?
    ensures r.Err? ==> r.error == InvalidMatcherType
    ensures r.Ok? ==> EncodeType(m.kind) == Ok(r.value.kind) && r.value.name == m.name && r.value.value == m.value
  {
    match EncodeType(m.kind)
    case Err(e) => Err(e)
    case Ok(w) => Ok(LabelMatcher(w, m.name, m.value))
  }

  /** The closure `FromLabelMatchers` hands to the matchers cache; the cache
      is transparent in this model, so this is what `GetOrSet` returns. */
  function DecodeMatcher(build: MatcherBuilder, lm: LabelMatcher): (r: Result<Matcher>)
    ensures lm.kind.WireOther? ==> r == Err(InvalidMatcherType)
    ensures !lm.kind.WireOther? ==> r == build(DecodeType(lm.kind).value, lm.name, lm.value)
  {
    match DecodeType(lm.kind)
    case Err(e) => Err(e)
    case Ok(t) => build(t, lm.name, lm.value)
  }

  /** What `toLabelMatchers` computes: every matcher encoded, in order, or
      "invalid matcher type" and no list at all. */
  function EncodeMatchers(ms: seq<Matcher>): (r: Result<seq<LabelMatcher>>)
    ensures r.Ok? <==> forall i :: 0 <= i < |ms| ==> !ms[i].kind.MatchOther?
    ensures r.Err? ==> r.error == InvalidMatcherType
    ensures r.Ok? ==> |r.value| == |ms| && forall i :: 0 <= i < |ms| ==> EncodeMatcher(ms[i]) == Ok(r.value[i])
  {
    if ms == [] then Ok([])
    else
      var front := ms[..|ms| - 1];
      assert forall i :: 0 <= i < |front| ==> front[i] == ms[i];
      match EncodeMatchers(front)
      case Err(e) => Err(e)
      case Ok(encoded) =>
        match EncodeMatcher(ms[|ms| - 1])
        case Err(e) => Err(e)
        case Ok(lm) => Ok(encoded + [lm])
  }

  /** What `FromLabelMatchers` computes: every matcher decoded, in order, or
      the error of a failing one and no list at all. */
  function DecodeMatchers(build: MatcherBuilder, lms: seq<LabelMatcher>): (r: Result<seq<Matcher>>)
    ensures r.Ok? <==> forall i :: 0 <= i < |lms| ==> DecodeMatcher(build, lms[i]).Ok?
    ensures r.Ok? ==> |r.value| == |lms| && forall i :: 0 <= i < |lms| ==> DecodeMatcher(build, lms[i]) == Ok(r.value[i])
  {
    if lms == [] then Ok([])
    else
      var front := lms[..|lms| - 1];
      assert forall i :: 0 <= i < |front| ==> front[i] == lms[i];
      match DecodeMatchers(build, front)
      case Err(e) => Err(e)
      case Ok(decoded) =>
        match DecodeMatcher(build, lms[|lms| - 1])
        case Err(e) => Err(e)
        case Ok(m) => Ok(decoded + [m])
  }

  /** Decoding stops at the FIRST matcher that fails and reports its error. */
  lemma {:induction false} DecodeMatchersFirstError(build: MatcherBuilder, lms: seq<LabelMatcher>, k: nat)
    requires k < |lms|
    requires forall j :: 0 <= j < k ==> DecodeMatcher(build, lms[j]).Ok?
    requires DecodeMatcher(build, lms[k]).Err?
    ensures DecodeMatchers(build, lms) == Err(DecodeMatcher(build, lms[k]).error)
  {
    var front := lms[..|lms| - 1];
    assert forall i :: 0 <= i < |front| ==> front[i] == lms[i];
    if k < |lms| - 1 {
      DecodeMatchersFirstError(build, front, k);
    } else {
      assert DecodeMatchers(build, front).Ok?;
    }
  }

  /** Decoding what was encoded gives the matchers back, whenever the builder
      rebuilds them; with any builder, a successful decode has the same length. */
  lemma DecodeEncodeMatchers(build: MatcherBuilder, ms: seq<Matcher>)
    requires EncodeMatchers(ms).Ok?
    ensures DecodeMatchers(build, EncodeMatchers(ms).value).Ok? ==> |DecodeMatchers(build, EncodeMatchers(ms).value).value| == |ms|
    ensures Rebuilds(build, ms) ==> DecodeMatchers(build, EncodeMatchers(ms).value) == Ok(ms)
  {
    var lms := EncodeMatchers(ms).value;
    if Rebuilds(build, ms) {
      forall i | 0 <= i < |ms| ensures DecodeMatcher(build, lms[i]) == Ok(ms[i]) {
        assert EncodeMatcher(ms[i]) == Ok(lms[i]);
        TypeRoundTrip(ms[i].kind, ms[i].kind);
      }
      var r := DecodeMatchers(build, lms);
      assert r.value == ms;
    }
  }

  /** Encoding what was decoded gives the protocol matchers back, for a
      faithful builder. */
  lemma EncodeDecodeMatchers(build: MatcherBuilder, lms: seq<LabelMatcher>)
    requires Faithful(build)
    requires DecodeMatchers(build, lms).Ok?
    ensures EncodeMatchers(DecodeMatchers(build, lms).value) == Ok(lms)
  {
    var ms := DecodeMatchers(build, lms).value;
    forall i | 0 <= i < |lms| ensures EncodeMatcher(ms[i]) == Ok(lms[i]) {
      assert DecodeMatcher(build, lms[i]) == Ok(ms[i]);
    }
    var r := EncodeMatchers(ms);
    assert r.value == lms;
  }

  /** `toLabelMatchers`. */
  method ToLabelMatchers(ms: seq<Matcher>) returns (r: Result<seq<LabelMatcher>>)
    ensures r == EncodeMatchers(ms)
  {
    var result: seq<LabelMatcher> := [];
    for i := 0 to |ms|
      invariant EncodeMatchers(ms[..i]) == Ok(result)
    {
      var kind: WireMatchType;
      match ms[i].kind {
        case MatchEqual => kind := Equal;
        case MatchNotEqual => kind := NotEqual;
        case MatchRegexp => kind := RegexMatch;
        case MatchNotRegexp => kind := RegexNoMatch;
        case MatchOther(_) => return Err(InvalidMatcherType);
      }
      assert ms[..i + 1][..i] == ms[..i];
      result := result + [LabelMatcher(kind, ms[i].name, ms[i].value)];
    }
    assert ms[..|ms|] == ms;
    return Ok(result);
  }

  /** `FromLabelMatchers`, with the matchers cache transparent. */
  method FromLabelMatchers(build: MatcherBuilder, lms: seq<LabelMatcher>) returns (r: Result<seq<Matcher>>)
    ensures r == DecodeMatchers(build, lms)
  {
    var result: seq<Matcher> := [];
    for i := 0 to |lms|
      invariant DecodeMatchers(build, lms[..i]) == Ok(result)
    {
      var m := DecodeMatcher(build, lms[i]);
      if m.Err? {
        DecodeMatchersFirstError(build, lms, i);
        return Err(m.error);
      }
      assert lms[..i + 1][..i] == lms[..i];
      result := result + [m.value];
    }
    assert lms[..|lms|] == lms;
    return Ok(result);
  }
}

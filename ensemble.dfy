/**
 * Multi-model colour analysis (src/services/ensemble.py): three analysers
 * that turn a provider's reply into a verdict, three ways of aggregating
 * the verdicts (plain voting, confidence-weighted voting, and voting gated
 * on consensus), the parallel mode that aggregates every successful
 * analyser, and the hybrid mode in which a judge model merges them.
 *
 * A provider's reply is given as text, or `None` when the SDK call raised;
 * `asyncio.gather` becomes the sequence of outcomes in dispatch order.
 */
module Ensemble {
  import opened Wrappers
  import opened Text
  import opened Verdicts
  import opened Tallies
  import opened ImageValidator

  datatype Provider = Gemini | OpenAI | Claude

  function ProviderName(p: Provider): string {
    match p
    case Gemini => "Gemini"
    case OpenAI => "OpenAI"
    case Claude => "Claude"
  }

  /** Why a reply gave no verdict. */
  datatype Cause = RequestFailed | NotJson | Unusable(invalid: Invalid)

  /** The `ValueError("<Provider> analysis failed: ...")` each analyser raises. */
  datatype AnalysisError = AnalysisFailed(provider: Provider, cause: Cause)

  function AnalysisMessage(e: AnalysisError): (m: string)
    ensures StartsWith(m, ProviderName(e.provider) + " analysis failed")
  {
    var m := ProviderName(e.provider) + " analysis failed: ";
    assert m[..|ProviderName(e.provider) + " analysis failed"|] == ProviderName(e.provider) + " analysis failed";
    m
  }

  datatype EnsembleError =
    | ImageUnreadable
    | NoResults
    | UnknownMethod(name: string)
    | AllModelsFailed
    | AllParallelModelsFailed
    | JudgeFailed(cause: Cause)

  /**
   * The `ValueError` text raised for an error, where the source raises one
   * of its own. An unreadable image and a failing judge raise the decoder's
   * or the parser's exception unwrapped, whose text is not modelled: those
   * two have no message here.
   */
  function EnsembleMessage(e: EnsembleError): (m: Option<string>)
    ensures m.None? <==> e.ImageUnreadable? || e.JudgeFailed?
    ensures e.UnknownMethod? ==>
      && StartsWith(m.value, UnknownMethodPrefix)
      && m.value[|UnknownMethodPrefix|..] == e.name
  {
    match e
    case ImageUnreadable => None
    case NoResults => Some("No results to aggregate")
    case UnknownMethod(name) => Some(UnknownMethodPrefix + name)
    case AllModelsFailed => Some("All models failed to analyze the image")
    case AllParallelModelsFailed => Some("All parallel models failed")
    case JudgeFailed(_) => None
  }

  const UnknownMethodPrefix := "Unknown aggregation method: "

  /** Each message names one error: two errors with the same message are the same error. */
  lemma MessagesDistinct(e1: EnsembleError, e2: EnsembleError)
    requires EnsembleMessage(e1).Some? && EnsembleMessage(e1) == EnsembleMessage(e2)
    ensures e1 == e2
  {
    var m := EnsembleMessage(e1).value;
    if e1.UnknownMethod? || e2.UnknownMethod? {
      assert m[0] == 'U';
      if e1.UnknownMethod? && e2.UnknownMethod? {
        assert e1.name == m[|UnknownMethodPrefix|..] == e2.name;
      }
    }
  }

  // ---------------------------------------------------------------------
  // The three analysers

  /**
   * The text each analyser parses: Gemini strips, then removes fences;
   * OpenAI parses the reply as it came; Claude removes fences without the
   * first strip.
   */
  function ReplyText(p: Provider, reply: string): string {
    match p
    case Gemini => Unfenced(Trim(reply))
    case OpenAI => reply
    case Claude => Unfenced(reply)
  }

  /** Parse, default, validate; any failure is reported against the provider. */
  function Analysis(p: Provider, reply: Option<string>, parse: string -> Option<Json>): Result<Verdict, AnalysisError> {
    if reply.None? then Failure(AnalysisFailed(p, RequestFailed))
    else
      match parse(ReplyText(p, reply.value))
      case None => Failure(AnalysisFailed(p, NotJson))
      case Some(json) =>
        match Normalised(json)
        case Failure(invalid) => Failure(AnalysisFailed(p, Unusable(invalid)))
        case Success(v) => Success(v)
  }

  /** `_analyze_with_gemini`, `_analyze_with_openai` and `_analyze_with_claude`. */
  method AnalyzeWith(p: Provider, reply: Option<string>, parse: string -> Option<Json>)
    returns (r: Result<Verdict, AnalysisError>)
    ensures r == Analysis(p, reply, parse)
    ensures r.Failure? ==> r.error.provider == p
  {
    if reply.None? {
      return Failure(AnalysisFailed(p, RequestFailed));
    }
    var text := reply.value;
    if p == Gemini {
      text := Trim(text);
    }
    if p != OpenAI {
      text := StripFences(text);
    }
    var parsed := parse(text);
    if parsed.None? {
      return Failure(AnalysisFailed(p, NotJson));
    }
    var outcome := Normalise(parsed.value);
    if outcome.Failure? {
      return Failure(AnalysisFailed(p, Unusable(outcome.error)));
    }
    r := Success(outcome.value);
  }

  /**
   * A successful analysis carries the reply's own label and confidence,
   * and the defaults fill only what the reply left missing or null.
   */
  lemma AnalysisFields(p: Provider, reply: Option<string>, parse: string -> Option<Json>)
    requires Analysis(p, reply, parse).Success?
    ensures reply.Some? && parse(ReplyText(p, reply.value)).Some?
    ensures var json := parse(ReplyText(p, reply.value)).value;
      && json.JObject?
      && IsText(json.fields, "personal_color_type")
      && "confidence" in json.fields && json.fields["confidence"].JNumber?
      && var v := Analysis(p, reply, parse).value;
      && v.personalColorType == json.fields["personal_color_type"].s
      && v.confidence == json.fields["confidence"].n
      && v.undertone == TextOr(json.fields, "undertone", "unknown")
      && v.season == TextOr(json.fields, "season", "unknown")
      && v.subtype == TextOr(json.fields, "subtype", "unknown")
      && v.reasoning == TextOr(json.fields, "reasoning", "")
  {
    var json := parse(ReplyText(p, reply.value)).value;
    DefaultedValidates(json.fields);
  }

  // ---------------------------------------------------------------------
  // Projections of a verdict list

  datatype Field = ColorType | UndertoneField | SeasonField | SubtypeField

  function LabelOf(v: Verdict, f: Field): string {
    match f
    case ColorType => v.personalColorType
    case UndertoneField => v.undertone
    case SeasonField => v.season
    case SubtypeField => v.subtype
  }

  function Labels(rs: seq<Verdict>, f: Field): (ls: seq<string>)
    ensures |ls| == |rs| && forall i :: 0 <= i < |rs| ==> ls[i] == LabelOf(rs[i], f)
  {
    seq(|rs|, i requires 0 <= i < |rs| => LabelOf(rs[i], f))
  }

  function Confidences(rs: seq<Verdict>): (cs: seq<real>)
    ensures |cs| == |rs| && forall i :: 0 <= i < |rs| ==> cs[i] == rs[i].confidence
  {
    seq(|rs|, i requires 0 <= i < |rs| => rs[i].confidence)
  }

  function Reasonings(rs: seq<Verdict>): (ss: seq<string>)
    ensures |ss| == |rs| && forall i :: 0 <= i < |rs| ==> ss[i] == rs[i].reasoning
  {
    seq(|rs|, i requires 0 <= i < |rs| => rs[i].reasoning)
  }

  function Sum(xs: seq<real>): real {
    if xs == [] then 0.0 else Sum(xs[..|xs| - 1]) + xs[|xs| - 1]
  }

  lemma LabelsPrefix(rs: seq<Verdict>, i: nat, f: Field)
    requires i < |rs|
    ensures Labels(rs[..i + 1], f) == Labels(rs[..i], f) + [LabelOf(rs[i], f)]
    ensures Confidences(rs[..i + 1]) == Confidences(rs[..i]) + [rs[i].confidence]
    ensures Reasonings(rs[..i + 1]) == Reasonings(rs[..i]) + [rs[i].reasoning]
    ensures Ones(i + 1) == Ones(i) + [1.0]
  {
  }

  lemma BuildSnoc(ls: seq<string>, ws: seq<real>, x: string, w: real)
    requires |ls| == |ws|
    ensures Build(ls + [x], ws + [w]) == Add(Build(ls, ws), x, w)
  {
    assert (ls + [x])[..|ls|] == ls;
    assert (ws + [w])[..|ws|] == ws;
  }

  /** `all_reasoning[:2]` */
  function FirstTwo(xs: seq<string>): (r: seq<string>)
    ensures |r| == if |xs| < 2 then |xs| else 2
    ensures r <= xs
  {
    if |xs| <= 2 then xs else xs[..2]
  }

  // ---------------------------------------------------------------------
  // Voting

  /** The value of field f elected by one vote per verdict. */
  function VotedLabel(rs: seq<Verdict>, f: Field): (w: string)
    requires |rs| > 0
    ensures w in Labels(rs, f)
  {
    Winner(Labels(rs, f), Ones(|rs|))
  }

  function MeanConfidence(rs: seq<Verdict>): real
    requires |rs| > 0
  {
    Sum(Confidences(rs)) / |rs| as real
  }

  /** The share of verdicts that name the elected colour type. */
  function Agreement(rs: seq<Verdict>): real
    requires |rs| > 0
  {
    Count(Labels(rs, ColorType), VotedLabel(rs, ColorType)) as real / |rs| as real
  }

  function VotingConfidence(rs: seq<Verdict>): real
    requires |rs| > 0
  {
    MeanConfidence(rs) * Agreement(rs)
  }

  function VotingText(n: nat, count: nat, winner: string, reasons: seq<string>): string {
    "Ensemble result from " + IntToString(n) + " models. "
    + "Consensus: " + IntToString(count) + "/" + IntToString(n) + " models agree on '" + winner + "'. "
    + "Individual analyses: " + Join(FirstTwo(reasons), "; ")
  }

  /**
   * The voting verdict: each categorical field is the tally winner of that
   * field, and the confidence is the mean confidence scaled by the share
   * of verdicts that agree on the winning colour type.
   */
  function Voting(rs: seq<Verdict>): Verdict
    requires |rs| > 0
  {
    var winner := VotedLabel(rs, ColorType);
    Verdict(
      winner,
      VotingConfidence(rs),
      VotedLabel(rs, UndertoneField),
      VotedLabel(rs, SeasonField),
      VotedLabel(rs, SubtypeField),
      VotingText(|rs|, Count(Labels(rs, ColorType), winner), winner, Reasonings(rs)))
  }

  /** The first label of the tally with the most weight, read back from the dict. */
  function Elected(t: Tally): string
    requires Keyed(t)
  {
    ArgMax(t.order, t.weight)
  }

  /** The tally of a whole field elects that field's winner. */
  lemma ElectedIsWinner(ls: seq<string>, ws: seq<real>)
    requires |ls| == |ws| > 0
    ensures Keyed(Build(ls, ws))
    ensures Elected(Build(ls, ws)) == Winner(ls, ws)
  {
    BuildKeyed(ls, ws);
  }

  /** The weight the tally of a whole field holds for its elected label is that label's total. */
  lemma ElectedWeight(ls: seq<string>, ws: seq<real>)
    requires |ls| == |ws| > 0
    ensures Keyed(Build(ls, ws)) && Elected(Build(ls, ws)) in Build(ls, ws).weight
    ensures Build(ls, ws).weight[Elected(Build(ls, ws))] == Total(ls, ws, Winner(ls, ws))
  {
    ElectedIsWinner(ls, ws);
    BuildSpec(ls, ws);
  }

  /** Products of equal factors are equal; kept apart so that callers need no nonlinear reasoning. */
  lemma ProductOfEquals(a: real, b: real, c: real, d: real)
    requires a == c && b == d
    ensures a * b == c * d
  {
  }

  /** `_aggregate_voting`. */
  method AggregateVoting(rs: seq<Verdict>) returns (v: Verdict)
    requires |rs| > 0
    ensures v == Voting(rs)
  {
    var colorVotes, undertoneVotes, seasonVotes, subtypeVotes := Empty, Empty, Empty, Empty;
    var totalConfidence := 0.0;
    var allReasoning: seq<string> := [];
    var i := 0;
    while i < |rs|
      invariant 0 <= i <= |rs|
      invariant colorVotes == Build(Labels(rs[..i], ColorType), Ones(i))
      invariant undertoneVotes == Build(Labels(rs[..i], UndertoneField), Ones(i))
      invariant seasonVotes == Build(Labels(rs[..i], SeasonField), Ones(i))
      invariant subtypeVotes == Build(Labels(rs[..i], SubtypeField), Ones(i))
      invariant totalConfidence == Sum(Confidences(rs[..i]))
      invariant allReasoning == Reasonings(rs[..i])
    {
      var r := rs[i];
      LabelsPrefix(rs, i, ColorType);
      LabelsPrefix(rs, i, UndertoneField);
      LabelsPrefix(rs, i, SeasonField);
      LabelsPrefix(rs, i, SubtypeField);
      BuildSnoc(Labels(rs[..i], ColorType), Ones(i), r.personalColorType, 1.0);
      BuildSnoc(Labels(rs[..i], UndertoneField), Ones(i), r.undertone, 1.0);
      BuildSnoc(Labels(rs[..i], SeasonField), Ones(i), r.season, 1.0);
      BuildSnoc(Labels(rs[..i], SubtypeField), Ones(i), r.subtype, 1.0);
      colorVotes := Add(colorVotes, r.personalColorType, 1.0);
      undertoneVotes := Add(undertoneVotes, r.undertone, 1.0);
      seasonVotes := Add(seasonVotes, r.season, 1.0);
      subtypeVotes := Add(subtypeVotes, r.subtype, 1.0);
      assert Confidences(rs[..i + 1])[..i] == Confidences(rs[..i]);
      totalConfidence := totalConfidence + r.confidence;
      allReasoning := allReasoning + [r.reasoning];
      i := i + 1;
    }
    assert rs[..|rs|] == rs;
    var n := |rs|;
    ElectedIsWinner(Labels(rs, ColorType), Ones(n));
    ElectedIsWinner(Labels(rs, UndertoneField), Ones(n));
    ElectedIsWinner(Labels(rs, SeasonField), Ones(n));
    ElectedIsWinner(Labels(rs, SubtypeField), Ones(n));
    var winner := Elected(colorVotes);
    ConsensusCountIs(rs, colorVotes);
    var consensusCount := colorVotes.weight[winner];
    var avgConfidence := totalConfidence / n as real;
    var consensusRatio := consensusCount / n as real;
    VotingConfidenceIs(rs, avgConfidence, consensusRatio);
    var reasoning := VotingText(n, consensusCount.Floor, winner, allReasoning);
    v := Verdict(winner, avgConfidence * consensusRatio,
      Elected(undertoneVotes), Elected(seasonVotes), Elected(subtypeVotes), reasoning);
    VotingIs(rs, v);
  }

  /** The finished colour tally holds, for its elected label, the number of verdicts naming it. */
  lemma ConsensusCountIs(rs: seq<Verdict>, colorVotes: Tally)
    requires |rs| > 0
    requires colorVotes == Build(Labels(rs, ColorType), Ones(|rs|))
    ensures Keyed(colorVotes) && Elected(colorVotes) in colorVotes.weight
    ensures colorVotes.weight[Elected(colorVotes)] == Count(Labels(rs, ColorType), Elected(colorVotes)) as real
  {
    ElectedIsWinner(Labels(rs, ColorType), Ones(|rs|));
    BuildSpec(Labels(rs, ColorType), Ones(|rs|));
    TotalOfOnes(Labels(rs, ColorType), Elected(colorVotes));
  }

  lemma VotingConfidenceIs(rs: seq<Verdict>, mean: real, agreement: real)
    requires |rs| > 0
    requires mean == MeanConfidence(rs) && agreement == Agreement(rs)
    ensures mean * agreement == VotingConfidence(rs)
  {
    VotingConfidenceUnfolds(rs);
    ProductOfEquals(mean, agreement, MeanConfidence(rs), Agreement(rs));
  }

  lemma VotingConfidenceUnfolds(rs: seq<Verdict>)
    requires |rs| > 0
    ensures VotingConfidence(rs) == MeanConfidence(rs) * Agreement(rs)
  {
  }

  /** A verdict with the voting fields is the voting verdict. */
  lemma VotingIs(rs: seq<Verdict>, v: Verdict)
    requires |rs| > 0
    requires v.personalColorType == VotedLabel(rs, ColorType)
    requires v.confidence == VotingConfidence(rs)
    requires v.undertone == VotedLabel(rs, UndertoneField)
    requires v.season == VotedLabel(rs, SeasonField)
    requires v.subtype == VotedLabel(rs, SubtypeField)
    requires v.reasoning == VotingText(|rs|, Count(Labels(rs, ColorType), v.personalColorType), v.personalColorType, Reasonings(rs))
    ensures v == Voting(rs)
  {
  }

  lemma VotingLabel(rs: seq<Verdict>, f: Field)
    requires |rs| > 0
    ensures LabelOf(Voting(rs), f) == VotedLabel(rs, f)
  {
  }

  /**
   * Every categorical field of the voting verdict occurs in the input with
   * the largest count, and among equal counts the value seen first wins.
   */
  lemma VotingMajorities(rs: seq<Verdict>, f: Field)
    requires |rs| > 0
    ensures var ls := Labels(rs, f);
      var w := LabelOf(Voting(rs), f);
      && w in ls
      && (forall x :: x in ls ==> Count(ls, x) <= Count(ls, w))
      && (forall i :: 0 <= i < |rs| && w !in ls[..i + 1] ==> Count(ls, ls[i]) < Count(ls, w))
  {
    var ls := Labels(rs, f);
    VotingLabel(rs, f);
    var w := VotedLabel(rs, f);
    WinnerIsFirstMaximum(ls, Ones(|rs|));
    TotalOfOnes(ls, w);
    forall x | x in ls
      ensures Count(ls, x) <= Count(ls, w)
    {
      TotalOfOnes(ls, x);
    }
    forall i | 0 <= i < |rs| && w !in ls[..i + 1]
      ensures Count(ls, ls[i]) < Count(ls, w)
    {
      TotalOfOnes(ls, ls[i]);
    }
  }

  lemma {:induction false} SumBounds(xs: seq<real>)
    requires forall i :: 0 <= i < |xs| ==> 0.0 <= xs[i] <= 1.0
    ensures 0.0 <= Sum(xs) <= |xs| as real
  {
    if xs != [] {
      SumBounds(xs[..|xs| - 1]);
    }
  }

  lemma UnitFraction(a: real, n: real)
    requires 0.0 <= a <= n && n > 0.0
    ensures 0.0 <= a / n <= 1.0
    ensures 0.0 < a ==> 0.0 < a / n
  {
  }

  lemma UnitProduct(a: real, b: real)
    requires 0.0 <= a <= 1.0 && 0.0 <= b <= 1.0
    ensures 0.0 <= a * b <= 1.0
  {
    assert 0.0 <= a * b;
    assert a * (1.0 - b) >= 0.0;
  }

  lemma MeanConfidenceBounded(rs: seq<Verdict>)
    requires |rs| > 0
    requires forall i :: 0 <= i < |rs| ==> 0.0 <= rs[i].confidence <= 1.0
    ensures 0.0 <= MeanConfidence(rs) <= 1.0
  {
    SumBounds(Confidences(rs));
    UnitFraction(Sum(Confidences(rs)), |rs| as real);
  }

  /** At least one verdict names the elected colour type. */
  lemma AgreementBounded(rs: seq<Verdict>)
    requires |rs| > 0
    ensures 0.0 < Agreement(rs) <= 1.0
  {
    var colors := Labels(rs, ColorType);
    var w := VotedLabel(rs, ColorType);
    CountBounded(colors, w);
    CountPositive(colors, w);
    UnitFraction(Count(colors, w) as real, |rs| as real);
  }

  /** The voting confidence lies in [0, 1] when every input confidence does. */
  lemma VotingConfidenceInUnit(rs: seq<Verdict>)
    requires |rs| > 0
    requires forall i :: 0 <= i < |rs| ==> 0.0 <= rs[i].confidence <= 1.0
    ensures 0.0 <= VotingConfidence(rs) <= 1.0
  {
    MeanConfidenceBounded(rs);
    AgreementBounded(rs);
    UnitProduct(MeanConfidence(rs), Agreement(rs));
  }

  /** The voting confidence depends only on the colour-type labels and the confidences. */
  lemma VotingConfidenceDependsOn(rs: seq<Verdict>, others: seq<Verdict>)
    requires |rs| > 0
    requires Labels(others, ColorType) == Labels(rs, ColorType) && Confidences(others) == Confidences(rs)
    ensures |others| > 0 && VotingConfidence(others) == VotingConfidence(rs)
  {
    assert |others| == |Labels(others, ColorType)| == |rs|;
    assert MeanConfidence(others) == MeanConfidence(rs);
    assert Agreement(others) == Agreement(rs);
    ProductOfEquals(MeanConfidence(others), Agreement(others), MeanConfidence(rs), Agreement(rs));
  }

  /**
   * The voting verdict's confidence lies in [0, 1] when every input
   * confidence does, and it changes only with the colour-type labels and
   * the confidences.
   */
  lemma VotingConfidenceBounds(rs: seq<Verdict>, others: seq<Verdict>)
    requires |rs| > 0
    requires forall i :: 0 <= i < |rs| ==> 0.0 <= rs[i].confidence <= 1.0
    requires Labels(others, ColorType) == Labels(rs, ColorType) && Confidences(others) == Confidences(rs)
    ensures |others| > 0
    ensures 0.0 <= Voting(rs).confidence <= 1.0
    ensures Voting(others).confidence == Voting(rs).confidence
  {
    VotingConfidenceInUnit(rs);
    VotingConfidenceDependsOn(rs, others);
  }

  // ---------------------------------------------------------------------
  // Confidence-weighted voting

  function Shares(cs: seq<real>, total: real): (ws: seq<real>)
    requires total != 0.0
    ensures |ws| == |cs|
  {
    seq(|cs|, i requires 0 <= i < |cs| => cs[i] / total)
  }

  lemma ShareAt(cs: seq<real>, total: real, i: nat)
    requires total != 0.0 && i < |cs|
    ensures Shares(cs, total)[i] == cs[i] / total
  {
  }

  /** The summands of `sum(c * c / total_weight ...)`. */
  function SquaredShares(cs: seq<real>, total: real): (ws: seq<real>)
    requires total != 0.0
    ensures |ws| == |cs|
  {
    seq(|cs|, i requires 0 <= i < |cs| => cs[i] * cs[i] / total)
  }

  /** Each verdict's vote: its share of the total confidence. */
  function Weights(rs: seq<Verdict>): (ws: seq<real>)
    requires Sum(Confidences(rs)) != 0.0
    ensures |ws| == |rs|
  {
    Shares(Confidences(rs), Sum(Confidences(rs)))
  }

  /** The value of field f with the largest summed share. */
  function WeightedLabel(rs: seq<Verdict>, f: Field): (w: string)
    requires |rs| > 0 && Sum(Confidences(rs)) != 0.0
    ensures w in Labels(rs, f)
  {
    Winner(Labels(rs, f), Weights(rs))
  }

  /** The summed share of the elected colour type. */
  function WeightedAgreement(rs: seq<Verdict>): real
    requires |rs| > 0 && Sum(Confidences(rs)) != 0.0
  {
    Total(Labels(rs, ColorType), Weights(rs), WeightedLabel(rs, ColorType))
  }

  /** The confidence-weighted mean confidence, sum(c_i * c_i / total). */
  function WeightedMean(rs: seq<Verdict>): real
    requires Sum(Confidences(rs)) != 0.0
  {
    Sum(SquaredShares(Confidences(rs), Sum(Confidences(rs))))
  }

  function WeightedConfidence(rs: seq<Verdict>): real
    requires |rs| > 0 && Sum(Confidences(rs)) != 0.0
  {
    WeightedMean(rs) * WeightedAgreement(rs)
  }

  function WeightedText(n: nat, agreement: real, winner: string, reasons: seq<string>): string {
    "Ensemble result (weighted by confidence) from " + IntToString(n) + " models. "
    + "Primary consensus: " + FormatPercent1(agreement) + " weighted agreement on '" + winner + "'. "
    + "Analyses: " + Join(FirstTwo(reasons), "; ")
  }

  /**
   * The weighted verdict for a non-zero total confidence: each verdict
   * votes with its share of the total confidence, and the confidence is
   * the confidence-weighted mean confidence scaled by the winning colour
   * type's summed share.
   */
  function Weighted(rs: seq<Verdict>): Verdict
    requires |rs| > 0 && Sum(Confidences(rs)) != 0.0
  {
    var winner := WeightedLabel(rs, ColorType);
    Verdict(
      winner,
      WeightedConfidence(rs),
      WeightedLabel(rs, UndertoneField),
      WeightedLabel(rs, SeasonField),
      WeightedLabel(rs, SubtypeField),
      WeightedText(|rs|, WeightedAgreement(rs), winner, Reasonings(rs)))
  }

  /** With no total confidence to share out, the weighted method falls back to voting. */
  function WeightedAverage(rs: seq<Verdict>): Verdict
    requires |rs| > 0
  {
    if Sum(Confidences(rs)) == 0.0 then Voting(rs) else Weighted(rs)
  }

  /** One more verdict adds its share to the tally of its label. */
  lemma WeightStep(rs: seq<Verdict>, i: nat, f: Field)
    requires i < |rs| && Sum(Confidences(rs)) != 0.0
    ensures Build(Labels(rs[..i + 1], f), Weights(rs)[..i + 1])
         == Add(Build(Labels(rs[..i], f), Weights(rs)[..i]), LabelOf(rs[i], f), rs[i].confidence / Sum(Confidences(rs)))
  {
    var ws := Weights(rs);
    ShareAt(Confidences(rs), Sum(Confidences(rs)), i);
    assert ws[..i + 1] == ws[..i] + [rs[i].confidence / Sum(Confidences(rs))];
    LabelsPrefix(rs, i, f);
    BuildSnoc(Labels(rs[..i], f), ws[..i], LabelOf(rs[i], f), rs[i].confidence / Sum(Confidences(rs)));
  }

  /** The loop of `_aggregate_weighted_average`: each verdict adds its share to its four labels. */
  method WeightTallies(rs: seq<Verdict>, totalWeight: real)
      returns (colorWeights: Tally, undertoneWeights: Tally, seasonWeights: Tally, subtypeWeights: Tally,
               allReasoning: seq<string>)
    requires totalWeight == Sum(Confidences(rs)) != 0.0
    ensures colorWeights == Build(Labels(rs, ColorType), Weights(rs))
    ensures undertoneWeights == Build(Labels(rs, UndertoneField), Weights(rs))
    ensures seasonWeights == Build(Labels(rs, SeasonField), Weights(rs))
    ensures subtypeWeights == Build(Labels(rs, SubtypeField), Weights(rs))
    ensures allReasoning == Reasonings(rs)
  {
    ghost var ws := Weights(rs);
    colorWeights, undertoneWeights, seasonWeights, subtypeWeights := Empty, Empty, Empty, Empty;
    allReasoning := [];
    var i := 0;
    while i < |rs|
      invariant 0 <= i <= |rs|
      invariant colorWeights == Build(Labels(rs[..i], ColorType), ws[..i])
      invariant undertoneWeights == Build(Labels(rs[..i], UndertoneField), ws[..i])
      invariant seasonWeights == Build(Labels(rs[..i], SeasonField), ws[..i])
      invariant subtypeWeights == Build(Labels(rs[..i], SubtypeField), ws[..i])
      invariant allReasoning == Reasonings(rs[..i])
    {
      var r := rs[i];
      var weight := r.confidence / totalWeight;
      WeightStep(rs, i, ColorType);
      WeightStep(rs, i, UndertoneField);
      WeightStep(rs, i, SeasonField);
      WeightStep(rs, i, SubtypeField);
      LabelsPrefix(rs, i, ColorType);
      colorWeights := Add(colorWeights, r.personalColorType, weight);
      undertoneWeights := Add(undertoneWeights, r.undertone, weight);
      seasonWeights := Add(seasonWeights, r.season, weight);
      subtypeWeights := Add(subtypeWeights, r.subtype, weight);
      allReasoning := allReasoning + [r.reasoning];
      i := i + 1;
    }
    assert rs[..|rs|] == rs && ws[..|rs|] == ws;
  }

  /** `_aggregate_weighted_average`. */
  method AggregateWeightedAverage(rs: seq<Verdict>) returns (v: Verdict)
    requires |rs| > 0
    ensures v == WeightedAverage(rs)
  {
    var totalWeight := Sum(Confidences(rs));
    if totalWeight == 0.0 {
      v := AggregateVoting(rs);
      return;
    }
    ghost var ws := Weights(rs);
    var colorWeights, undertoneWeights, seasonWeights, subtypeWeights, allReasoning := WeightTallies(rs, totalWeight);
    ElectedIsWinner(Labels(rs, UndertoneField), ws);
    ElectedIsWinner(Labels(rs, SeasonField), ws);
    ElectedIsWinner(Labels(rs, SubtypeField), ws);
    ElectedWeight(Labels(rs, ColorType), ws);
    var winner := Elected(colorWeights);
    var weightedConfidence := Sum(SquaredShares(Confidences(rs), totalWeight));
    var consensusWeight := colorWeights.weight[winner];
    WeightedConfidenceIs(rs, weightedConfidence, consensusWeight);
    var reasoning := WeightedText(|rs|, consensusWeight, winner, allReasoning);
    v := Verdict(winner, weightedConfidence * consensusWeight,
      Elected(undertoneWeights), Elected(seasonWeights), Elected(subtypeWeights), reasoning);
    WeightedIs(rs, v);
  }

  lemma WeightedConfidenceIs(rs: seq<Verdict>, mean: real, agreement: real)
    requires |rs| > 0 && Sum(Confidences(rs)) != 0.0
    requires mean == WeightedMean(rs) && agreement == WeightedAgreement(rs)
    ensures mean * agreement == WeightedConfidence(rs)
  {
    ProductOfEquals(mean, agreement, WeightedMean(rs), WeightedAgreement(rs));
  }

  /** A verdict with the weighted fields is the weighted verdict. */
  lemma WeightedIs(rs: seq<Verdict>, v: Verdict)
    requires |rs| > 0 && Sum(Confidences(rs)) != 0.0
    requires v.personalColorType == WeightedLabel(rs, ColorType)
    requires v.confidence == WeightedConfidence(rs)
    requires v.undertone == WeightedLabel(rs, UndertoneField)
    requires v.season == WeightedLabel(rs, SeasonField)
    requires v.subtype == WeightedLabel(rs, SubtypeField)
    requires v.reasoning == WeightedText(|rs|, WeightedAgreement(rs), v.personalColorType, Reasonings(rs))
    ensures v == Weighted(rs)
  {
  }

  /**
   * With a non-zero total confidence, each categorical field of the
   * weighted verdict has the largest summed share, the first-seen value
   * winning ties, and the confidence is sum(c_i^2 / total) times the
   * winning colour type's summed share.
   */
  lemma WeightedFields(rs: seq<Verdict>, f: Field)
    requires |rs| > 0 && Sum(Confidences(rs)) != 0.0
    ensures var ws := Weights(rs);
      var ls := Labels(rs, f);
      var w := LabelOf(Weighted(rs), f);
      && w in ls
      && (forall x :: x in ls ==> Total(ls, ws, x) <= Total(ls, ws, w))
      && (forall i :: 0 <= i < |rs| && w !in ls[..i + 1] ==> Total(ls, ws, ls[i]) < Total(ls, ws, w))
    ensures Weighted(rs).confidence == WeightedMean(rs) * WeightedAgreement(rs)
    ensures WeightedAgreement(rs) == Total(Labels(rs, ColorType), Weights(rs), Weighted(rs).personalColorType)
  {
    assert LabelOf(Weighted(rs), f) == WeightedLabel(rs, f);
    WinnerIsFirstMaximum(Labels(rs, f), Weights(rs));
  }

  // ---------------------------------------------------------------------
  // Consensus-gated voting

  const MinConsensus: real := 0.67
  const LowConsensusPenalty: real := 0.7

  /** The weighted verdict marked down for want of consensus. */
  function Penalised(v: Verdict, ratio: real): Verdict {
    v.(confidence := v.confidence * LowConsensusPenalty,
       reasoning := "Low consensus (" + FormatPercent1(ratio) + "). " + v.reasoning)
  }

  /** `max(votes.values()) / len(results)`. */
  function ConsensusRatio(rs: seq<Verdict>): real
    requires |rs| > 0
  {
    TopWeight(Labels(rs, ColorType), Ones(|rs|)) / |rs| as real
  }

  /**
   * The consensus verdict: the voting verdict when at least 67% agree on
   * the colour type, the penalised weighted verdict otherwise.
   */
  function Consensus(rs: seq<Verdict>): Verdict
    requires |rs| > 0
  {
    var ratio := ConsensusRatio(rs);
    if ratio < MinConsensus then Penalised(WeightedAverage(rs), ratio) else Voting(rs)
  }

  /** `_aggregate_consensus`. */
  method AggregateConsensus(rs: seq<Verdict>) returns (v: Verdict)
    requires |rs| > 0
    ensures v == Consensus(rs)
  {
    var consensusRatio := CountConsensus(rs);
    if consensusRatio < MinConsensus {
      v := AggregateWeightedAverage(rs);
      v := Penalised(v, consensusRatio);
    } else {
      v := AggregateVoting(rs);
    }
  }

  /** The vote count of `_aggregate_consensus` and its top share. */
  method CountConsensus(rs: seq<Verdict>) returns (consensusRatio: real)
    requires |rs| > 0
    ensures consensusRatio == ConsensusRatio(rs)
  {
    var colorVotes := Empty;
    var i := 0;
    while i < |rs|
      invariant 0 <= i <= |rs|
      invariant colorVotes == Build(Labels(rs[..i], ColorType), Ones(i))
    {
      LabelsPrefix(rs, i, ColorType);
      BuildSnoc(Labels(rs[..i], ColorType), Ones(i), rs[i].personalColorType, 1.0);
      colorVotes := Add(colorVotes, rs[i].personalColorType, 1.0);
      i := i + 1;
    }
    assert rs[..|rs|] == rs;
    BuildKeyed(Labels(rs, ColorType), Ones(|rs|));
    var maxVotes := MaxWeight(colorVotes.order, colorVotes.weight);
    consensusRatio := maxVotes / |rs| as real;
  }


  /**
   * The consensus ratio is the voting agreement: the largest colour-type
   * count over the number of verdicts.
   */
  lemma ConsensusRatioIsAgreement(rs: seq<Verdict>)
    requires |rs| > 0
    ensures ConsensusRatio(rs) == Agreement(rs)
    ensures forall x :: x in Labels(rs, ColorType) ==>
      Count(Labels(rs, ColorType), x) <= Count(Labels(rs, ColorType), VotedLabel(rs, ColorType))
  {
    var ls := Labels(rs, ColorType);
    TotalOfOnes(ls, VotedLabel(rs, ColorType));
    assert TopWeight(ls, Ones(|rs|)) == Count(ls, VotedLabel(rs, ColorType)) as real;
    VotingMajorities(rs, ColorType);
    VotingLabel(rs, ColorType);
  }

  /**
   * Among three verdicts only unanimity reaches the voting branch: two
   * in agreement give a ratio of 2/3, which is below 0.67.
   */
  lemma ThreeVerdictsConsensus(rs: seq<Verdict>)
    requires |rs| == 3
    ensures var unanimous := rs[0].personalColorType == rs[1].personalColorType == rs[2].personalColorType;
      && (unanimous ==> ConsensusRatio(rs) == 1.0)
      && (!unanimous ==> ConsensusRatio(rs) <= 2.0 / 3.0 < MinConsensus)
  {
    var ls := Labels(rs, ColorType);
    var w := VotedLabel(rs, ColorType);
    ConsensusRatioIsAgreement(rs);
    CountOfThree(ls, w);
    assert ConsensusRatio(rs) == Count(ls, w) as real / 3.0;
  }

  /** How many of three labels equal x. */
  lemma CountOfThree(ls: seq<string>, x: string)
    requires |ls| == 3
    ensures Count(ls, x) == (if ls[0] == x then 1 else 0) + (if ls[1] == x then 1 else 0) + (if ls[2] == x then 1 else 0)
  {
    var one, two := ls[..1], ls[..2];
    assert two[..1] == one && one[..0] == [];
    assert Count(one, x) == (if ls[0] == x then 1 else 0);
    assert Count(two, x) == Count(one, x) + (if ls[1] == x then 1 else 0);
  }

  // ---------------------------------------------------------------------
  // Dispatch

  /** `_aggregate_results`, as a value. */
  function Aggregation(rs: seq<Verdict>, strategy: string): Result<Verdict, EnsembleError> {
    if rs == [] then Failure(NoResults)
    else if strategy == "voting" then Success(Voting(rs))
    else if strategy == "weighted_average" then Success(WeightedAverage(rs))
    else if strategy == "consensus" then Success(Consensus(rs))
    else Failure(UnknownMethod(strategy))
  }

  /** `_aggregate_results`: the empty list is refused first, then an unknown method. */
  method Aggregate(rs: seq<Verdict>, strategy: string) returns (r: Result<Verdict, EnsembleError>)
    ensures r == Aggregation(rs, strategy)
  {
    if rs == [] {
      return Failure(NoResults);
    }
    if strategy == "voting" {
      var v := AggregateVoting(rs);
      r := Success(v);
    } else if strategy == "weighted_average" {
      var v := AggregateWeightedAverage(rs);
      r := Success(v);
    } else if strategy == "consensus" {
      var v := AggregateConsensus(rs);
      r := Success(v);
    } else {
      r := Failure(UnknownMethod(strategy));
    }
  }

  predicate KnownStrategy(strategy: string) {
    strategy == "voting" || strategy == "weighted_average" || strategy == "consensus"
  }

  /** Aggregation fails exactly for an empty list or an unknown method, and the empty list wins. */
  lemma AggregationFailures(rs: seq<Verdict>, strategy: string)
    ensures Aggregation(rs, strategy).Failure? <==> rs == [] || !KnownStrategy(strategy)
    ensures rs == [] ==> Aggregation(rs, strategy) == Failure(NoResults)
    ensures rs != [] && !KnownStrategy(strategy) ==> Aggregation(rs, strategy) == Failure(UnknownMethod(strategy))
  {
  }

  lemma SingleLabels(v: Verdict, f: Field)
    ensures Labels([v], f) == [LabelOf(v, f)]
    ensures Confidences([v]) == [v.confidence]
  {
  }

  lemma SingleVoting(v: Verdict)
    ensures VotedLabel([v], ColorType) == v.personalColorType
    ensures VotedLabel([v], UndertoneField) == v.undertone
    ensures VotedLabel([v], SeasonField) == v.season
    ensures VotedLabel([v], SubtypeField) == v.subtype
    ensures Agreement([v]) == 1.0
    ensures VotingConfidence([v]) == v.confidence
  {
    SingleLabels(v, ColorType);
    SingleLabels(v, UndertoneField);
    SingleLabels(v, SeasonField);
    SingleLabels(v, SubtypeField);
    var colors := [v.personalColorType];
    assert Count(colors, v.personalColorType) == 1 by {
      assert colors[..0] == [];
    }
    assert Sum([v.confidence]) == v.confidence by {
      assert [v.confidence][..0] == [];
    }
    assert MeanConfidence([v]) == v.confidence;
    ProductOfEquals(MeanConfidence([v]), Agreement([v]), v.confidence, 1.0);
  }

  lemma SingleWeighted(v: Verdict)
    requires v.confidence != 0.0
    ensures Sum(Confidences([v])) == v.confidence
    ensures WeightedLabel([v], ColorType) == v.personalColorType
    ensures WeightedLabel([v], UndertoneField) == v.undertone
    ensures WeightedLabel([v], SeasonField) == v.season
    ensures WeightedLabel([v], SubtypeField) == v.subtype
    ensures WeightedMean([v]) * WeightedAgreement([v]) == v.confidence
  {
    var c := v.confidence;
    SingleLabels(v, ColorType);
    SingleLabels(v, UndertoneField);
    SingleLabels(v, SeasonField);
    SingleLabels(v, SubtypeField);
    assert Sum([c]) == c by {
      assert [c][..0] == [];
    }
    var ws := Weights([v]);
    SelfShare(c);
    assert ws == [1.0];
    var colors := [v.personalColorType];
    assert Total(colors, ws, v.personalColorType) == 1.0 by {
      assert colors[..0] == [] && ws[..0] == [];
    }
    var squares := SquaredShares([c], c);
    assert Sum(squares) == c by {
      assert squares[..0] == [];
    }
    ProductOfEquals(WeightedMean([v]), WeightedAgreement([v]), c, 1.0);
  }

  lemma SelfShare(c: real)
    requires c != 0.0
    ensures c / c == 1.0 && c * c / c == c
  {
  }

  /** `a` carries the four labels and the confidence of `v`. */
  predicate KeepsVerdict(a: Verdict, v: Verdict) {
    && a.personalColorType == v.personalColorType
    && a.undertone == v.undertone
    && a.season == v.season
    && a.subtype == v.subtype
    && a.confidence == v.confidence
  }

  lemma SingleVotingKeeps(v: Verdict)
    ensures KeepsVerdict(Voting([v]), v)
  {
    SingleVoting(v);
  }

  lemma SingleWeightedKeeps(v: Verdict)
    ensures KeepsVerdict(WeightedAverage([v]), v)
  {
    SingleLabels(v, ColorType);
    if v.confidence != 0.0 {
      SingleWeighted(v);
      WeightedProjections([v]);
    } else {
      assert Sum([v.confidence]) == 0.0 by {
        assert [v.confidence][..0] == [];
      }
      SingleVotingKeeps(v);
    }
  }

  /** The labels and the confidence of the weighted verdict. */
  lemma WeightedProjections(rs: seq<Verdict>)
    requires |rs| > 0 && Sum(Confidences(rs)) != 0.0
    ensures Weighted(rs).personalColorType == WeightedLabel(rs, ColorType)
    ensures Weighted(rs).undertone == WeightedLabel(rs, UndertoneField)
    ensures Weighted(rs).season == WeightedLabel(rs, SeasonField)
    ensures Weighted(rs).subtype == WeightedLabel(rs, SubtypeField)
    ensures Weighted(rs).confidence == WeightedMean(rs) * WeightedAgreement(rs)
  {
  }

  lemma SingleConsensusKeeps(v: Verdict)
    ensures KeepsVerdict(Consensus([v]), v)
  {
    SingleVoting(v);
    ConsensusRatioIsAgreement([v]);
  }

  /** With one verdict, every method keeps its four labels and its confidence. */
  lemma SingleVerdict(v: Verdict, strategy: string)
    requires KnownStrategy(strategy)
    ensures Aggregation([v], strategy).Success?
    ensures KeepsVerdict(Aggregation([v], strategy).value, v)
  {
    if strategy == "voting" {
      SingleVotingKeeps(v);
    } else if strategy == "weighted_average" {
      SingleWeightedKeeps(v);
    } else {
      SingleConsensusKeeps(v);
    }
  }

  // ---------------------------------------------------------------------
  // Parallel mode

  /** The verdicts among the gathered outcomes, in dispatch order. */
  function Successes(outcomes: seq<Result<Verdict, AnalysisError>>): (vs: seq<Verdict>)
    ensures |vs| <= |outcomes|
    ensures forall v :: v in vs <==> Success(v) in outcomes
  {
    if outcomes == [] then []
    else
      var n := |outcomes| - 1;
      var init := Successes(outcomes[..n]);
      assert forall o :: o in outcomes <==> o in outcomes[..n] || o == outcomes[n];
      if outcomes[n].Success? then init + [outcomes[n].value] else init
  }

  /** Filtering distributes over concatenation, so input order is kept. */
  lemma {:induction false} SuccessesAppend(a: seq<Result<Verdict, AnalysisError>>, b: seq<Result<Verdict, AnalysisError>>)
    ensures Successes(a + b) == Successes(a) + Successes(b)
    decreases |b|
  {
    if b == [] {
      assert a + b == a;
    } else {
      var n := |b| - 1;
      assert (a + b)[..|a + b| - 1] == a + b[..n];
      SuccessesAppend(a, b[..n]);
    }
  }

  const AllProviders: seq<Provider> := [Gemini, OpenAI, Claude]

  /** The three analyses in dispatch order, as `gather` returns them. */
  function Gathered(providers: seq<Provider>, image: Image, reply: (Provider, Image) -> Option<string>,
                    parse: string -> Option<Json>): (os: seq<Result<Verdict, AnalysisError>>)
    ensures |os| == |providers|
    ensures forall i :: 0 <= i < |providers| ==> os[i] == Analysis(providers[i], reply(providers[i], image), parse)
  {
    seq(|providers|, i requires 0 <= i < |providers| => Analysis(providers[i], reply(providers[i], image), parse))
  }

  /** Applying f to a growing prefix only appends. */
  lemma MapSnoc<A, B>(xs: seq<A>, i: nat, f: A -> B, ys: seq<B>, zs: seq<B>)
    requires i < |xs|
    requires |ys| == i + 1 && forall j :: 0 <= j <= i ==> ys[j] == f(xs[j])
    requires |zs| == i && forall j :: 0 <= j < i ==> zs[j] == f(xs[j])
    ensures ys == zs + [f(xs[i])]
  {
  }

  lemma GatheredSnoc(providers: seq<Provider>, i: nat, image: Image, reply: (Provider, Image) -> Option<string>,
                     parse: string -> Option<Json>)
    requires i < |providers|
    ensures Gathered(providers[..i + 1], image, reply, parse)
      == Gathered(providers[..i], image, reply, parse) + [Analysis(providers[i], reply(providers[i], image), parse)]
  {
    var f := (p: Provider) => Analysis(p, reply(p, image), parse);
    MapSnoc(providers, i, f, Gathered(providers[..i + 1], image, reply, parse), Gathered(providers[..i], image, reply, parse));
  }

  /** Run the analysers one after another, collecting outcomes in dispatch order. */
  method RunAnalyses(providers: seq<Provider>, image: Image, reply: (Provider, Image) -> Option<string>,
                     parse: string -> Option<Json>) returns (outcomes: seq<Result<Verdict, AnalysisError>>)
    ensures outcomes == Gathered(providers, image, reply, parse)
  {
    outcomes := [];
    var i := 0;
    while i < |providers|
      invariant 0 <= i <= |providers|
      invariant outcomes == Gathered(providers[..i], image, reply, parse)
    {
      var r := AnalyzeWith(providers[i], reply(providers[i], image), parse);
      GatheredSnoc(providers, i, image, reply, parse);
      outcomes := outcomes + [r];
      i := i + 1;
    }
    assert providers[..|providers|] == providers;
  }

  /** The success filter after `gather`. */
  method KeepSuccesses(outcomes: seq<Result<Verdict, AnalysisError>>) returns (valid: seq<Verdict>)
    ensures valid == Successes(outcomes)
  {
    valid := [];
    var i := 0;
    while i < |outcomes|
      invariant 0 <= i <= |outcomes|
      invariant valid == Successes(outcomes[..i])
    {
      assert outcomes[..i + 1][..i] == outcomes[..i];
      if outcomes[i].Success? {
        valid := valid + [outcomes[i].value];
      }
      i := i + 1;
    }
    assert outcomes[..|outcomes|] == outcomes;
  }

  /** `analyze_parallel`. */
  method AnalyzeParallel(input: ImageInput, strategy: string, decode: string -> Option<Image>,
                         reply: (Provider, Image) -> Option<string>, parse: string -> Option<Json>)
    returns (r: Result<Verdict, EnsembleError>)
    ensures Prepare(input, decode).None? ==> r == Failure(ImageUnreadable)
    ensures Prepare(input, decode).Some? ==>
      var valid := Successes(Gathered(AllProviders, Prepare(input, decode).value, reply, parse));
      r == if valid == [] then Failure(AllModelsFailed) else Aggregation(valid, strategy)
  {
    var image := Prepare(input, decode);
    if image.None? {
      return Failure(ImageUnreadable);
    }
    var outcomes := RunAnalyses(AllProviders, image.value, reply, parse);
    var valid := KeepSuccesses(outcomes);
    if valid == [] {
      return Failure(AllModelsFailed);
    }
    r := Aggregate(valid, strategy);
  }

  // ---------------------------------------------------------------------
  // Hybrid mode

  const AllModelNames: seq<string> := ["gemini", "openai", "claude"]

  /** The parallel models when none are requested: Gemini and OpenAI, unless one of them judges. */
  function DefaultParallelModels(judge: string): seq<string> {
    var pair := ["gemini", "openai"];
    if judge in pair then
      (if judge == "gemini" then ["openai", "claude"] else ["gemini", "claude"])
    else pair
  }

  /** For each of the three judges, the default is the other two models in their usual order. */
  lemma DefaultModelsExcludeJudge(judge: string)
    requires judge in AllModelNames
    ensures var ms := DefaultParallelModels(judge);
      && |ms| == 2 && judge !in ms
      && (forall m :: m in AllModelNames && m != judge ==> m in ms)
      && ms == (if judge == AllModelNames[0] then [] else [AllModelNames[0]])
              + (if judge == AllModelNames[1] then [] else [AllModelNames[1]])
              + (if judge == AllModelNames[2] then [] else [AllModelNames[2]])
  {
  }

  /** The providers that get a task; names other than the three are skipped. */
  function Dispatched(names: seq<string>): (ps: seq<Provider>)
    ensures |ps| <= |names|
  {
    if names == [] then []
    else
      var n := |names| - 1;
      var init := Dispatched(names[..n]);
      var name := names[n];
      if name == "gemini" then init + [Gemini]
      else if name == "openai" then init + [OpenAI]
      else if name == "claude" then init + [Claude]
      else init
  }

  /** Building the task list one requested model at a time. */
  method DispatchTasks(names: seq<string>) returns (ps: seq<Provider>)
    ensures ps == Dispatched(names)
  {
    ps := [];
    var i := 0;
    while i < |names|
      invariant 0 <= i <= |names|
      invariant ps == Dispatched(names[..i])
    {
      assert names[..i + 1][..i] == names[..i];
      var name := names[i];
      if name == "gemini" {
        ps := ps + [Gemini];
      } else if name == "openai" {
        ps := ps + [OpenAI];
      } else if name == "claude" {
        ps := ps + [Claude];
      }
      i := i + 1;
    }
    assert names[..|names|] == names;
  }

  /** The judge's provider: anything but "gemini" or "openai" is sent to Claude. */
  function JudgeProvider(judge: string): Provider {
    if judge == "gemini" then Gemini else if judge == "openai" then OpenAI else Claude
  }

  /** One entry of the summary shown to the judge. */
  datatype SummaryEntry = SummaryEntry(
    model: string,
    personalColorType: string,
    confidence: real,
    undertone: string,
    season: string,
    subtype: string,
    reasoning: string)

  /** The entry for the `i`-th result: "Model i+1" with that result's fields. */
  function Entry(rs: seq<Verdict>, i: nat): SummaryEntry
    requires i < |rs|
  {
    SummaryEntry("Model " + IntToString(i + 1), rs[i].personalColorType, rs[i].confidence,
      rs[i].undertone, rs[i].season, rs[i].subtype, rs[i].reasoning)
  }

  /** The summary shown to the judge: one entry per result, in order. */
  function Summary(rs: seq<Verdict>): seq<SummaryEntry> {
    seq(|rs|, i requires 0 <= i < |rs| => Entry(rs, i))
  }

  /** The summary entries: "Model 1", "Model 2", ... with each verdict's fields. */
  method JudgeSummary(rs: seq<Verdict>) returns (summary: seq<SummaryEntry>)
    ensures summary == Summary(rs)
    ensures |summary| == |rs|
    ensures forall i :: 0 <= i < |rs| ==>
      && summary[i].model == "Model " + IntToString(i + 1)
      && summary[i].personalColorType == rs[i].personalColorType
      && summary[i].confidence == rs[i].confidence
      && summary[i].undertone == rs[i].undertone
      && summary[i].season == rs[i].season
      && summary[i].subtype == rs[i].subtype
      && summary[i].reasoning == rs[i].reasoning
  {
    summary := [];
    var i := 0;
    while i < |rs|
      invariant 0 <= i <= |rs|
      invariant |summary| == i
      invariant forall j :: 0 <= j < i ==> summary[j] == Entry(rs, j)
    {
      var r := rs[i];
      summary := summary + [SummaryEntry("Model " + IntToString(i + 1), r.personalColorType, r.confidence,
        r.undertone, r.season, r.subtype, r.reasoning)];
      i := i + 1;
    }
  }

  /** The summary names its models apart. */
  lemma SummaryNamesDistinct(i: nat, j: nat)
    requires i != j
    ensures "Model " + IntToString(i + 1) != "Model " + IntToString(j + 1)
  {
    IntToStringInjective(i + 1, j + 1);
    PrefixedDistinct("Model ", IntToString(i + 1), IntToString(j + 1));
  }

  /** Different numbers are written differently. */
  lemma IntToStringInjective(m: int, n: int)
    requires m != n
    ensures IntToString(m) != IntToString(n)
  {
    ParseIntToString(m);
    ParseIntToString(n);
  }

  /** The same prefix in front of different texts gives different texts. */
  lemma PrefixedDistinct(p: string, x: string, y: string)
    requires x != y
    ensures p + x != p + y
  {
    assert (p + x)[|p|..] == x && (p + y)[|p|..] == y;
  }


  /** The text the judge's reply is parsed from: Gemini's reply is stripped first, and every reply loses its fences. */
  function JudgeText(p: Provider, reply: string): string {
    Unfenced(if p == Gemini then Trim(reply) else reply)
  }

  /** `_judge_results`, as a value: errors are not wrapped. */
  function Judgement(p: Provider, reply: Option<string>, parse: string -> Option<Json>): Result<Verdict, Cause> {
    if reply.None? then Failure(RequestFailed)
    else
      match parse(JudgeText(p, reply.value))
      case None => Failure(NotJson)
      case Some(json) =>
        match Normalised(json)
        case Failure(invalid) => Failure(Unusable(invalid))
        case Success(v) => Success(v)
  }

  /** `_judge_results`: show the summary to the judge and normalise its reply. */
  method Judge(rs: seq<Verdict>, judge: string,
               judgeReply: (Provider, seq<SummaryEntry>) -> Option<string>, parse: string -> Option<Json>)
    returns (r: Result<Verdict, Cause>, summary: seq<SummaryEntry>)
    ensures summary == Summary(rs) && |summary| == |rs|
    ensures r == Judgement(JudgeProvider(judge), judgeReply(JudgeProvider(judge), Summary(rs)), parse)
  {
    summary := JudgeSummary(rs);
    var p := JudgeProvider(judge);
    var reply := judgeReply(p, summary);
    if reply.None? {
      return Failure(RequestFailed), summary;
    }
    var text := reply.value;
    if p == Gemini {
      text := Trim(text);
    }
    text := StripFences(text);
    var parsed := parse(text);
    if parsed.None? {
      return Failure(NotJson), summary;
    }
    var outcome := Normalise(parsed.value);
    if outcome.Failure? {
      return Failure(Unusable(outcome.error)), summary;
    }
    r := Success(outcome.value);
  }

  /** `analyze_hybrid`: the parallel models analyse, then the judge's verdict is returned as it is. */
  method AnalyzeHybrid(input: ImageInput, judge: string, requested: Option<seq<string>>,
                       decode: string -> Option<Image>, reply: (Provider, Image) -> Option<string>,
                       judgeReply: (Provider, seq<SummaryEntry>) -> Option<string>, parse: string -> Option<Json>)
    returns (r: Result<Verdict, EnsembleError>)
    ensures Prepare(input, decode).None? ==> r == Failure(ImageUnreadable)
    ensures Prepare(input, decode).Some? ==>
      var models := requested.GetOr(DefaultParallelModels(judge));
      var valid := Successes(Gathered(Dispatched(models), Prepare(input, decode).value, reply, parse));
      (valid == [] ==> r == Failure(AllParallelModelsFailed))
      && (valid != [] ==>
            match Judgement(JudgeProvider(judge), judgeReply(JudgeProvider(judge), Summary(valid)), parse)
            case Success(v) => r == Success(v)
            case Failure(c) => r == Failure(JudgeFailed(c)))
  {
    var image := Prepare(input, decode);
    if image.None? {
      return Failure(ImageUnreadable);
    }
    var models := if requested.None? then DefaultParallelModels(judge) else requested.value;
    var providers := DispatchTasks(models);
    var outcomes := RunAnalyses(providers, image.value, reply, parse);
    var valid := KeepSuccesses(outcomes);
    if valid == [] {
      return Failure(AllParallelModelsFailed);
    }
    var verdict, summary := Judge(valid, judge, judgeReply, parse);
    if verdict.Failure? {
      return Failure(JudgeFailed(verdict.error));
    }
    r := Success(verdict.value);
  }
}

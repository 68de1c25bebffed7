/**
 * The rule-based part of the gateway's risk assessor: the fallback scorer
 * used when the language-model call fails, and the clean-up of the model's
 * reply before it is parsed as JSON.
 */
module RiskAssessor {
  import opened Outcomes
  import opened Text
  import opened GatewayModels

  const AutoApprove := "auto_approve"
  const HumanReview := "human_review"

  /** The three families of factors the fallback scorer emits. */
  datatype FactorKind = Environment | Service | TimeOfDay

  function KindOf(f: RiskFactor): Option<FactorKind>
  {
    if f.factor == "production_environment" || f.factor == "staging_environment" then Some(Environment)
    else if f.factor == "customer_facing_service" || f.factor == "internal_service" then Some(Service)
    else if f.factor == "business_hours" || f.factor == "off_hours" then Some(TimeOfDay)
    else None
  }

  /** How many of `factors` belong to family `k`. */
  function CountKind(factors: seq<RiskFactor>, k: FactorKind): (n: nat)
    ensures n <= |factors|
  {
    if factors == [] then 0
    else CountKind(factors[..|factors| - 1], k) + (if KindOf(factors[|factors| - 1]) == Some(k) then 1 else 0)
  }

  /** The sum of the factors' weights, accumulated in list order. */
  function SumWeights(factors: seq<RiskFactor>): real {
    if factors == [] then 0.0 else SumWeights(factors[..|factors| - 1]) + factors[|factors| - 1].weight
  }

  lemma AppendWeight(factors: seq<RiskFactor>, f: RiskFactor)
    ensures SumWeights(factors + [f]) == SumWeights(factors) + f.weight
  {
    assert (factors + [f])[..|factors|] == factors;
  }

  lemma AppendFactor(factors: seq<RiskFactor>, f: RiskFactor)
    ensures SumWeights(factors + [f]) == SumWeights(factors) + f.weight
    ensures forall k :: CountKind(factors + [f], k) == CountKind(factors, k) + (if KindOf(f) == Some(k) then 1 else 0)
  {
    assert (factors + [f])[..|factors|] == factors;
  }

  /** `"api" in service or "gateway" in service`. */
  predicate CustomerFacing(service: string) {
    Contains(service, "api") || Contains(service, "gateway")
  }

  predicate BusinessHours(hour: int) {
    9 <= hour <= 17
  }

  /** The history rule: more than ten similar actions with a success rate above 95%. */
  predicate TrustedHistory(similar: SimilarStats) {
    similar.successRate > 0.95 && similar.count > 10
  }

  /**
   * The fallback assessment of `action`: one optional environment factor, one
   * service factor and one time-of-day factor (`hour` is the current UTC hour,
   * `now` the current time), their weights summed into the score, the score
   * mapped to a level and a recommendation, and the history rule applied.
   */
  method FallbackAssessment(action: ActionDeclaration, similar: SimilarStats, hour: int, now: string)
    returns (r: RiskAssessment)
    ensures r.actionId == action.actionId && r.timestamp == now
    ensures r.similarActions == similar && r.confidence == 0.75
    ensures r.riskScore == SumWeights(r.riskFactors)
    ensures 0.15 <= r.riskScore <= 0.85
    ensures CountKind(r.riskFactors, Service) == 1 && CountKind(r.riskFactors, TimeOfDay) == 1
    ensures var env := LookupOr(action.context, "namespace", "unknown");
            CountKind(r.riskFactors, Environment) == if env == "production" || env == "staging" then 1 else 0
    ensures |r.riskFactors| == 2 + CountKind(r.riskFactors, Environment)
    ensures var n := |r.riskFactors|;
            && (r.riskFactors[n - 2].factor == "customer_facing_service" <==> CustomerFacing(LookupOr(action.context, "service", "unknown")))
            && (r.riskFactors[n - 1].factor == "business_hours" <==> BusinessHours(hour))
    ensures r.riskLevel == "high" <==> r.riskScore >= 0.7
    ensures r.riskLevel == "medium" <==> 0.3 <= r.riskScore < 0.7
    ensures r.riskLevel == "low" <==> r.riskScore < 0.3
    ensures r.recommendation == AutoApprove || r.recommendation == HumanReview
    ensures r.recommendation == AutoApprove <==>
              r.riskLevel == "low" || (r.riskLevel == "medium" && TrustedHistory(similar))
  {
    var factors, total := CollectFactors(action.context, hour);
    FactorRules(LookupOr(action.context, "namespace", "unknown"), LookupOr(action.context, "service", "unknown"), hour);
    var level, recommendation := Decide(total, similar);
    r := RiskAssessment(action.actionId, now, total, level, factors, similar, recommendation, 0.75);
  }

  /** The environment rule: a factor for production or staging, none otherwise. */
  function EnvironmentFactors(env: string): (fs: seq<RiskFactor>)
    ensures |fs| <= 1
    ensures |fs| == 1 <==> env == "production" || env == "staging"
    ensures forall i :: 0 <= i < |fs| ==> KindOf(fs[i]) == Some(Environment)
    ensures 0.0 <= SumWeights(fs) <= 0.4
    ensures SumWeights(fs) == 0.4 <==> env == "production"
  {
    if env == "production" then [RiskFactor("production_environment", "high", 0.4, "Action affects production environment")]
    else if env == "staging" then [RiskFactor("staging_environment", "low", 0.1, "Action affects staging environment")]
    else []
  }

  /** The service rule: customer-facing services weigh 0.3, internal ones 0.1. */
  function ServiceFactor(service: string): (f: RiskFactor)
    ensures KindOf(f) == Some(Service)
    ensures 0.1 <= f.weight <= 0.3
    ensures f.weight == 0.3 <==> CustomerFacing(service)
    ensures f.severity == "high" <==> CustomerFacing(service)
  {
    if CustomerFacing(service) then RiskFactor("customer_facing_service", "high", 0.3, "Service directly impacts customers")
    else RiskFactor("internal_service", "low", 0.1, "Internal service with limited user impact")
  }

  /** The time-of-day rule: business hours weigh 0.15, other hours 0.05. */
  function TimeFactor(hour: int): (f: RiskFactor)
    ensures KindOf(f) == Some(TimeOfDay)
    ensures 0.05 <= f.weight <= 0.15
    ensures f.weight == 0.15 <==> BusinessHours(hour)
  {
    if BusinessHours(hour) then RiskFactor("business_hours", "medium", 0.15, "Action during peak business hours")
    else RiskFactor("off_hours", "low", 0.05, "Action during low-traffic period")
  }

  /** The three factor rules of the fallback scorer, applied in order, and the running total of their weights. */
  /** Factor 1: the environment rule, appended to no factors yet. */
  method EnvironmentStage(env: string) returns (factors: seq<RiskFactor>, total: real)
    ensures factors == EnvironmentFactors(env)
    ensures total == SumWeights(factors)
  {
    factors := [];
    total := 0.0;
    if env == "production" {
      var f := RiskFactor("production_environment", "high", 0.4, "Action affects production environment");
      AppendWeight(factors, f);
      factors := factors + [f];
      total := total + 0.4;
    } else if env == "staging" {
      var f := RiskFactor("staging_environment", "low", 0.1, "Action affects staging environment");
      AppendWeight(factors, f);
      factors := factors + [f];
      total := total + 0.1;
    }
  }

  /** Factor 2: the service rule, appended to the factors collected so far. */
  method ServiceStage(service: string, before: seq<RiskFactor>, sum: real) returns (factors: seq<RiskFactor>, total: real)
    requires sum == SumWeights(before)
    ensures factors == before + [ServiceFactor(service)]
    ensures total == SumWeights(factors)
  {
    var f;
    if CustomerFacing(service) {
      f := RiskFactor("customer_facing_service", "high", 0.3, "Service directly impacts customers");
      total := sum + 0.3;
    } else {
      f := RiskFactor("internal_service", "low", 0.1, "Internal service with limited user impact");
      total := sum + 0.1;
    }
    AppendWeight(before, f);
    factors := before + [f];
  }

  /** Factor 3: the time-of-day rule, appended to the factors collected so far. */
  method TimeStage(hour: int, before: seq<RiskFactor>, sum: real) returns (factors: seq<RiskFactor>, total: real)
    requires sum == SumWeights(before)
    ensures factors == before + [TimeFactor(hour)]
    ensures total == SumWeights(factors)
  {
    var f;
    if BusinessHours(hour) {
      f := RiskFactor("business_hours", "medium", 0.15, "Action during peak business hours");
      total := sum + 0.15;
    } else {
      f := RiskFactor("off_hours", "low", 0.05, "Action during low-traffic period");
      total := sum + 0.05;
    }
    AppendWeight(before, f);
    factors := before + [f];
  }

  /** The three rules in the order the fallback applies them. */
  method CollectFactors(context: Context, hour: int) returns (factors: seq<RiskFactor>, total: real)
    ensures factors == EnvironmentFactors(LookupOr(context, "namespace", "unknown"))
                       + [ServiceFactor(LookupOr(context, "service", "unknown"))] + [TimeFactor(hour)]
    ensures total == SumWeights(factors)
  {
    factors, total := EnvironmentStage(LookupOr(context, "namespace", "unknown"));
    factors, total := ServiceStage(LookupOr(context, "service", "unknown"), factors, total);
    factors, total := TimeStage(hour, factors, total);
  }

  /** What the three rules produce together: the counts per family, the positions and the range of the score. */
  lemma FactorRules(env: string, service: string, hour: int)
    ensures var fs := EnvironmentFactors(env) + [ServiceFactor(service)] + [TimeFactor(hour)];
      && 0.15 <= SumWeights(fs) <= 0.85
      && CountKind(fs, Service) == 1 && CountKind(fs, TimeOfDay) == 1
      && CountKind(fs, Environment) == (if env == "production" || env == "staging" then 1 else 0)
      && |fs| == 2 + CountKind(fs, Environment)
      && (fs[|fs| - 2].factor == "customer_facing_service" <==> CustomerFacing(service))
      && (fs[|fs| - 1].factor == "business_hours" <==> BusinessHours(hour))
  {
    var e := EnvironmentFactors(env);
    AppendFactor(e, ServiceFactor(service));
    AppendFactor(e + [ServiceFactor(service)], TimeFactor(hour));
  }

  /** The score's level, the recommendation for it, and the history rule that may relax it. */
  method Decide(total: real, similar: SimilarStats) returns (level: string, recommendation: string)
    ensures level == "high" <==> total >= 0.7
    ensures level == "medium" <==> 0.3 <= total < 0.7
    ensures level == "low" <==> total < 0.3
    ensures recommendation == AutoApprove || recommendation == HumanReview
    ensures recommendation == AutoApprove <==> level == "low" || (level == "medium" && TrustedHistory(similar))
  {
    if total >= 0.7 {
      level := "high";
    } else if total >= 0.3 {
      level := "medium";
    } else {
      level := "low";
    }

    if level == "high" || total > 0.6 {
      recommendation := HumanReview;
    } else if level == "low" && total < 0.3 {
      recommendation := AutoApprove;
    } else {
      recommendation := HumanReview;
    }

    if TrustedHistory(similar) {
      if recommendation == HumanReview && level == "medium" {
        recommendation := AutoApprove;
      }
    }
  }

  /**
   * The reply clean-up as a function: strip the reply; when it opens with a
   * code fence keep the text up to the next fence, drop a leading `json` tag
   * and strip again.
   */
  function Unfenced(reply: string): (r: string)
    ensures Stripped(r)
    ensures FenceAt(Strip(reply), 0) ==> NoFence(r)
    ensures !FenceAt(Strip(reply), 0) ==> r == Strip(reply)
  {
    var content := Strip(reply);
    if FenceAt(content, 0) then
      var inner := UntilFence(content[3..]);
      var untagged := if StartsWith(inner, "json") then inner[4..] else inner;
      NoFenceInSlice(inner, if StartsWith(inner, "json") then 4 else 0);
      StripKeepsNoFence(untagged);
      Strip(untagged)
    else content
  }

  lemma NoFenceInSlice(s: string, k: nat)
    requires NoFence(s) && k <= |s|
    ensures NoFence(s[k..])
  {
    forall i | 0 <= i < |s[k..]| ensures !FenceAt(s[k..], i) {
      assert FenceAt(s[k..], i) ==> FenceAt(s, k + i);
    }
  }

  lemma StripKeepsNoFence(s: string)
    requires NoFence(s)
    ensures NoFence(Strip(s))
  {
    var t := TrimStart(s);
    NoFenceInSlice(s, |s| - |t|);
    var u := TrimEnd(t);
    forall i | 0 <= i < |u| ensures !FenceAt(u, i) {
      assert FenceAt(u, i) ==> FenceAt(t, i);
    }
  }

  /** The reply clean-up as the source runs it, reassigning `content` step by step. */
  method StripFences(reply: string) returns (content: string)
    ensures content == Unfenced(reply)
  {
    content := Strip(reply);
    if FenceAt(content, 0) {
      content := UntilFence(content[3..]);
      if StartsWith(content, "json") {
        content := content[4..];
      }
      content := Strip(content);
    }
  }

  /** A reply without a fence comes back with only its surrounding whitespace removed. */
  lemma PlainReply(lead: string, body: string, trail: string)
    requires AllSpace(lead) && AllSpace(trail) && Stripped(body) && !FenceAt(body, 0)
    ensures Unfenced(lead + body + trail) == body
  {
    StripPadded(lead, body, trail);
  }

  /**
   * A reply of the form "```json", the body, the closing fence and anything
   * after it (with whitespace anywhere in between) gives back exactly the body.
   */
  lemma FencedReply(lead: string, gap: string, body: string, trail: string, rest: string)
    requires AllSpace(lead) && AllSpace(gap) && AllSpace(trail)
    requires Stripped(body) && NoFence(body) && (body == [] || body[|body| - 1] != '`')
    ensures Unfenced(lead + "```" + ("json" + gap + body + trail) + "```" + rest) == body
  {
    var x := "json" + gap + body + trail;
    XNoFence(gap, body, trail);
    JsonTagged(gap + body + trail);
    assert x == "json" + (gap + body + trail);
    FencedShape(lead, x, rest);
    StripPadded(gap, body, trail);
  }

  lemma JsonTagged(t: string)
    ensures ("json" + t)[..4] == "json" && ("json" + t)[4..] == t
  {
  }

  /** A fenced reply whose fenced text starts with `json` gives back the rest of that text, stripped. */
  lemma FencedShape(lead: string, x: string, rest: string)
    requires AllSpace(lead) && NoFence(x) && |x| >= 4 && x[..4] == "json" && x[|x| - 1] != '`'
    ensures Unfenced(lead + "```" + x + "```" + rest) == Strip(x[4..])
  {
    FencedText(lead, x, rest);
    UnfencedVia(lead + "```" + x + "```" + rest, x);
  }

  /**
   * A reply whose fenced text carries no `json` tag (such as a bare fence
   * around the JSON) gives back that text, stripped.
   */
  lemma UntaggedReply(lead: string, x: string, rest: string)
    requires AllSpace(lead) && NoFence(x) && (x == [] || x[|x| - 1] != '`') && !StartsWith(x, "json")
    ensures Unfenced(lead + "```" + x + "```" + rest) == Strip(x)
  {
    FencedText(lead, x, rest);
    UntaggedVia(lead + "```" + x + "```" + rest, x);
  }

  /** The stripped reply opens with a fence, and the text up to the next fence is `x`. */
  lemma FencedText(lead: string, x: string, rest: string)
    requires AllSpace(lead) && NoFence(x) && (x == [] || x[|x| - 1] != '`')
    ensures var s := Strip(lead + "```" + x + "```" + rest); FenceAt(s, 0) && UntilFence(s[3..]) == x
  {
    var rest' := StripFencedText(lead, x, rest);
    FenceTail(x, rest');
    UntilFenceStops(x, rest');
  }

  lemma UntaggedVia(reply: string, x: string)
    requires FenceAt(Strip(reply), 0) && UntilFence(Strip(reply)[3..]) == x && !StartsWith(x, "json")
    ensures Unfenced(reply) == Strip(x)
  {
  }

  lemma FenceTail(x: string, tail: string)
    ensures FenceAt("```" + x + "```" + tail, 0)
    ensures ("```" + x + "```" + tail)[3..] == x + "```" + tail
  {
    var c := "```" + x + "```" + tail;
    assert c == "```" + (x + "```" + tail);
  }

  /** The clean-up of a reply whose stripped form opens with a fence and holds `x` up to the next one. */
  lemma UnfencedVia(reply: string, x: string)
    requires FenceAt(Strip(reply), 0) && UntilFence(Strip(reply)[3..]) == x && StartsWith(x, "json")
    ensures Unfenced(reply) == Strip(x[4..])
  {
  }

  /** Stripping a text that opens with a fence and contains a second one keeps both fences. */
  lemma StripFencedText(lead: string, x: string, rest: string) returns (rest': string)
    requires AllSpace(lead)
    ensures Strip(lead + "```" + x + "```" + rest) == "```" + x + "```" + rest'
  {
    var s := lead + "```" + x + "```" + rest;
    var tail := x + "```" + rest;
    assert s == lead + "```" + tail;
    LeadingFence(lead, tail);
    assert TrimStart(s) == "```" + x + "```" + rest;
    rest' := TrailingFence(x, rest);
    assert Strip(s) == TrimEnd(TrimStart(s));
  }

  lemma LeadingFence(lead: string, tail: string)
    requires AllSpace(lead)
    ensures TrimStart(lead + "```" + tail) == "```" + tail
  {
    var fenced := "```" + tail;
    assert lead + "```" + tail == lead + fenced;
    assert fenced[0] == '`';
    TrimStartPadded(lead, fenced);
  }

  lemma TrailingFence(x: string, rest: string) returns (rest': string)
    ensures TrimEnd("```" + x + "```" + rest) == "```" + x + "```" + rest'
  {
    var fenced := "```" + x + "```" + rest;
    var r := TrimEnd(fenced);
    var close := |x| + 5;
    assert fenced[close] == '`';
    assert |r| > close;
    rest' := r[close + 1..];
    assert r[..close + 1] == fenced[..close + 1] == "```" + x + "```";
    assert r == r[..close + 1] + rest';
  }
  /** No fence occurs in `json`, the whitespace, and a fence-free body not ending in a backtick. */
  lemma XNoFence(gap: string, body: string, trail: string)
    requires AllSpace(gap) && AllSpace(trail)
    requires NoFence(body) && (body == [] || body[|body| - 1] != '`')
    ensures var x := "json" + gap + body + trail; NoFence(x) && (x[|x| - 1] != '`')
  {
    var x := "json" + gap + body + trail;
    var b := 4 + |gap|;
    var e := b + |body|;
    assert forall i :: 0 <= i < b ==> x[i] != '`' by {
      forall i | 0 <= i < b ensures x[i] != '`' {
        if i >= 4 { assert x[i] == gap[i - 4]; }
      }
    }
    assert forall i :: e <= i < |x| ==> x[i] != '`' by {
      forall i | e <= i < |x| ensures x[i] != '`' {
        assert x[i] == trail[i - e];
      }
    }
    assert forall i :: b <= i < e ==> x[i] == body[i - b];
    forall i | 0 <= i < |x| ensures !FenceAt(x, i) {
      if FenceAt(x, i) {
        assert b <= i && i + 2 < e;
        assert FenceAt(body, i - b);
      }
    }
  }
}

/** The recommendation builder (`build_recs`): one savings line per service
    with a positive savings fraction and a positive cost, in cost-map order,
    followed by up to three fixed advisories in the order data transfer,
    storage, compute. Lines are structured values instead of formatted text. */
module Advisor {
  import opened CostMaps
  import opened Catalog

  datatype Rec =
    | Savings(service: Label, amount: real, percent: int)
    | DTAdvice   // data transfer: CloudFront, VPC endpoints, less cross-AZ/region traffic
    | S3Advice   // storage: lifecycle to IA/Glacier, compress small objects
    | EC2Advice  // compute: rightsizing, modern families, stop non-prod off-hours

  /** An entry earns a savings line when its service has a positive fraction
      and its cost is positive. */
  predicate Qualifies(e: (Label, real))
  {
    SavingsFraction(e.0) > 0.0 && e.1 > 0.0
  }

  /** The savings line of one entry: cost times fraction, and the fraction
      as a whole percent (`int(pct*100)`, which truncates). */
  function SavingsFor(e: (Label, real)): (r: Rec)
    ensures r.Savings? && r.service == e.0
    ensures 0 <= r.percent < 100
    ensures r.percent as real <= SavingsFraction(e.0) * 100.0 < r.percent as real + 1.0
  {
    var f := SavingsFraction(e.0);
    Savings(e.0, e.1 * f, (f * 100.0).Floor)
  }

  /** The lines the loop over the cost map emits, built prefix by prefix. */
  function SavingsRecs(c: CostMap): seq<Rec>
  {
    if c == [] then []
    else
      var last := c[|c| - 1];
      SavingsRecs(c[..|c| - 1]) + (if Qualifies(last) then [SavingsFor(last)] else [])
  }

  /** The positions of the entries that earn a savings line, in order. */
  function QualifyingIndices(c: CostMap): (ix: seq<nat>)
    ensures forall p :: 0 <= p < |ix| ==> ix[p] < |c|
  {
    if c == [] then []
    else
      QualifyingIndices(c[..|c| - 1]) + (if Qualifies(c[|c| - 1]) then [|c| - 1] else [])
  }

  /** The three conditional appends after the loop: `"DT" in costs and
      costs["DT"] > 0`, `costs.get("S3", 0) > 0`, `costs.get("EC2", 0) > 0`. */
  function Advisories(c: CostMap): seq<Rec>
  {
    (if "DT" in Keys(c) && Lookup(c, "DT").value > 0.0 then [DTAdvice] else [])
    + (if GetOr(c, "S3", 0.0) > 0.0 then [S3Advice] else [])
    + (if GetOr(c, "EC2", 0.0) > 0.0 then [EC2Advice] else [])
  }

  /** What `build_recs(costs)` returns. */
  function Recommendations(c: CostMap): seq<Rec>
  {
    SavingsRecs(c) + Advisories(c)
  }

  /** Position of an advisory in the fixed order DT, S3, EC2. */
  function AdviceRank(r: Rec): int
  {
    match r
    case Savings(_, _, _) => -1
    case DTAdvice => 0
    case S3Advice => 1
    case EC2Advice => 2
  }

  /** `build_recs`: a loop over the cost map appending to a list, then the
      three conditional appends. `costs` is a value and is only read. */
  method BuildRecs(costs: CostMap) returns (recs: seq<Rec>)
    ensures recs == Recommendations(costs)
  {
    recs := [];
    for i := 0 to |costs|
      invariant recs == SavingsRecs(costs[..i])
    {
      var svc, cost := costs[i].0, costs[i].1;
      var pct := SavingsFraction(svc);
      if pct > 0.0 && cost > 0.0 {
        recs := recs + [Savings(svc, cost * pct, (pct * 100.0).Floor)];
      }
      assert costs[..i + 1][..i] == costs[..i];
    }
    assert costs[..|costs|] == costs;
    if "DT" in Keys(costs) && Lookup(costs, "DT").value > 0.0 {
      recs := recs + [DTAdvice];
    }
    if GetOr(costs, "S3", 0.0) > 0.0 {
      recs := recs + [S3Advice];
    }
    if GetOr(costs, "EC2", 0.0) > 0.0 {
      recs := recs + [EC2Advice];
    }
  }

  /** The p-th savings line comes from the p-th qualifying entry. */
  lemma {:induction false} SavingsFollowCostOrder(c: CostMap)
    ensures |SavingsRecs(c)| == |QualifyingIndices(c)|
    ensures forall p :: 0 <= p < |SavingsRecs(c)| ==>
      SavingsRecs(c)[p] == SavingsFor(c[QualifyingIndices(c)[p]])
  {
    if c != [] {
      var init := c[..|c| - 1];
      SavingsFollowCostOrder(init);
      forall p | 0 <= p < |QualifyingIndices(init)|
        ensures c[QualifyingIndices(init)[p]] == init[QualifyingIndices(init)[p]]
      {
      }
    }
  }

  /** The qualifying positions are strictly increasing and are exactly the
      positions of entries that qualify. */
  lemma {:induction false} QualifyingIndicesExact(c: CostMap)
    ensures forall p, q :: 0 <= p < q < |QualifyingIndices(c)| ==>
      QualifyingIndices(c)[p] < QualifyingIndices(c)[q]
    ensures forall i :: 0 <= i < |c| ==> (i in QualifyingIndices(c) <==> Qualifies(c[i]))
  {
    if c != [] {
      var init := c[..|c| - 1];
      QualifyingIndicesExact(init);
      forall i | 0 <= i < |init| ensures init[i] == c[i] {}
    }
  }

  /** Every line of the loop is a savings line; no advisory is one. */
  lemma SavingsAreSavings(c: CostMap)
    ensures forall p :: 0 <= p < |SavingsRecs(c)| ==> SavingsRecs(c)[p].Savings?
    ensures forall p :: 0 <= p < |Advisories(c)| ==> !Advisories(c)[p].Savings?
  {
  }

  /** A savings line for `svc` appears exactly when some entry for `svc` has
      a positive savings fraction and a positive cost. */
  lemma SavingsIff(c: CostMap, svc: Label)
    ensures (exists p :: 0 <= p < |Recommendations(c)| && Recommendations(c)[p].Savings?
                         && Recommendations(c)[p].service == svc)
        <==> (exists i :: 0 <= i < |c| && c[i].0 == svc && Qualifies(c[i]))
  {
    var recs, s, ix := Recommendations(c), SavingsRecs(c), QualifyingIndices(c);
    SavingsFollowCostOrder(c);
    QualifyingIndicesExact(c);
    SavingsAreSavings(c);
    if p :| 0 <= p < |recs| && recs[p].Savings? && recs[p].service == svc {
      assert p < |s|;
      assert recs[p] == s[p] == SavingsFor(c[ix[p]]);
      assert ix[p] in ix;
      assert c[ix[p]].0 == svc && Qualifies(c[ix[p]]);
    }
    if i :| 0 <= i < |c| && c[i].0 == svc && Qualifies(c[i]) {
      assert i in ix;
      var p :| 0 <= p < |ix| && ix[p] == i;
      assert recs[p] == s[p] == SavingsFor(c[i]);
    }
  }

  /** A service the savings table does not list never gets a savings line. */
  lemma NoSavingsForUnlistedService(c: CostMap, svc: Label)
    requires SavingsFraction(svc) == 0.0
    ensures forall r :: r in Recommendations(c) ==> !(r.Savings? && r.service == svc)
  {
    SavingsIff(c, svc);
  }

  /** All savings lines come before any advisory, and the advisories keep the
      order DT, S3, EC2. */
  lemma SavingsBeforeAdvisories(c: CostMap)
    ensures forall p, q :: 0 <= p < q < |Recommendations(c)| && Recommendations(c)[q].Savings?
              ==> Recommendations(c)[p].Savings?
    ensures forall p, q :: 0 <= p < q < |Recommendations(c)| && !Recommendations(c)[p].Savings?
              ==> AdviceRank(Recommendations(c)[p]) < AdviceRank(Recommendations(c)[q])
  {
    SavingsAreSavings(c);
  }

  /** In a dict, each advisory appears exactly when its key is present with a
      positive cost. */
  lemma AdvisoriesIff(c: CostMap)
    requires UniqueKeys(c)
    ensures DTAdvice in Recommendations(c) <==> exists i :: 0 <= i < |c| && c[i].0 == "DT" && c[i].1 > 0.0
    ensures S3Advice in Recommendations(c) <==> exists i :: 0 <= i < |c| && c[i].0 == "S3" && c[i].1 > 0.0
    ensures EC2Advice in Recommendations(c) <==> exists i :: 0 <= i < |c| && c[i].0 == "EC2" && c[i].1 > 0.0
  {
    SavingsAreSavings(c);
    var s, a := SavingsRecs(c), Advisories(c);
    assert DTAdvice !in s && S3Advice !in s && EC2Advice !in s;
    assert DTAdvice in Recommendations(c) <==> DTAdvice in a;
    assert S3Advice in Recommendations(c) <==> S3Advice in a;
    assert EC2Advice in Recommendations(c) <==> EC2Advice in a;
    PositiveCostIff(c, "DT");
    PositiveCostIff(c, "S3");
    PositiveCostIff(c, "EC2");
  }

  /** The list holds one line per qualifying entry plus at most three
      advisories, so never more than three lines beyond the size of the map. */
  lemma RecommendationCount(c: CostMap)
    ensures |Recommendations(c)| == |QualifyingIndices(c)| + |Advisories(c)|
    ensures |Advisories(c)| <= 3
    ensures |Recommendations(c)| <= |c| + 3
  {
    SavingsFollowCostOrder(c);
    QualifyingIndicesExact(c);
    QualifyingIndicesBound(c);
  }

  /** There are no more qualifying positions than entries. */
  lemma {:induction false} QualifyingIndicesBound(c: CostMap)
    ensures |QualifyingIndices(c)| <= |c|
  {
    if c != [] {
      QualifyingIndicesBound(c[..|c| - 1]);
    }
  }
}

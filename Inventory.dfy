/** The inventory responder: resolve the requested scenario name, copy its
    resource counts, jitter each base cost by its own random multiplier
    (floored at zero) and derive the recommendations from the jittered costs.
    The multipliers, drawn uniformly from [0.97, 1.06] in iteration order, are
    a parameter. */
module Inventory {
  import opened CostMaps
  import opened Catalog
  import opened Advisor

  datatype Response = Response(
    ec2Instances: nat,
    rdsInstances: nat,
    s3Buckets: nat,
    costs: CostMap,
    recommendations: seq<Rec>,
    scenario: string)

  const MinJitter: real := 0.97
  const MaxJitter: real := 1.06

  predicate KnownName(name: string)
  {
    name == "small" || name == "medium" || name == "large"
  }

  /** A known name stands for itself; anything else silently becomes "small". */
  function Resolve(name: string): (r: string)
    ensures r in Scenarios && KnownName(r)
    ensures KnownName(name) ==> r == name
    ensures !KnownName(name) ==> r == "small"
  {
    if name in Scenarios then name else "small"
  }

  /** `max(0, x * u)`: never negative, and otherwise the product itself. */
  function Jitter(base: real, u: real): (c: real)
    ensures c >= 0.0 && c >= base * u
    ensures c == 0.0 || c == base * u
  {
    if 0.0 >= base * u then 0.0 else base * u
  }

  /** One multiplier per cost entry, each within the jitter range. */
  predicate ValidDraws(draws: seq<real>, n: nat)
  {
    |draws| == n && forall i :: 0 <= i < n ==> MinJitter <= draws[i] <= MaxJitter
  }

  /** The dict comprehension over the base costs: same keys in the same
      order, every value jittered and floored at zero. */
  function JitterCosts(base: CostMap, draws: seq<real>): (r: CostMap)
    requires |draws| == |base|
    ensures Keys(r) == Keys(base)
    ensures forall i :: 0 <= i < |r| ==> r[i].1 >= 0.0
  {
    seq(|base|, i requires 0 <= i < |base| => (base[i].0, Jitter(base[i].1, draws[i])))
  }

  /** The `/inventory` handler without its HTTP layer. */
  function Inventory(name: string, draws: seq<real>): (r: Response)
    requires ValidDraws(draws, |Scenarios[Resolve(name)].costs|)
    ensures KnownName(r.scenario)
    ensures Keys(r.costs) == Keys(Scenarios[r.scenario].costs)
    ensures forall i :: 0 <= i < |r.costs| ==> r.costs[i].1 >= 0.0
  {
    var scenario := Resolve(name);
    var s := Scenarios[scenario];
    var costs := JitterCosts(s.costs, draws);
    Response(s.ec2, s.rds, s.s3, costs, Recommendations(costs), scenario)
  }

  /** For a non-negative base cost, the jittered cost stays within the jitter
      range of the base, and stays positive when the base is positive. */
  lemma JitterBounds(b: real, u: real)
    requires b >= 0.0 && MinJitter <= u <= MaxJitter
    ensures MinJitter * b <= Jitter(b, u) <= MaxJitter * b
    ensures b > 0.0 ==> Jitter(b, u) > 0.0
  {
    var below, above := u - MinJitter, MaxJitter - u;
    assert below >= 0.0 && above >= 0.0;
    assert b * below >= 0.0 && b * above >= 0.0;
    assert b * u == MinJitter * b + b * below == MaxJitter * b - b * above;
  }

  /** The response carries the resolved scenario's counts, its keys in its
      order, and costs within the jitter range of the base costs. */
  lemma InventoryFollowsScenario(name: string, draws: seq<real>)
    requires ValidDraws(draws, |Scenarios[Resolve(name)].costs|)
    ensures var r := Inventory(name, draws);
      var s := Scenarios[Resolve(name)];
      && r.scenario == Resolve(name)
      && r.ec2Instances == s.ec2 && r.rdsInstances == s.rds && r.s3Buckets == s.s3
      && Keys(r.costs) == Keys(s.costs)
      && (forall i :: 0 <= i < |r.costs| ==>
            0.0 < MinJitter * s.costs[i].1 <= r.costs[i].1 <= MaxJitter * s.costs[i].1)
      && r.recommendations == Recommendations(r.costs)
  {
    var s := Scenarios[Resolve(name)];
    ScenariosWellFormed(Resolve(name));
    forall i | 0 <= i < |s.costs| ensures MinJitter * s.costs[i].1 <= Jitter(s.costs[i].1, draws[i]) <= MaxJitter * s.costs[i].1 {
      JitterBounds(s.costs[i].1, draws[i]);
    }
  }

  /** An unknown name gives exactly the response for "small". */
  lemma UnknownNameIsSmall(name: string, draws: seq<real>)
    requires !KnownName(name)
    requires ValidDraws(draws, |Small.costs|)
    ensures Inventory(name, draws) == Inventory("small", draws)
  {
  }

  /** With every cost positive and every service listed in the savings table,
      the loop emits one savings line per entry, in order. */
  lemma {:induction false} AllQualify(c: CostMap)
    requires forall i :: 0 <= i < |c| ==> c[i].1 > 0.0 && SavingsFraction(c[i].0) > 0.0
    ensures SavingsRecs(c) == seq(|c|, i requires 0 <= i < |c| => SavingsFor(c[i]))
  {
    if c != [] {
      AllQualify(c[..|c| - 1]);
    }
  }

  /** "small": 2/1/3 resources, the preset's services in table order, every
      cost positive, and three savings lines, then the storage and
      compute advisories: five lines. */
  lemma SmallInventory(draws: seq<real>)
    requires ValidDraws(draws, 3)
    ensures var r := Inventory("small", draws);
      && r.ec2Instances == 2 && r.rdsInstances == 1 && r.s3Buckets == 3
      && Keys(r.costs) == ["EC2", "RDS", "S3"]
      && (forall i :: 0 <= i < |r.costs| ==> r.costs[i].1 > 0.0)
      && r.recommendations == Recommendations(r.costs)
      && |r.recommendations| == 5
  {
    var r := Inventory("small", draws);
    PresetKeys();
    InventoryFollowsScenario("small", draws);
    SmallLines(r.costs);
  }

  /** The recommendations for positive costs over the "small" services: one
      savings line per service in table order, then the advisories. */
  lemma SmallLines(c: CostMap)
    requires Keys(c) == ["EC2", "RDS", "S3"]
    requires forall i :: 0 <= i < |c| ==> c[i].1 > 0.0
    ensures Recommendations(c) == [
      Savings("EC2", c[0].1 * 0.20, 20), Savings("RDS", c[1].1 * 0.25, 25),
      Savings("S3", c[2].1 * 0.30, 30),
      S3Advice, EC2Advice]
  {
    forall i | 0 <= i < |c| ensures c[i].0 == Keys(c)[i] {}
    PresetLines(c);
    assert Keys(c)[0] == c[0].0 && Keys(c)[1] == c[1].0 && Keys(c)[2] == c[2].0;
    assert SavingsFor(c[0]) == Savings("EC2", c[0].1 * 0.20, 20) by { SavingsForListed(c[0]); }
    assert SavingsFor(c[1]) == Savings("RDS", c[1].1 * 0.25, 25) by { SavingsForListed(c[1]); }
    assert SavingsFor(c[2]) == Savings("S3", c[2].1 * 0.30, 30) by { SavingsForListed(c[2]); }
  }

  /** "medium": 6/3/7 resources, the preset's services in table order, every
      cost positive, and four savings lines (EBS included, no data
      transfer), then the storage and compute advisories: six lines. */
  lemma MediumInventory(draws: seq<real>)
    requires ValidDraws(draws, 4)
    ensures var r := Inventory("medium", draws);
      && r.ec2Instances == 6 && r.rdsInstances == 3 && r.s3Buckets == 7
      && Keys(r.costs) == ["EC2", "RDS", "S3", "EBS"]
      && (forall i :: 0 <= i < |r.costs| ==> r.costs[i].1 > 0.0)
      && r.recommendations == Recommendations(r.costs)
      && |r.recommendations| == 6
  {
    var r := Inventory("medium", draws);
    PresetKeys();
    InventoryFollowsScenario("medium", draws);
    MediumLines(r.costs);
  }

  /** The recommendations for positive costs over the "medium" services: one
      savings line per service in table order, then the advisories. */
  lemma MediumLines(c: CostMap)
    requires Keys(c) == ["EC2", "RDS", "S3", "EBS"]
    requires forall i :: 0 <= i < |c| ==> c[i].1 > 0.0
    ensures Recommendations(c) == [
      Savings("EC2", c[0].1 * 0.20, 20), Savings("RDS", c[1].1 * 0.25, 25),
      Savings("S3", c[2].1 * 0.30, 30), Savings("EBS", c[3].1 * 0.20, 20),
      S3Advice, EC2Advice]
  {
    forall i | 0 <= i < |c| ensures c[i].0 == Keys(c)[i] {}
    PresetLines(c);
    assert Keys(c)[0] == c[0].0 && Keys(c)[1] == c[1].0 && Keys(c)[2] == c[2].0 && Keys(c)[3] == c[3].0;
    assert SavingsFor(c[0]) == Savings("EC2", c[0].1 * 0.20, 20) by { SavingsForListed(c[0]); }
    assert SavingsFor(c[1]) == Savings("RDS", c[1].1 * 0.25, 25) by { SavingsForListed(c[1]); }
    assert SavingsFor(c[2]) == Savings("S3", c[2].1 * 0.30, 30) by { SavingsForListed(c[2]); }
    assert SavingsFor(c[3]) == Savings("EBS", c[3].1 * 0.20, 20) by { SavingsForListed(c[3]); }
  }

  /** "large": 18/6/15 resources, the preset's services in table order, every
      cost positive, and five savings lines, then all three
      advisories: eight lines. */
  lemma LargeInventory(draws: seq<real>)
    requires ValidDraws(draws, 5)
    ensures var r := Inventory("large", draws);
      && r.ec2Instances == 18 && r.rdsInstances == 6 && r.s3Buckets == 15
      && Keys(r.costs) == ["EC2", "RDS", "S3", "EBS", "DT"]
      && (forall i :: 0 <= i < |r.costs| ==> r.costs[i].1 > 0.0)
      && r.recommendations == Recommendations(r.costs)
      && |r.recommendations| == 8
  {
    var r := Inventory("large", draws);
    PresetKeys();
    InventoryFollowsScenario("large", draws);
    LargeLines(r.costs);
  }

  /** The recommendations for positive costs over the "large" services: one
      savings line per service in table order, then the advisories. */
  lemma LargeLines(c: CostMap)
    requires Keys(c) == ["EC2", "RDS", "S3", "EBS", "DT"]
    requires forall i :: 0 <= i < |c| ==> c[i].1 > 0.0
    ensures Recommendations(c) == [
      Savings("EC2", c[0].1 * 0.20, 20), Savings("RDS", c[1].1 * 0.25, 25),
      Savings("S3", c[2].1 * 0.30, 30), Savings("EBS", c[3].1 * 0.20, 20),
      Savings("DT", c[4].1 * 0.15, 15),
      DTAdvice, S3Advice, EC2Advice]
  {
    forall i | 0 <= i < |c| ensures c[i].0 == Keys(c)[i] {}
    PresetLines(c);
    var s := [SavingsFor(c[0]), SavingsFor(c[1]), SavingsFor(c[2]), SavingsFor(c[3]), SavingsFor(c[4])];
    assert Recommendations(c) == s + [DTAdvice, S3Advice, EC2Advice] by {
      assert "DT" in Keys(c) && "S3" in Keys(c) && "EC2" in Keys(c);
      assert seq(|c|, i requires 0 <= i < |c| => SavingsFor(c[i])) == s;
    }
    assert SavingsFor(c[0]) == Savings("EC2", c[0].1 * 0.20, 20) by { SavingsForListed(c[0]); }
    assert SavingsFor(c[1]) == Savings("RDS", c[1].1 * 0.25, 25) by { SavingsForListed(c[1]); }
    assert SavingsFor(c[2]) == Savings("S3", c[2].1 * 0.30, 30) by { SavingsForListed(c[2]); }
    assert SavingsFor(c[3]) == Savings("EBS", c[3].1 * 0.20, 20) by { SavingsForListed(c[3]); }
    assert SavingsFor(c[4]) == Savings("DT", c[4].1 * 0.15, 15) by { SavingsForListed(c[4]); }
  }

  /** A dict of positive costs over listed services gets one savings line per
      entry, then the advisories of the keys it holds. */
  lemma PresetLines(c: CostMap)
    requires forall i :: 0 <= i < |c| ==> c[i].1 > 0.0
    requires forall k :: k in Keys(c) ==> SavingsFraction(k) > 0.0
    requires UniqueKeys(c)
    ensures Recommendations(c) == seq(|c|, i requires 0 <= i < |c| => SavingsFor(c[i])) + (
      (if "DT" in Keys(c) then [DTAdvice] else [])
      + (if "S3" in Keys(c) then [S3Advice] else [])
      + (if "EC2" in Keys(c) then [EC2Advice] else []))
  {
    forall i | 0 <= i < |c| ensures SavingsFraction(c[i].0) > 0.0 {
      assert Keys(c)[i] == c[i].0;
    }
    AllQualify(c);
    AdvisoriesOf(c);
  }

  /** The savings line of each service the table lists. */
  lemma SavingsForListed(e: (Label, real))
    ensures e.0 == "EC2" ==> SavingsFor(e) == Savings("EC2", e.1 * 0.20, 20)
    ensures e.0 == "RDS" ==> SavingsFor(e) == Savings("RDS", e.1 * 0.25, 25)
    ensures e.0 == "S3" ==> SavingsFor(e) == Savings("S3", e.1 * 0.30, 30)
    ensures e.0 == "EBS" ==> SavingsFor(e) == Savings("EBS", e.1 * 0.20, 20)
    ensures e.0 == "DT" ==> SavingsFor(e) == Savings("DT", e.1 * 0.15, 15)
  {
  }

  /** For a dict of positive costs, the advisories are those of the keys it holds. */
  lemma AdvisoriesOf(c: CostMap)
    requires UniqueKeys(c)
    requires forall i :: 0 <= i < |c| ==> c[i].1 > 0.0
    ensures Advisories(c) ==
      (if "DT" in Keys(c) then [DTAdvice] else [])
      + (if "S3" in Keys(c) then [S3Advice] else [])
      + (if "EC2" in Keys(c) then [EC2Advice] else [])
  {
  }
}

/** The two constant tables of the responder: the three scenario presets with
    their resource counts and base monthly costs, and the savings fraction
    per service. Both are built once and never change. */
module Catalog {
  import opened CostMaps

  /** One preset: instance, database and bucket counts and the base costs. */
  datatype Scenario = Scenario(ec2: nat, rds: nat, s3: nat, costs: CostMap)

  const Small := Scenario(2, 1, 3, [("EC2", 28.7), ("RDS", 12.5), ("S3", 4.2)])
  const Medium := Scenario(6, 3, 7, [("EC2", 180.3), ("RDS", 95.4), ("S3", 22.6), ("EBS", 18.0)])
  const Large := Scenario(18, 6, 15, [("EC2", 920.0), ("RDS", 430.0), ("S3", 140.0), ("EBS", 120.0), ("DT", 75.0)])

  const Scenarios: map<string, Scenario> := map["small" := Small, "medium" := Medium, "large" := Large]

  const DefaultSavings: map<Label, real> := map["EC2" := 0.20, "RDS" := 0.25, "S3" := 0.30, "EBS" := 0.20, "DT" := 0.15]

  /** `DEFAULT_SAVINGS.get(svc, 0.0)`: a fraction in [0, 1), zero exactly
      for the services the table does not list. */
  function SavingsFraction(svc: Label): (f: real)
    ensures 0.0 <= f < 1.0
    ensures f == 0.0 <==> !(svc == "EC2" || svc == "RDS" || svc == "S3" || svc == "EBS" || svc == "DT")
  {
    if svc in DefaultSavings then DefaultSavings[svc] else 0.0
  }

  /** Every preset is a well-formed dict of strictly positive costs, and every
      service it lists has a positive savings fraction. */
  lemma ScenariosWellFormed(name: string)
    requires name in Scenarios
    ensures UniqueKeys(Scenarios[name].costs)
    ensures forall i :: 0 <= i < |Scenarios[name].costs| ==> Scenarios[name].costs[i].1 > 0.0
    ensures forall i :: 0 <= i < |Scenarios[name].costs| ==> SavingsFraction(Scenarios[name].costs[i].0) > 0.0
  {
  }

  /** The services each preset lists, in table order. */
  lemma PresetKeys()
    ensures Keys(Small.costs) == ["EC2", "RDS", "S3"]
    ensures Keys(Medium.costs) == ["EC2", "RDS", "S3", "EBS"]
    ensures Keys(Large.costs) == ["EC2", "RDS", "S3", "EBS", "DT"]
  {
  }
}

# InfraStory live demo inventory responder — Dafny model

The repository serves one HTTP endpoint, `GET /inventory?scenario=<name>`. It
returns made-up cloud-inventory figures and canned cost-saving tips for one of
three presets: `small`, `medium` and `large`. This project models the logic
behind that endpoint in `app_backend.py`:

- the two constant tables. `SCENARIOS` gives each preset its EC2, RDS and S3
  counts and its base monthly cost per service. `DEFAULT_SAVINGS` gives the
  savings fraction per service.
- scenario resolution. An unknown name silently becomes `small`.
- the jittered cost map. Each base cost is multiplied by its own random factor
  from [0.97, 1.06] and floored at zero.
- `build_recs`. It emits one savings line per service whose savings fraction is
  positive and whose cost is positive. The lines follow cost-map order. Then it
  appends up to three fixed advisories, in the order data transfer, S3, EC2.
- the assembly of the response.

Modules, one concern each:

- `CostMaps` (CostMaps.dfy): a Python dict keeps insertion order, so the cost
  dict is a sequence of `(label, cost)` pairs. The module also holds the
  dict's `k in d`, `d[k]` and `d.get(k, default)` operations, and
  `UniqueKeys`, which says no key appears twice.
- `Catalog` (Catalog.dfy): the preset table and the savings table, as
  constants.
- `Advisor` (Advisor.dfy): `build_recs`. `BuildRecs` is the imperative loop,
  proved equal to the specification function `Recommendations`. The lemmas
  about `Recommendations` state which lines appear, in what order, and how
  many.
- `Inventory` (Inventory.dfy): resolution, jitter, the response, and the
  outcome of each preset.

Recommendations are structured values, not formatted strings:
`Savings(service, amount, percent) | DTAdvice | S3Advice | EC2Advice`. The
random source is a parameter `draws`. It holds one multiplier per cost entry,
in iteration order, each in [0.97, 1.06].

## Model

| member | source | states |
|---|---|---|
| `CostMaps.Lookup` | app_backend.py:29 | `d[k]` when `k in d`: the result is absent exactly when the key is not among the dict's keys; when present, the dict holds that pair |
| `CostMaps.GetOr` | app_backend.py:31-33 | `d.get(k, default)`: the default when the key is absent, otherwise a value the dict holds under that key |
| `CostMaps.LookupAt` | app_backend.py:29 | in a dict without repeated keys, looking up the i-th key gives the i-th cost |
| `CostMaps.PositiveCostIff` | app_backend.py:29-33 | in a dict, the `k in d and d[k] > 0` test and the `d.get(k, 0) > 0` test each hold exactly when some entry has key k and a positive cost |
| `Catalog.SavingsFraction` | app_backend.py:12 | `DEFAULT_SAVINGS.get(svc, 0.0)` lies in [0, 1) and is zero exactly for services other than EC2, RDS, S3, EBS and DT |
| `Catalog.ScenariosWellFormed` | app_backend.py:7-12 | every preset's cost table has distinct keys and strictly positive costs, and every service it lists has a positive savings fraction |
| `Catalog.PresetKeys` | app_backend.py:8-10 | the services of small, medium and large, in table order: EC2/RDS/S3, then plus EBS, then plus EBS and DT |
| `Advisor.SavingsFor` | app_backend.py:26-28 | a savings line names its service, and its percent is the fraction times 100 truncated to a whole number in [0, 100) |
| `Advisor.BuildRecs` | app_backend.py:23-35 | the loop and the three conditional appends return exactly `Recommendations(costs)`; `costs` is only read |
| `Advisor.SavingsFollowCostOrder` | app_backend.py:25-28 | the p-th savings line is the line of the p-th qualifying cost entry, and there are exactly as many lines as qualifying entries |
| `Advisor.QualifyingIndicesExact` | app_backend.py:25-28 | the qualifying positions are strictly increasing and are exactly the positions whose service has a positive fraction and whose cost is positive |
| `Advisor.SavingsAreSavings` | app_backend.py:25-34 | every line of the loop is a savings line and no advisory is one |
| `Advisor.SavingsIff` | app_backend.py:25-28 | the output holds a savings line for a service exactly when some entry for that service has a positive fraction and a positive cost |
| `Advisor.NoSavingsForUnlistedService` | app_backend.py:26-27 | a service missing from the savings table never gets a savings line |
| `Advisor.SavingsBeforeAdvisories` | app_backend.py:25-34 | every savings line comes before every advisory, and the advisories keep the order DT, S3, EC2 |
| `Advisor.AdvisoriesIff` | app_backend.py:29-34 | in a dict, each of the DT, S3 and EC2 advisories appears exactly when its key is present with a positive cost |
| `Advisor.RecommendationCount` | app_backend.py:23-35 | the number of lines is the number of qualifying entries plus the number of advisories; there are at most three advisories, so at most the map size plus three lines |
| `Advisor.QualifyingIndicesBound` | app_backend.py:25-27 | there are no more qualifying entries than entries |
| `Inventory.Resolve` | app_backend.py:39 | a result that is always small, medium or large; a known name stands for itself and any other string becomes small |
| `Inventory.Jitter` | app_backend.py:41 | `max(0, b*u)`: never negative, at least the product, and either zero or the product |
| `Inventory.JitterCosts` | app_backend.py:41-42 | the jittered map has the base map's keys in the base map's order, and every value is non-negative |
| `Inventory.Inventory` | app_backend.py:38-51 | the response names a known scenario, carries that scenario's keys in order, and has no negative cost |
| `Inventory.JitterBounds` | app_backend.py:41 | for a base cost b ≥ 0 and u in [0.97, 1.06], the jittered cost lies in [0.97·b, 1.06·b], and it is positive when b is positive |
| `Inventory.InventoryFollowsScenario` | app_backend.py:39-51 | the response carries the resolved scenario's counts and its keys in order, each cost lies within the jitter range of its positive base cost, and the recommendations are those of the jittered costs |
| `Inventory.UnknownNameIsSmall` | app_backend.py:39 | an unknown name gives exactly the response for small, with the same draws |
| `Inventory.AllQualify` | app_backend.py:25-28 | when every cost is positive and every service is in the savings table, the loop emits one savings line per entry, in order |
| `Inventory.SmallInventory` | app_backend.py:8 | small: counts 2/1/3, keys EC2/RDS/S3, every cost positive, five lines |
| `Inventory.SmallLines` | app_backend.py:25-34 | positive costs over EC2/RDS/S3 give exactly EC2 20%, RDS 25%, S3 30% savings, then the S3 and EC2 advisories |
| `Inventory.MediumInventory` | app_backend.py:9 | medium: counts 6/3/7, keys EC2/RDS/S3/EBS, every cost positive, six lines |
| `Inventory.MediumLines` | app_backend.py:25-34 | positive costs over EC2/RDS/S3/EBS give exactly four savings lines including EBS 20%, then the S3 and EC2 advisories, with no data-transfer line |
| `Inventory.LargeInventory` | app_backend.py:10 | large: counts 18/6/15, keys EC2/RDS/S3/EBS/DT, every cost positive, eight lines |
| `Inventory.LargeLines` | app_backend.py:25-34 | positive costs over EC2/RDS/S3/EBS/DT give exactly five savings lines, including DT 15%, then the DT, S3 and EC2 advisories |
| `Inventory.PresetLines` | app_backend.py:25-34 | a dict of positive costs over services in the savings table gets one savings line per entry, then the advisories for the keys it holds |
| `Inventory.SavingsForListed` | app_backend.py:12 | the savings line of each listed service, with its fraction and its whole percent: EC2 20, RDS 25, S3 30, EBS 20, DT 15 |
| `Inventory.AdvisoriesOf` | app_backend.py:29-34 | for a dict of positive costs, the advisories are exactly those whose key is present, in the order DT, S3, EC2 |

## Left out

- The FastAPI application, the `/inventory` route binding and the default
  query value `small` are HTTP plumbing. The default is just the name `"small"`
  passed to `Inventory`.
- The pydantic `LiveResponse` class becomes the plain datatype `Response`.
  The validation library is not part of this model.
- The constant disclaimer `note` field carries no behaviour and is not part of
  `Response`.
- `random.uniform` is an entropy source. Its values are the parameter `draws`,
  and `Inventory` requires each one to lie in [0.97, 1.06].
- Inventory.Jitter: `round(…, 2)` is not modelled. Costs are exact reals, so
  `JitterBounds` holds exactly rather than to within two decimals.
- Advisor.SavingsFor: the amount `cost*pct` is an exact real. The `:.2f`
  formatting and the advisory texts are not modelled. A line is a structured
  value.
- Advisor.SavingsFor: `int(pct*100)` truncates a float. The model floors the
  exact product. The two agree for every fraction in the table: 20, 25, 30, 20
  and 15.
- Floating-point arithmetic in general. Every cost and fraction is an exact
  `real`.
- `build_recs` receives the dict by reference. The model passes it as an
  immutable value, so "never modifies `costs`" holds by construction and is not
  stated as a lemma.
- `SCENARIOS[scenario].copy()` makes a shallow copy. Values cannot be aliased
  in the model, so the copy has no counterpart.

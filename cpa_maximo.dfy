/** The "CPA Máximo" calculator: from a product price, a platform fee and a
    list of variable costs it derives the contribution margin and the three
    CPA ceilings (ROI 1, 1.5 and 2).  The page edits its form by building new
    values, so everything here is a function. */
module CpaMaximo {
  import opened Common

  /** One variable-cost line.  `value` is `None` when the stored value does
      not parse as a number; `kind` is the raw `type` string ("fixed" or
      "percentage" from the selector). */
  datatype VariableCost = VariableCost(id: int, name: string, value: Option<real>, kind: string)

  datatype Form = Form(productPrice: real, platformPercentage: real, platformFixed: real,
                       variableCosts: seq<VariableCost>)

  /** The top-level numeric fields `handleChange` is called with. */
  datatype Field = ProductPrice | PlatformPercentage | PlatformFixed

  /** The edits `updateVariableCost` is called with. */
  datatype CostEdit = SetName(name: string) | SetValue(value: real) | SetKind(kind: string)

  datatype Results = Results(
    revenuePerSale: real,
    totalVariableCosts: real,
    contributionMargin: real,
    contributionPercentage: real,
    cpaRoi1: real,
    cpaRoi1_5: real,
    cpaRoi2: real)

  function Get(f: Form, field: Field): real
  {
    match field
    case ProductPrice => f.productPrice
    case PlatformPercentage => f.platformPercentage
    case PlatformFixed => f.platformFixed
  }

  /** `parseFloat(cost.value) || 0`. */
  function NumericOrZero(v: Option<real>): real
  {
    if v.Some? then v.value else 0.0
  }

  /** What one cost line adds to the total: its value when fixed, otherwise
      that percentage of the price. */
  function CostAmount(price: real, c: VariableCost): real
  {
    if c.kind == "fixed" then NumericOrZero(c.value) else price * (NumericOrZero(c.value) / 100.0)
  }

  /** The source's `reduce`: a left fold from an initial accumulator. */
  function FoldCosts(price: real, costs: seq<VariableCost>, acc: real): real
  {
    if costs == [] then acc else FoldCosts(price, costs[1..], acc + CostAmount(price, costs[0]))
  }

  /** Reference sum of the cost lines. */
  function SumCosts(price: real, costs: seq<VariableCost>): real
  {
    if costs == [] then 0.0 else CostAmount(price, costs[0]) + SumCosts(price, costs[1..])
  }

  lemma {:induction false} FoldIsSum(price: real, costs: seq<VariableCost>, acc: real)
    ensures FoldCosts(price, costs, acc) == acc + SumCosts(price, costs)
  {
    if costs != [] {
      FoldIsSum(price, costs[1..], acc + CostAmount(price, costs[0]));
    }
  }

  lemma {:induction false} SumAppend(price: real, a: seq<VariableCost>, b: seq<VariableCost>)
    ensures SumCosts(price, a + b) == SumCosts(price, a) + SumCosts(price, b)
  {
    if a == [] {
      assert a + b == b;
    } else {
      assert (a + b)[1..] == a[1..] + b;
      SumAppend(price, a[1..], b);
    }
  }

  /** Platform fee: the percentage of the price plus the fixed fee. */
  function PlatformFee(f: Form): real
  {
    f.productPrice * (f.platformPercentage / 100.0) + f.platformFixed
  }

  /** `Math.max(0, x)`. */
  function NonNegative(x: real): real
  {
    if x > 0.0 then x else 0.0
  }

  /** The memoised `resultados`. */
  function Compute(f: Form): (r: Results)
    ensures r.revenuePerSale == f.productPrice
    ensures r.totalVariableCosts == PlatformFee(f) + SumCosts(f.productPrice, f.variableCosts)
    ensures r.contributionMargin + r.totalVariableCosts == f.productPrice
    ensures f.productPrice > 0.0 ==> r.contributionPercentage * f.productPrice == r.contributionMargin * 100.0
    ensures f.productPrice <= 0.0 ==> r.contributionPercentage == 0.0
    ensures 0.0 <= r.cpaRoi2 <= r.cpaRoi1_5 <= r.cpaRoi1
    ensures r.contributionMargin <= 0.0 ==> r.cpaRoi1 == 0.0 && r.cpaRoi1_5 == 0.0 && r.cpaRoi2 == 0.0
    ensures r.contributionMargin > 0.0 ==>
              r.cpaRoi1 == r.contributionMargin && r.cpaRoi1_5 * 1.5 == r.contributionMargin
              && r.cpaRoi2 * 2.0 == r.contributionMargin
  {
    var total := FoldCosts(f.productPrice, f.variableCosts, PlatformFee(f));
    FoldIsSum(f.productPrice, f.variableCosts, PlatformFee(f));
    var margin := f.productPrice - total;
    Results(
      f.productPrice,
      total,
      margin,
      if f.productPrice > 0.0 then (margin / f.productPrice) * 100.0 else 0.0,
      NonNegative(margin),
      NonNegative(margin / 1.5),
      NonNegative(margin / 2.0))
  }

  /** `handleChange`: replaces one top-level field. */
  function HandleChange(f: Form, field: Field, v: real): (r: Form)
    ensures Get(r, field) == v
    ensures forall g :: g != field ==> Get(r, g) == Get(f, g)
    ensures r.variableCosts == f.variableCosts
  {
    match field
    case ProductPrice => f.(productPrice := v)
    case PlatformPercentage => f.(platformPercentage := v)
    case PlatformFixed => f.(platformFixed := v)
  }

  /** `addVariableCost`: appends a blank fixed cost with the given fresh id
      (the source uses `Date.now()`). */
  function AddVariableCost(f: Form, newId: int): (r: Form)
    ensures |r.variableCosts| == |f.variableCosts| + 1
    ensures r.variableCosts[..|f.variableCosts|] == f.variableCosts
    ensures r.variableCosts[|f.variableCosts|] == VariableCost(newId, "", Some(0.0), "fixed")
    ensures r.productPrice == f.productPrice && r.platformPercentage == f.platformPercentage
    ensures r.platformFixed == f.platformFixed
  {
    f.(variableCosts := f.variableCosts + [VariableCost(newId, "", Some(0.0), "fixed")])
  }

  /** A blank cost line adds nothing: every result is unchanged. */
  lemma AddVariableCostKeepsResults(f: Form, newId: int)
    ensures Compute(AddVariableCost(f, newId)) == Compute(f)
  {
    var blank := VariableCost(newId, "", Some(0.0), "fixed");
    SumAppend(f.productPrice, f.variableCosts, [blank]);
    assert SumCosts(f.productPrice, [blank]) == 0.0;
  }

  /** The key `removeVariableCost` filters on. */
  function CostId(c: VariableCost): int
  {
    c.id
  }

  /** The lines that do carry the id. */
  function WithId(costs: seq<VariableCost>, id: int): seq<VariableCost>
  {
    if costs == [] then []
    else if costs[0].id == id then [costs[0]] + WithId(costs[1..], id)
    else WithId(costs[1..], id)
  }

  /** Removing a line takes exactly its amount off the total: the kept and
      the removed lines partition the cost list. */
  lemma {:induction false} RemovePartitionsTotal(price: real, costs: seq<VariableCost>, id: int)
    ensures SumCosts(price, costs) == SumCosts(price, WithoutId(costs, CostId, id)) + SumCosts(price, WithId(costs, id))
    ensures |WithoutId(costs, CostId, id)| + |WithId(costs, id)| == |costs|
  {
    if costs != [] {
      RemovePartitionsTotal(price, costs[1..], id);
      if costs[0].id == id {
        assert [costs[0]] + WithId(costs[1..], id) == WithId(costs, id);
      }
    }
  }

  /** `removeVariableCost`. */
  function RemoveVariableCost(f: Form, id: int): (r: Form)
    ensures r.variableCosts == WithoutId(f.variableCosts, CostId, id)
    ensures r.productPrice == f.productPrice && r.platformPercentage == f.platformPercentage
    ensures r.platformFixed == f.platformFixed
  {
    f.(variableCosts := WithoutId(f.variableCosts, CostId, id))
  }

  /** `{ ...cost, [field]: value }`: only the named field changes. */
  function ApplyEdit(c: VariableCost, e: CostEdit): (r: VariableCost)
    ensures r.id == c.id
    ensures r.name == (if e.SetName? then e.name else c.name)
    ensures r.value == (if e.SetValue? then Some(e.value) else c.value)
    ensures r.kind == (if e.SetKind? then e.kind else c.kind)
  {
    match e
    case SetName(n) => c.(name := n)
    case SetValue(v) => c.(value := Some(v))
    case SetKind(k) => c.(kind := k)
  }

  /** The `map` in `updateVariableCost`. */
  function UpdateCosts(costs: seq<VariableCost>, id: int, e: CostEdit): (r: seq<VariableCost>)
    ensures |r| == |costs|
    ensures forall i :: 0 <= i < |costs| ==>
              r[i] == if costs[i].id == id then ApplyEdit(costs[i], e) else costs[i]
  {
    if costs == [] then []
    else [if costs[0].id == id then ApplyEdit(costs[0], e) else costs[0]] + UpdateCosts(costs[1..], id, e)
  }

  /** `updateVariableCost`. */
  function UpdateVariableCost(f: Form, id: int, e: CostEdit): (r: Form)
    ensures r.variableCosts == UpdateCosts(f.variableCosts, id, e)
    ensures r.productPrice == f.productPrice && r.platformPercentage == f.platformPercentage
    ensures r.platformFixed == f.platformFixed
  {
    f.(variableCosts := UpdateCosts(f.variableCosts, id, e))
  }

  /** The page's default form. */
  function Defaults(): Form
  {
    Form(197.0, 6.99, 2.50, [VariableCost(1, "Impostos", Some(10.0), "percentage")])
  }

  /** The defaults give the exact ceilings 161.0297, 161.0297 / 1.5 and
      80.51485 (the page shows them rounded to cents). */
  lemma DefaultsCeilings()
    ensures Compute(Defaults()).contributionMargin == 161.0297
    ensures Compute(Defaults()).cpaRoi1 == 161.0297
    ensures Compute(Defaults()).cpaRoi1_5 * 1.5 == 161.0297
    ensures Compute(Defaults()).cpaRoi2 == 80.51485
  {
    var f := Defaults();
    assert SumCosts(f.productPrice, f.variableCosts) == 19.7;
  }
}

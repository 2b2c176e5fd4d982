/** The admin inventory table: the low-stock highlight, the cost of each product
    (a combo's cost computed from its components), the combo breakdown rows and the
    margin guard. */
module Inventory {
  import opened Base
  import opened DataContext
  import CashierPOS

  /** Rows are highlighted below 25 units. */
  predicate IsLowStockRow(p: Product)
  {
    p.stock < 25
  }

  /** `comp.qty || 1`: a zero quantity counts as one. */
  function QtyOrOne(qty: int): (r: int)
    ensures r != 0 && (qty != 0 ==> r == qty)
  {
    if qty == 0 then 1 else qty
  }

  /** `(base.cost || 0)` of the component's base product, 0 when it is not listed. */
  function BaseCost(products: seq<Product>, comp: Component): int
  {
    match Find(products, CashierPOS.ProductIdIs(comp.productId))
    case Some(p) => p.cost
    case None => 0
  }

  /** The cost one component contributes. */
  function RowCost(products: seq<Product>): Component -> int
  {
    (comp: Component) => BaseCost(products, comp) * QtyOrOne(comp.qty)
  }

  /** `computedCost`: the sum over a combo's components when the product has a
      combo definition, else the product's own cost. */
  function ComputedCost(combos: seq<Combo>, products: seq<Product>, p: Product): (r: int)
    ensures (forall c :: c in combos ==> c.productId != p.id) ==> r == p.cost
    ensures (exists c :: c in combos && c.productId == p.id) ==>
      r == Sum(combos[FirstIndex(combos, CashierPOS.ComboFor(p.id))].components, RowCost(products))
  {
    match Find(combos, CashierPOS.ComboFor(p.id))
    case Some(c) => Sum(c.components, RowCost(products))
    case None => p.cost
  }

  /** One line of the breakdown: the base product's name (or 'Unknown'), the
      quantity as written and the component's cost. */
  datatype BreakdownRow = BreakdownRow(name: string, qty: int, cost: int)

  function RowFor(products: seq<Product>, comp: Component): BreakdownRow
  {
    var name := match Find(products, CashierPOS.ProductIdIs(comp.productId))
      case Some(b) => b.name
      case None => "Unknown";
    BreakdownRow(name, comp.qty, RowCost(products)(comp))
  }

  /** `renderComboBreakdown`: one row per component, in order. */
  function BreakdownRows(products: seq<Product>, comps: seq<Component>): (r: seq<BreakdownRow>)
    ensures |r| == |comps|
    ensures forall k :: 0 <= k < |r| ==> r[k] == RowFor(products, comps[k])
  {
    if comps == [] then []
    else BreakdownRows(products, comps[..|comps| - 1]) + [RowFor(products, comps[|comps| - 1])]
  }

  function RowCostOf(row: BreakdownRow): int
  {
    row.cost
  }

  /** The breakdown adds up to the computed cost shown in the product's row. */
  lemma {:induction false} BreakdownSumsToCost(products: seq<Product>, comps: seq<Component>)
    ensures Sum(BreakdownRows(products, comps), RowCostOf) == Sum(comps, RowCost(products))
  {
    if comps != [] {
      var init := comps[..|comps| - 1];
      BreakdownSumsToCost(products, init);
      var rows := BreakdownRows(products, comps);
      assert rows[..|rows| - 1] == BreakdownRows(products, init);
    }
  }

  /** The admin's computed cost and the cashier screen's combo cost agree on every
      combo whose quantities are all non-zero; a zero quantity counts once here and
      not at all there. */
  lemma {:induction false} ComboCostsAgree(products: seq<Product>, comps: seq<Component>)
    requires forall k :: 0 <= k < |comps| ==> comps[k].qty != 0
    ensures Sum(comps, RowCost(products)) == Sum(comps, CashierPOS.ComponentCost(products))
  {
    if comps != [] {
      ComboCostsAgree(products, comps[..|comps| - 1]);
    }
  }

  /** A component listed with quantity 0 shows the two screens disagreeing. */
  lemma ZeroQuantityDiffers(products: seq<Product>, comp: Component)
    requires comp.qty == 0
    requires exists j :: 0 <= j < |products| && products[j].id == comp.productId
    ensures RowCost(products)(comp) == BaseCost(products, comp)
    ensures CashierPOS.ComponentCost(products)(comp) == 0
  {
    assert CashierPOS.ProductIdIs(comp.productId)(products[FirstIndex(products, CashierPOS.ProductIdIs(comp.productId))]);
  }

  /** The margin in percent, or None where the table prints '0.0' because the
      price is 0; the rounding to one decimal is not part of this model. */
  function ProfitMargin(price: int, computedCost: int): (r: Option<real>)
    ensures r.None? <==> price == 0
    ensures r.Some? ==> r.value * (price as real) == ((price - computedCost) as real) * 100.0
  {
    if price == 0 then None
    else Some(((price - computedCost) as real) / (price as real) * 100.0)
  }

  /** The breakdown button: the same product again collapses, another expands. */
  function ToggleExpanded(expanded: Option<int>, productId: int): (r: Option<int>)
    ensures r == Some(productId) <==> expanded != Some(productId)
    ensures r.None? <==> expanded == Some(productId)
  {
    if expanded == Some(productId) then None else Some(productId)
  }
}

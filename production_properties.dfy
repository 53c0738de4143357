/** What `calculateProduction` guarantees, proved about the specification functions. */
module ProductionProperties {
  import opened Wrappers
  import opened Panache
  import opened Numeric
  import opened Text
  import opened ProductEntity
  import opened ProductionService
  import Sorting

  // ---------------------------------------------------------------- updateStock

  /** Every raw material loses exactly what the associations take of it; no other entry changes. */
  lemma {:induction false} DeductAccounts(rs: seq<Requirement>, q: Qty, stock: Stock)
    ensures Deduct(rs, q, stock).Keys == stock.Keys + MaterialsOf(rs)
    ensures forall id :: Available(Deduct(rs, q, stock), id) == Available(stock, id) - Consumed(rs, q, id)
  {
    if rs != [] {
      var init := rs[..|rs| - 1];
      DeductAccounts(init, q, stock);
      assert forall k :: 0 <= k < |init| ==> rs[k] == init[k];
      assert MaterialsOf(rs) == MaterialsOf(init) + {rs[|rs| - 1].rawMaterialId};
    }
  }

  /** No raw material appears in two associations of the product. */
  ghost predicate NoDuplicateMaterials(rs: seq<Requirement>) {
    forall i, j :: 0 <= i < j < |rs| ==> rs[i].rawMaterialId != rs[j].rawMaterialId
  }

  lemma {:induction false} ConsumedUnlisted(rs: seq<Requirement>, q: Qty, id: Id)
    requires id !in MaterialsOf(rs)
    ensures Consumed(rs, q, id) == 0
  {
    if rs != [] {
      var init := rs[..|rs| - 1];
      assert forall k :: 0 <= k < |init| ==> init[k] == rs[k];
      ConsumedUnlisted(init, q, id);
      assert rs[|rs| - 1].rawMaterialId != id;
    }
  }

  lemma {:induction false} ConsumedListedOnce(rs: seq<Requirement>, q: Qty, k: nat)
    requires NoDuplicateMaterials(rs) && k < |rs|
    ensures Consumed(rs, q, rs[k].rawMaterialId) == rs[k].requiredQuantity * q
  {
    var init := rs[..|rs| - 1];
    var id := rs[k].rawMaterialId;
    assert forall j :: 0 <= j < |init| ==> init[j] == rs[j];
    if k == |rs| - 1 {
      ConsumedUnlisted(init, q, id);
    } else {
      ConsumedListedOnce(init, q, k);
      assert rs[|rs| - 1].rawMaterialId != id;
    }
  }

  /**
   * With each raw material listed once, producing `q` units lowers each listed material's
   * working stock by exactly `required × q` and leaves every other entry as it was.
   */
  lemma DeductExactly(rs: seq<Requirement>, q: Qty, stock: Stock)
    requires NoDuplicateMaterials(rs)
    ensures Deduct(rs, q, stock).Keys == stock.Keys + MaterialsOf(rs)
    ensures forall k :: 0 <= k < |rs| ==>
              Available(Deduct(rs, q, stock), rs[k].rawMaterialId)
              == Available(stock, rs[k].rawMaterialId) - rs[k].requiredQuantity * q
    ensures forall id :: id !in MaterialsOf(rs) ==>
              (id in Deduct(rs, q, stock) <==> id in stock)
              && Available(Deduct(rs, q, stock), id) == Available(stock, id)
  {
    DeductAccounts(rs, q, stock);
    forall k | 0 <= k < |rs| ensures Consumed(rs, q, rs[k].rawMaterialId) == rs[k].requiredQuantity * q {
      ConsumedListedOnce(rs, q, k);
    }
    forall id | id !in MaterialsOf(rs) ensures Consumed(rs, q, id) == 0 {
      ConsumedUnlisted(rs, q, id);
    }
  }

  // ---------------------------------------------------------------- calculateMaxQuantity

  /**
   * A raw material missing from the snapshot counts as zero available, not as an error: a
   * product that needs it gets no positive quantity and the main loop passes over it.
   */
  lemma MissingMaterialBlocksProduct(st: Progress, p: Product, reqs: Requirements, k: nat)
    requires k < |RequirementsOf(reqs, p.id)|
    requires RequirementsOf(reqs, p.id)[k].rawMaterialId !in st.stock
    requires RequirementsOf(reqs, p.id)[k].requiredQuantity != 0
    ensures MaxQuantity(RequirementsOf(reqs, p.id), st.stock) <= 0
    ensures Step(st, p, reqs) == st
  {
    var rs := RequirementsOf(reqs, p.id);
    assert PossibleQuantity(st.stock, rs[k]) == 0;
  }

  // ---------------------------------------------------------------- the main loop

  /** `item` was emitted for product `p`: its fields are `p`'s, its quantity is positive, and `p` has a nonzero requirement. */
  ghost predicate EmittedFrom(item: ProductionItem, p: Product, reqs: Requirements) {
    && item == ItemOf(p, item.quantity)
    && item.quantity > 0
    && exists k :: 0 <= k < |RequirementsOf(reqs, p.id)| && RequirementsOf(reqs, p.id)[k].requiredQuantity != 0
  }

  /** One step either leaves the state alone or appends one item emitted for `p`. */
  lemma StepEmits(st: Progress, p: Product, reqs: Requirements)
    ensures Step(st, p, reqs) == st
            || exists item :: Step(st, p, reqs).items == st.items + [item] && EmittedFrom(item, p, reqs)
  {
    var rs := RequirementsOf(reqs, p.id);
    var q := MaxQuantity(rs, st.stock);
    if q > 0 {
      assert exists k :: 0 <= k < |rs| && rs[k].requiredQuantity != 0;
      assert EmittedFrom(ItemOf(p, q), p, reqs);
    }
  }

  /** Item k of `items` was emitted for product `ps[idx[k]]`, with `idx` strictly increasing. */
  ghost predicate DrawnInOrder(items: seq<ProductionItem>, ps: seq<Product>, idx: seq<nat>, reqs: Requirements) {
    && |items| == |idx|
    && (forall k :: 0 <= k < |idx| ==> idx[k] < |ps| && EmittedFrom(items[k], ps[idx[k]], reqs))
    && (forall k, l :: 0 <= k < l < |idx| ==> idx[k] < idx[l])
  }

  lemma DrawnInOrderExtend(items: seq<ProductionItem>, ps: seq<Product>, idx: seq<nat>, reqs: Requirements, item: ProductionItem)
    requires ps != [] && DrawnInOrder(items, ps[..|ps| - 1], idx, reqs)
    requires EmittedFrom(item, ps[|ps| - 1], reqs)
    ensures DrawnInOrder(items + [item], ps, idx + [|ps| - 1], reqs)
  {
    assert forall j :: 0 <= j < |ps| - 1 ==> ps[..|ps| - 1][j] == ps[j];
  }

  lemma DrawnInOrderWiden(items: seq<ProductionItem>, ps: seq<Product>, idx: seq<nat>, reqs: Requirements)
    requires ps != [] && DrawnInOrder(items, ps[..|ps| - 1], idx, reqs)
    ensures DrawnInOrder(items, ps, idx, reqs)
  {
    assert forall j :: 0 <= j < |ps| - 1 ==> ps[..|ps| - 1][j] == ps[j];
  }

  /** Started with no items, the loop's items are drawn from the products in processing order. */
  lemma {:induction false} RunProvenance(ps: seq<Product>, reqs: Requirements, st: Progress) returns (idx: seq<nat>)
    requires st.items == []
    ensures DrawnInOrder(Run(ps, reqs, st).items, ps, idx, reqs)
  {
    if ps == [] {
      idx := [];
    } else {
      var prev := Run(ps[..|ps| - 1], reqs, st);
      var idx0 := RunProvenance(ps[..|ps| - 1], reqs, st);
      StepEmits(prev, ps[|ps| - 1], reqs);
      if Step(prev, ps[|ps| - 1], reqs) == prev {
        idx := idx0;
        DrawnInOrderWiden(prev.items, ps, idx0, reqs);
      } else {
        var item :| Step(prev, ps[|ps| - 1], reqs).items == prev.items + [item] && EmittedFrom(item, ps[|ps| - 1], reqs);
        idx := idx0 + [|ps| - 1];
        DrawnInOrderExtend(prev.items, ps, idx0, reqs, item);
      }
    }
  }

  /** The order in which `findAllOrdered` delivers products, read off the items. */
  predicate ValueDescNameAscItems(a: ProductionItem, b: ProductionItem) {
    a.unitValue > b.unitValue || (a.unitValue == b.unitValue && LexLe(a.productName, b.productName))
  }

  /**
   * Every item of the plan was emitted for a product of the table that has a nonzero
   * requirement, with a positive quantity; and the items keep the processing order, value
   * descending then name ascending, with no re-sort.
   */
  lemma PlanItemsFromProductsInOrder(products: seq<Product>, reqs: Requirements, rows: seq<StockRow>)
    ensures forall item :: item in Calculation(products, reqs, rows).items ==>
              exists p :: p in products && EmittedFrom(item, p, reqs)
    ensures Sorting.SortedBy(Calculation(products, reqs, rows).items, ValueDescNameAscItems)
  {
    var ordered := FindAllOrdered(products);
    var items := Calculation(products, reqs, rows).items;
    var idx := RunProvenance(ordered, reqs, Start(rows));
    assert items == Run(ordered, reqs, Start(rows)).items;
    forall i | 0 <= i < |items|
      ensures exists p :: p in products && EmittedFrom(items[i], p, reqs)
    {
      var p := ordered[idx[i]];
      assert p in multiset(ordered);
      assert p in multiset(products);
      assert EmittedFrom(items[i], p, reqs);
    }
    forall i, j | 0 <= i < j < |items| ensures ValueDescNameAscItems(items[i], items[j]) {
      assert ValueDescNameAsc(ordered[idx[i]], ordered[idx[j]]);
    }
  }

  /** A product with no associations, or none with a nonzero required quantity, never appears in the plan. */
  lemma UnconstrainedProductNeverEmitted(products: seq<Product>, reqs: Requirements, rows: seq<StockRow>, p: Product)
    requires forall k :: 0 <= k < |RequirementsOf(reqs, p.id)| ==> RequirementsOf(reqs, p.id)[k].requiredQuantity == 0
    ensures forall i :: 0 <= i < |Calculation(products, reqs, rows).items| ==>
              Calculation(products, reqs, rows).items[i].productId != p.id
  {
    var items := Calculation(products, reqs, rows).items;
    PlanItemsFromProductsInOrder(products, reqs, rows);
    forall i | 0 <= i < |items| ensures items[i].productId != p.id {
      assert items[i] in items;
      var source :| source in products && EmittedFrom(items[i], source, reqs);
    }
  }

  // ---------------------------------------------------------------- totals

  function SumOfTotals(items: seq<ProductionItem>): int {
    if items == [] then 0 else SumOfTotals(items[..|items| - 1]) + items[|items| - 1].totalValue
  }

  lemma {:induction false} RunTotals(ps: seq<Product>, reqs: Requirements, st: Progress)
    ensures Run(ps, reqs, st).totalValue - SumOfTotals(Run(ps, reqs, st).items) == st.totalValue - SumOfTotals(st.items)
  {
    if ps != [] {
      var prev := Run(ps[..|ps| - 1], reqs, st);
      RunTotals(ps[..|ps| - 1], reqs, st);
      var e := Run(ps, reqs, st);
      if e != prev {
        assert e.items[..|e.items| - 1] == prev.items;
      }
    }
  }

  /**
   * Each item's total is its unit value times its quantity rounded half-up to cents, and the
   * plan total is the sum of the item totals starting from zero; an empty plan totals zero.
   */
  lemma PlanTotal(products: seq<Product>, reqs: Requirements, rows: seq<StockRow>)
    ensures var c := Calculation(products, reqs, rows);
            && c.totalValue == SumOfTotals(c.items)
            && (c.items == [] ==> c.totalValue == 0)
            && forall i :: 0 <= i < |c.items| ==>
                 c.items[i].totalValue == RoundHalfUp(c.items[i].unitValue * c.items[i].quantity, 1000)
  {
    var items := Calculation(products, reqs, rows).items;
    RunTotals(FindAllOrdered(products), reqs, Start(rows));
    PlanItemsFromProductsInOrder(products, reqs, rows);
    forall i | 0 <= i < |items|
      ensures items[i].totalValue == RoundHalfUp(items[i].unitValue * items[i].quantity, 1000)
    {
      assert items[i] in items;
      var source :| source in products && EmittedFrom(items[i], source, reqs);
    }
  }

  // ---------------------------------------------------------------- stock is never overdrawn

  ghost predicate NonNegative(stock: Stock) {
    forall id :: id in stock ==> stock[id] >= 0
  }

  /** What the entities guarantee, plus the one-association-per-pair rule the backend does not enforce. */
  ghost predicate WellFormed(reqs: Requirements) {
    forall id :: id in reqs ==> WellFormedList(reqs[id])
  }

  /** One product's associations: non-negative quantities, each raw material at most once. */
  ghost predicate WellFormedList(rs: seq<Requirement>) {
    && NoDuplicateMaterials(rs)
    && forall k :: 0 <= k < |rs| ==> rs[k].requiredQuantity >= 0
  }

  lemma WellFormedRequirementsOf(reqs: Requirements, id: Option<Id>)
    requires WellFormed(reqs)
    ensures WellFormedList(RequirementsOf(reqs, id))
  {
    if id.Some? {
      var i := id.value;
      assert i in reqs ==> WellFormedList(reqs[i]);
    }
  }

  lemma {:induction false} SnapshotNonNegative(rows: seq<StockRow>)
    requires forall i :: 0 <= i < |rows| ==> rows[i].stockQuantity >= 0
    ensures NonNegative(Snapshot(rows))
  {
    if rows != [] {
      SnapshotNonNegative(rows[..|rows| - 1]);
    }
  }

  lemma MulMonotone(a: int, b: int, c: int)
    requires a <= b && c >= 0
    ensures a * c <= b * c
  {
  }

  lemma {:induction false} ConsumedNonNegative(rs: seq<Requirement>, q: Qty, id: Id)
    requires q >= 0 && forall k :: 0 <= k < |rs| ==> rs[k].requiredQuantity >= 0
    ensures Consumed(rs, q, id) >= 0
  {
    if rs != [] {
      ConsumedNonNegative(rs[..|rs| - 1], q, id);
      MulMonotone(0, rs[|rs| - 1].requiredQuantity, q);
    }
  }

  /** Taking `r × q` out of `a` leaves no debt when `q` is at most `a / r` rounded down. */
  lemma QuantityFits(a: int, r: Qty, q: Qty)
    requires a >= 0 && r >= 0 && q >= 0
    requires r > 0 ==> q <= DivDown(a, r)
    ensures a - r * q >= 0
  {
    if r > 0 {
      DivDownNonNegative(a, r);
      MulMonotone(q, DivDown(a, r), r);
    }
  }

  /** Deducting a quantity every listed raw material can supply keeps the working stock non-negative. */
  lemma DeductKeepsNonNegative(rs: seq<Requirement>, q: Qty, stock: Stock)
    requires NonNegative(stock) && NoDuplicateMaterials(rs) && q >= 0
    requires forall k :: 0 <= k < |rs| ==> rs[k].requiredQuantity >= 0
    requires forall k :: 0 <= k < |rs| && rs[k].requiredQuantity != 0 ==> q <= PossibleQuantity(stock, rs[k])
    ensures NonNegative(Deduct(rs, q, stock))
  {
    var s := Deduct(rs, q, stock);
    DeductExactly(rs, q, stock);
    forall id | id in s ensures s[id] >= 0 {
      if id in MaterialsOf(rs) {
        var k :| 0 <= k < |rs| && rs[k].rawMaterialId == id;
        QuantityFits(Available(stock, id), rs[k].requiredQuantity, q);
      }
    }
  }

  /** One step never drives a working-stock entry below zero. */
  lemma StepKeepsNonNegative(st: Progress, p: Product, reqs: Requirements)
    requires NonNegative(st.stock) && WellFormed(reqs)
    ensures NonNegative(Step(st, p, reqs).stock)
  {
    var rs := RequirementsOf(reqs, p.id);
    var q := MaxQuantity(rs, st.stock);
    if q > 0 {
      WellFormedRequirementsOf(reqs, p.id);
      DeductKeepsNonNegative(rs, q, st.stock);
    }
  }

  function TotalConsumed(items: seq<ProductionItem>, reqs: Requirements, id: Id): int {
    if items == [] then 0
    else
      var last := items[|items| - 1];
      TotalConsumed(items[..|items| - 1], reqs, id) + Consumed(RequirementsOf(reqs, last.productId), last.quantity, id)
  }

  /** One step moves exactly what it deducts from the working stock into the plan's consumption. */
  lemma StepConservesStock(st: Progress, p: Product, reqs: Requirements, id: Id)
    requires WellFormed(reqs)
    ensures Available(Step(st, p, reqs).stock, id) + TotalConsumed(Step(st, p, reqs).items, reqs, id)
            == Available(st.stock, id) + TotalConsumed(st.items, reqs, id)
    ensures TotalConsumed(Step(st, p, reqs).items, reqs, id) >= TotalConsumed(st.items, reqs, id)
  {
    var rs := RequirementsOf(reqs, p.id);
    var q := MaxQuantity(rs, st.stock);
    if q > 0 {
      var item := ItemOf(p, q);
      var items := st.items + [item];
      assert Step(st, p, reqs) == Progress(items, st.totalValue + item.totalValue, Deduct(rs, q, st.stock));
      assert items[..|items| - 1] == st.items;
      assert TotalConsumed(items, reqs, id) == TotalConsumed(st.items, reqs, id) + Consumed(rs, q, id);
      DeductAccounts(rs, q, st.stock);
      WellFormedRequirementsOf(reqs, p.id);
      ConsumedNonNegative(rs, q, id);
    }
  }

  /** Working stock plus what the plan has consumed so far is what the loop started from. */
  lemma {:induction false} RunConservesStock(ps: seq<Product>, reqs: Requirements, st: Progress, id: Id)
    requires WellFormed(reqs)
    ensures Available(Run(ps, reqs, st).stock, id) + TotalConsumed(Run(ps, reqs, st).items, reqs, id)
            == Available(st.stock, id) + TotalConsumed(st.items, reqs, id)
    ensures TotalConsumed(Run(ps, reqs, st).items, reqs, id) >= TotalConsumed(st.items, reqs, id)
    ensures NonNegative(st.stock) ==> NonNegative(Run(ps, reqs, st).stock)
  {
    if ps != [] {
      var prev := Run(ps[..|ps| - 1], reqs, st);
      RunConservesStock(ps[..|ps| - 1], reqs, st, id);
      StepConservesStock(prev, ps[|ps| - 1], reqs, id);
      if NonNegative(st.stock) {
        StepKeepsNonNegative(prev, ps[|ps| - 1], reqs);
      }
    }
  }

  /**
   * With each product listing a raw material at most once, the working stock never goes
   * negative, and the plan consumes of every raw material between zero and its initial stock.
   */
  lemma ConsumptionWithinStock(products: seq<Product>, reqs: Requirements, rows: seq<StockRow>, id: Id)
    requires WellFormed(reqs)
    requires forall i :: 0 <= i < |rows| ==> rows[i].stockQuantity >= 0
    ensures NonNegative(Finish(products, reqs, rows).stock)
    ensures Available(Finish(products, reqs, rows).stock, id)
            == Available(Snapshot(rows), id) - TotalConsumed(Calculation(products, reqs, rows).items, reqs, id)
    ensures 0 <= TotalConsumed(Calculation(products, reqs, rows).items, reqs, id) <= Available(Snapshot(rows), id)
  {
    SnapshotNonNegative(rows);
    RunConservesStock(FindAllOrdered(products), reqs, Start(rows), id);
  }
}

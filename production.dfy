/**
 * `ProductionService.calculateProduction`: a greedy, single-pass allocation of raw-material
 * stock to products, highest unit value first. Each product gets the largest quantity (to
 * three decimals, truncated) that the stock still left supports; that much is deducted from a
 * working copy of the stock, and the product is listed with its value.
 *
 * The functions in this module are the specification; the methods follow the Java code
 * statement by statement and are proved equal to them.
 */
module ProductionService {
  import opened Wrappers
  import opened Panache
  import opened Numeric
  import opened ProductEntity

  /** One association of a product, as `calculateMaxQuantity` and `updateStock` read it. */
  datatype Requirement = Requirement(rawMaterialId: Id, requiredQuantity: Qty)

  /** One row of `SELECT rm.id, rm.stockQuantity FROM RawMaterial rm`. */
  datatype StockRow = StockRow(rawMaterialId: Id, stockQuantity: Qty)

  /** The associations of each product, standing in for `ProductRawMaterial.findByProductId`. */
  type Requirements = map<Id, seq<Requirement>>

  /**
   * The working copy `availableStock`, in millionths: a scale-3 stock less scale-3 times
   * scale-3 consumptions is exact at scale 6.
   */
  type Stock = map<Id, int>

  /** Thousandths to millionths. */
  const STOCK_SCALE_UP: int := 1000
  /** Digits dropped when a scale-5 product of value and quantity is set to scale 2. */
  const TOTAL_SCALE_DOWN: int := 1000

  datatype ProductionItem = ProductionItem(
    productId: Option<Id>,
    productCode: string,
    productName: string,
    unitValue: Money,
    quantity: Qty,
    totalValue: Money)

  datatype ProductionCalculation = ProductionCalculation(items: seq<ProductionItem>, totalValue: Money)

  /** `findByProductId(product.id)`: a null id, or a product without associations, has none. */
  function RequirementsOf(reqs: Requirements, id: Option<Id>): seq<Requirement> {
    if id.Some? && id.value in reqs then reqs[id.value] else []
  }

  /** `availableStock.getOrDefault(id, BigDecimal.ZERO)`. */
  function Available(stock: Stock, id: Id): int {
    if id in stock then stock[id] else 0
  }

  /** The working stock after `put`ting every row in order. */
  function Snapshot(rows: seq<StockRow>): Stock {
    if rows == [] then map[]
    else
      var last := rows[|rows| - 1];
      Snapshot(rows[..|rows| - 1])[last.rawMaterialId := last.stockQuantity * STOCK_SCALE_UP]
  }

  /**
   * `available.divide(required, 3, RoundingMode.DOWN)`: with `available` in millionths and
   * `required` in thousandths, the truncated quotient is the quantity in thousandths.
   */
  function PossibleQuantity(stock: Stock, r: Requirement): Qty
    requires r.requiredQuantity != 0
  {
    DivDown(Available(stock, r.rawMaterialId), r.requiredQuantity)
  }

  /**
   * The running minimum of `calculateMaxQuantity` after the given associations: the smallest
   * possible quantity over those with a nonzero required quantity, or null if there are none.
   */
  function Bottleneck(reqs: seq<Requirement>, stock: Stock): (b: Option<Qty>)
    ensures b.None? <==> forall k :: 0 <= k < |reqs| ==> reqs[k].requiredQuantity == 0
    ensures b.Some? ==> forall k :: 0 <= k < |reqs| && reqs[k].requiredQuantity != 0 ==>
                          b.value <= PossibleQuantity(stock, reqs[k])
    ensures b.Some? ==> exists k :: 0 <= k < |reqs| && reqs[k].requiredQuantity != 0
                          && b.value == PossibleQuantity(stock, reqs[k])
  {
    if reqs == [] then None
    else
      var init := reqs[..|reqs| - 1];
      var prev := Bottleneck(init, stock);
      var r := reqs[|reqs| - 1];
      assert forall k :: 0 <= k < |init| ==> reqs[k] == init[k];
      if r.requiredQuantity == 0 then prev
      else
        var p := PossibleQuantity(stock, r);
        if prev.None? || p < prev.value then Some(p) else prev
  }

  /**
   * `calculateMaxQuantity`: the bottleneck quantity of a product given the current working
   * stock; zero when it has no associations or only ones with a zero required quantity.
   */
  function MaxQuantity(reqs: seq<Requirement>, stock: Stock): (q: Qty)
    ensures (forall k :: 0 <= k < |reqs| ==> reqs[k].requiredQuantity == 0) ==> q == 0
    ensures (exists k :: 0 <= k < |reqs| && reqs[k].requiredQuantity != 0) ==>
              (forall k :: 0 <= k < |reqs| && reqs[k].requiredQuantity != 0 ==> q <= PossibleQuantity(stock, reqs[k]))
              && (exists k :: 0 <= k < |reqs| && reqs[k].requiredQuantity != 0 && q == PossibleQuantity(stock, reqs[k]))
  {
    if |reqs| == 0 then 0 else Bottleneck(reqs, stock).GetOr(0)
  }

  /** The total that the given associations take of raw material `id` for `quantity` units. */
  function Consumed(reqs: seq<Requirement>, quantity: Qty, id: Id): int {
    if reqs == [] then 0
    else
      var last := reqs[|reqs| - 1];
      Consumed(reqs[..|reqs| - 1], quantity, id) + (if last.rawMaterialId == id then last.requiredQuantity * quantity else 0)
  }

  function MaterialsOf(reqs: seq<Requirement>): set<Id> {
    set k | 0 <= k < |reqs| :: reqs[k].rawMaterialId
  }

  /**
   * `updateStock`: each association in turn `put`s current minus `required × quantity`.
   */
  function Deduct(reqs: seq<Requirement>, quantity: Qty, stock: Stock): Stock {
    if reqs == [] then stock
    else
      var last := reqs[|reqs| - 1];
      var prev := Deduct(reqs[..|reqs| - 1], quantity, stock);
      prev[last.rawMaterialId := Available(prev, last.rawMaterialId) - last.requiredQuantity * quantity]
  }

  /** `product.value.multiply(maxQuantity).setScale(2, RoundingMode.HALF_UP)`. */
  function ItemTotal(value: Money, quantity: Qty): Money {
    RoundHalfUp(value * quantity, TOTAL_SCALE_DOWN)
  }

  function ItemOf(p: Product, quantity: Qty): ProductionItem {
    ProductionItem(p.id, p.code, p.name, p.value, quantity, ItemTotal(p.value, quantity))
  }

  /** The state of the main loop: `productionItems`, `totalValue` and `availableStock`. */
  datatype Progress = Progress(items: seq<ProductionItem>, totalValue: Money, stock: Stock)

  /** One iteration of the main loop, for product `p`. */
  function Step(st: Progress, p: Product, reqs: Requirements): Progress {
    var rs := RequirementsOf(reqs, p.id);
    var q := MaxQuantity(rs, st.stock);
    if q > 0 then
      var item := ItemOf(p, q);
      Progress(st.items + [item], st.totalValue + item.totalValue, Deduct(rs, q, st.stock))
    else st
  }

  /** The main loop over the products in the given order. */
  function Run(ps: seq<Product>, reqs: Requirements, st: Progress): Progress {
    if ps == [] then st else Step(Run(ps[..|ps| - 1], reqs, st), ps[|ps| - 1], reqs)
  }

  /** The state before the main loop: no items, a zero total, the stock snapshot. */
  function Start(rows: seq<StockRow>): Progress {
    Progress([], 0, Snapshot(rows))
  }

  /** The state after the main loop, products taken in `findAllOrdered` order. */
  function Finish(products: seq<Product>, reqs: Requirements, rows: seq<StockRow>): Progress {
    Run(FindAllOrdered(products), reqs, Start(rows))
  }

  /** The plan `calculateProduction` returns. */
  function Calculation(products: seq<Product>, reqs: Requirements, rows: seq<StockRow>): ProductionCalculation {
    var end := Finish(products, reqs, rows);
    ProductionCalculation(end.items, end.totalValue)
  }

  /** Lines 37-43: the stock snapshot, built by `put`ting every row into an empty map. */
  method SnapshotStock(rows: seq<StockRow>) returns (availableStock: Stock)
    ensures availableStock == Snapshot(rows)
  {
    availableStock := map[];
    for i := 0 to |rows|
      invariant availableStock == Snapshot(rows[..i])
    {
      assert rows[..i + 1][..i] == rows[..i];
      availableStock := availableStock[rows[i].rawMaterialId := rows[i].stockQuantity * STOCK_SCALE_UP];
    }
    assert rows[..|rows|] == rows;
  }

  /** `calculateMaxQuantity`. */
  method CalculateMaxQuantity(rawMaterials: seq<Requirement>, availableStock: Stock) returns (q: Qty)
    ensures q == MaxQuantity(rawMaterials, availableStock)
  {
    if |rawMaterials| == 0 {
      return 0;
    }
    var maxQuantity: Option<Qty> := None;
    for i := 0 to |rawMaterials|
      invariant maxQuantity == Bottleneck(rawMaterials[..i], availableStock)
    {
      assert rawMaterials[..i + 1][..i] == rawMaterials[..i];
      var prm := rawMaterials[i];
      var available := Available(availableStock, prm.rawMaterialId);
      var required := prm.requiredQuantity;
      if required == 0 {
        continue;
      }
      var possibleQuantity := DivDown(available, required);
      if maxQuantity.None? || possibleQuantity < maxQuantity.value {
        maxQuantity := Some(possibleQuantity);
      }
    }
    assert rawMaterials[..|rawMaterials|] == rawMaterials;
    q := if maxQuantity.Some? then maxQuantity.value else 0;
  }

  /** `updateStock`. */
  method UpdateStock(rawMaterials: seq<Requirement>, quantity: Qty, stock: Stock) returns (availableStock: Stock)
    ensures availableStock == Deduct(rawMaterials, quantity, stock)
  {
    availableStock := stock;
    for i := 0 to |rawMaterials|
      invariant availableStock == Deduct(rawMaterials[..i], quantity, stock)
    {
      assert rawMaterials[..i + 1][..i] == rawMaterials[..i];
      var prm := rawMaterials[i];
      var consumed := prm.requiredQuantity * quantity;
      var current := Available(availableStock, prm.rawMaterialId);
      var remaining := current - consumed;
      availableStock := availableStock[prm.rawMaterialId := remaining];
    }
    assert rawMaterials[..|rawMaterials|] == rawMaterials;
  }

  /**
   * `calculateProduction`, given the product table, every product's associations and the
   * raw-material stock rows it reads. The rows are read, never written back.
   */
  method CalculateProduction(products: seq<Product>, reqs: Requirements, rows: seq<StockRow>)
    returns (result: ProductionCalculation)
    ensures result == Calculation(products, reqs, rows)
  {
    var ordered := FindAllOrdered(products);
    var availableStock := SnapshotStock(rows);
    var productionItems: seq<ProductionItem> := [];
    var totalValue: Money := 0;
    for i := 0 to |ordered|
      invariant Progress(productionItems, totalValue, availableStock) == Run(ordered[..i], reqs, Start(rows))
    {
      assert ordered[..i + 1][..i] == ordered[..i];
      var product := ordered[i];
      var maxQuantity := CalculateMaxQuantity(RequirementsOf(reqs, product.id), availableStock);
      if maxQuantity > 0 {
        availableStock := UpdateStock(RequirementsOf(reqs, product.id), maxQuantity, availableStock);
        var itemTotalValue := RoundHalfUp(product.value * maxQuantity, TOTAL_SCALE_DOWN);
        totalValue := totalValue + itemTotalValue;
        var item := ProductionItem(product.id, product.code, product.name, product.value, maxQuantity, itemTotalValue);
        productionItems := productionItems + [item];
      }
    }
    assert ordered[..|ordered|] == ordered;
    result := ProductionCalculation(productionItems, totalValue);
  }
}

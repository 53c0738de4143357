/**
 * The two reads `calculateProduction` makes of the database, over the catalog: the stock
 * rows of `SELECT rm.id, rm.stockQuantity FROM RawMaterial rm` and, per product, the
 * associations `ProductRawMaterial.findByProductId` returns. Only reads: the calculation
 * writes nothing back.
 */
module ProductionCatalog {
  import opened Wrappers
  import opened Panache
  import opened ProductEntity
  import RawMaterialEntity
  import opened Catalog
  import opened ProductionService
  import opened ProductionProperties

  /** The stock query: one row per raw material, in table order. */
  function StockRows(ms: seq<RawMaterialEntity.RawMaterial>): (r: seq<StockRow>)
    requires forall i :: 0 <= i < |ms| ==> ms[i].id.Some?
    ensures |r| == |ms|
    ensures forall i :: 0 <= i < |ms| ==> r[i] == StockRow(ms[i].id.value, ms[i].stockQuantity)
  {
    seq(|ms|, i requires 0 <= i < |ms| => StockRow(ms[i].id.value, ms[i].stockQuantity))
  }

  /** What the calculation reads of one association. */
  function RequirementOf(l: Link): Requirement {
    Requirement(l.rawMaterialId, l.requiredQuantity)
  }

  predicate OtherProduct(id: Id, l: Link) {
    l.productId != id
  }

  /** `findByProductId(id)` over the association table: exactly that product's rows. */
  function AssociationsOf(ls: seq<Link>, id: Id): (r: seq<Link>)
    ensures forall l :: l in r <==> l in ls && l.productId == id
  {
    Without(ls, l => OtherProduct(id, l))
  }

  /** What the calculation reads of that product's associations, in the same order. */
  function RequirementsFor(ls: seq<Link>, id: Id): (r: seq<Requirement>)
    ensures |r| == |AssociationsOf(ls, id)|
    ensures forall k :: 0 <= k < |r| ==> r[k] == RequirementOf(AssociationsOf(ls, id)[k])
    ensures forall l :: l in ls && l.productId == id ==> RequirementOf(l) in r
  {
    var mine := AssociationsOf(ls, id);
    var r := seq(|mine|, i requires 0 <= i < |mine| => RequirementOf(mine[i]));
    assert forall l :: l in ls && l.productId == id ==> RequirementOf(l) in r by {
      forall l | l in ls && l.productId == id ensures RequirementOf(l) in r {
        assert l in mine;
        var k :| 0 <= k < |mine| && mine[k] == l;
        assert r[k] == RequirementOf(l);
      }
    }
    r
  }

  /** The product ids some association names. */
  function LinkedProducts(ls: seq<Link>): set<Id> {
    set k | 0 <= k < |ls| :: ls[k].productId
  }

  /** Every product's associations, keyed by product id. */
  function StoreRequirements(ls: seq<Link>): (reqs: Requirements)
    ensures reqs.Keys == LinkedProducts(ls)
  {
    map id | id in LinkedProducts(ls) :: RequirementsFor(ls, id)
  }

  lemma FirstIsMember<T>(s: seq<T>)
    requires |s| > 0
    ensures s[0] in s
  {
  }

  /** The calculation's per-product query reads exactly that product's associations, and none for a null id. */
  lemma StoreRequirementsOf(ls: seq<Link>, id: Option<Id>)
    ensures id.None? ==> RequirementsOf(StoreRequirements(ls), id) == []
    ensures id.Some? ==> RequirementsOf(StoreRequirements(ls), id) == RequirementsFor(ls, id.value)
  {
    if id.Some? && id.value !in LinkedProducts(ls) {
      var mine := AssociationsOf(ls, id.value);
      assert forall l :: l !in mine;
      if |mine| > 0 {
        FirstIsMember(mine);
        assert false;
      }
      assert |RequirementsFor(ls, id.value)| == 0;
    }
  }

  /** No product names the same raw material in two associations. */
  predicate DistinctPairs(ls: seq<Link>) {
    forall i, j :: 0 <= i < j < |ls| ==>
      ls[i].productId != ls[j].productId || ls[i].rawMaterialId != ls[j].rawMaterialId
  }

  predicate SamePairDiffers(a: Link, b: Link) {
    a.productId != b.productId || a.rawMaterialId != b.rawMaterialId
  }

  lemma RequirementsForWellFormed(ls: seq<Link>, id: Id)
    requires DistinctPairs(ls)
    requires forall i :: 0 <= i < |ls| ==> ls[i].requiredQuantity > 0
    ensures WellFormedList(RequirementsFor(ls, id))
  {
    var mine := AssociationsOf(ls, id);
    var r := RequirementsFor(ls, id);
    WithoutKeepsPairs(ls, l => OtherProduct(id, l), SamePairDiffers);
    forall i, j | 0 <= i < j < |r| ensures r[i].rawMaterialId != r[j].rawMaterialId {
      assert mine[i] in mine && mine[j] in mine;
      assert SamePairDiffers(mine[i], mine[j]);
    }
    forall k | 0 <= k < |r| ensures r[k].requiredQuantity >= 0 {
      assert mine[k] in mine;
      var j :| 0 <= j < |ls| && ls[j] == mine[k];
    }
  }

  /** A valid catalog with one association per pair meets the calculation's precondition. */
  lemma StoreRequirementsWellFormed(ps: seq<Product>, ms: seq<RawMaterialEntity.RawMaterial>, ls: seq<Link>, n: Id)
    requires LinksValid(ls, ps, ms, n) && DistinctPairs(ls)
    ensures WellFormed(StoreRequirements(ls))
  {
    var reqs := StoreRequirements(ls);
    forall id | id in reqs ensures WellFormedList(reqs[id]) {
      RequirementsForWellFormed(ls, id);
    }
  }

  /** Raw-material rows of a valid catalog give non-negative stock rows. */
  lemma StockRowsNonNegative(ms: seq<RawMaterialEntity.RawMaterial>, n: Id)
    requires RawMaterialsValid(ms, n)
    ensures forall i :: 0 <= i < |StockRows(ms)| ==> StockRows(ms)[i].stockQuantity >= 0
  {
    forall i | 0 <= i < |ms| ensures ms[i].stockQuantity >= 0 {
      assert RawMaterialEntity.Valid(ms[i]);
    }
  }

  /**
   * On a valid catalog with one association per pair the plan never consumes more of a raw
   * material than its stored stock, and the working stock stays non-negative.
   */
  lemma CatalogConsumptionWithinStock(ps: seq<Product>, ms: seq<RawMaterialEntity.RawMaterial>, ls: seq<Link>, n: Id, id: Id)
    requires TablesValid(ps, ms, ls, n) && DistinctPairs(ls)
    ensures var reqs, rows := StoreRequirements(ls), StockRows(ms);
            && NonNegative(Finish(ps, reqs, rows).stock)
            && 0 <= TotalConsumed(Calculation(ps, reqs, rows).items, reqs, id) <= Available(Snapshot(rows), id)
  {
    StoreRequirementsWellFormed(ps, ms, ls, n);
    StockRowsNonNegative(ms, n);
    ConsumptionWithinStock(ps, StoreRequirements(ls), StockRows(ms), id);
  }

  /**
   * `calculateProduction` over the catalog. It has no `modifies` clause: the stored stock
   * quantities are read, never written.
   */
  method Calculate(db: Store) returns (result: ProductionCalculation)
    requires db.Valid()
    ensures result == Calculation(db.products, StoreRequirements(db.links), StockRows(db.rawMaterials))
  {
    var reqs := StoreRequirements(db.links);
    var rows := StockRows(db.rawMaterials);
    result := CalculateProduction(db.products, reqs, rows);
  }
}

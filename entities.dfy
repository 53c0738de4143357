/** The `products` table's row type, its constraints and its two queries. */
module ProductEntity {
  import opened Wrappers
  import opened Panache
  import opened Numeric
  import opened Text
  import Sorting

  /** `id` is null until the entity is persisted; `value` is the `product_value` column. */
  datatype Product = Product(id: Option<Id>, code: string, name: string, value: Money)

  const CODE_LENGTH: nat := 50
  const NAME_LENGTH: nat := 200
  /** `precision = 10, scale = 2`: at most ten digits in all, so under 10^10 hundredths. */
  const VALUE_LIMIT: nat := 10_000_000_000

  /**
   * The Bean Validation messages the entity's annotations produce. Bean Validation reports
   * them as a set; the model lists them in declaration order.
   */
  function Violations(p: Product): (r: seq<string>)
    ensures r == [] <==> NotBlank(p.code) && NotBlank(p.name) && p.value > 0
  {
    (if NotBlank(p.code) then [] else ["Code is required"])
    + (if NotBlank(p.name) then [] else ["Name is required"])
    + (if p.value > 0 then [] else ["Value must be positive"])
  }

  /** What the column definitions admit: lengths 50 and 200, and `numeric(10, 2)`. */
  predicate FitsColumns(p: Product) {
    |p.code| <= CODE_LENGTH && |p.name| <= NAME_LENGTH && Abs(p.value) < VALUE_LIMIT
  }

  /** A product the table can hold: no violated constraint and every column within bounds. */
  predicate Valid(p: Product) {
    Violations(p) == [] && FitsColumns(p)
  }

  /** `Product.findByCode`: `find("code", code).firstResult()`. */
  function FindByCode(table: seq<Product>, code: string): (r: Option<Product>)
    ensures r.None? <==> forall i :: 0 <= i < |table| ==> table[i].code != code
    ensures r.Some? ==> exists i :: 0 <= i < |table| && table[i] == r.value && r.value.code == code
                                    && forall j :: 0 <= j < i ==> table[j].code != code
  {
    if table == [] then None
    else if table[0].code == code then Some(table[0])
    else
      var r := FindByCode(table[1..], code);
      assert r.Some? ==> exists i :: 1 <= i < |table| && table[i] == r.value && r.value.code == code
                                     && forall j :: 0 <= j < i ==> table[j].code != code by {
        if r.Some? {
          var k :| 0 <= k < |table[1..]| && table[1..][k] == r.value && r.value.code == code
                   && forall j :: 0 <= j < k ==> table[1..][j].code != code;
          assert table[k + 1] == r.value;
        }
      }
      r
  }

  /** The order of `ORDER BY value DESC, name ASC`. */
  predicate ValueDescNameAsc(a: Product, b: Product) {
    a.value > b.value || (a.value == b.value && LexLe(a.name, b.name))
  }

  lemma ValueDescNameAscIsTotalPreorder()
    ensures Sorting.Total(ValueDescNameAsc) && Sorting.Transitive(ValueDescNameAsc)
  {
    forall a: Product, b: Product ensures ValueDescNameAsc(a, b) || ValueDescNameAsc(b, a) {
      LexLeTotal(a.name, b.name);
    }
    forall a: Product, b: Product, c: Product | ValueDescNameAsc(a, b) && ValueDescNameAsc(b, c)
      ensures ValueDescNameAsc(a, c)
    {
      if a.value == b.value == c.value {
        LexLeTransitive(a.name, b.name, c.name);
      }
    }
  }

  /** `Product.findAllOrdered`. */
  function FindAllOrdered(table: seq<Product>): (r: seq<Product>)
    ensures multiset(r) == multiset(table)
    ensures Sorting.SortedBy(r, ValueDescNameAsc)
  {
    ValueDescNameAscIsTotalPreorder();
    Sorting.InsertionSortCorrect(table, ValueDescNameAsc);
    Sorting.InsertionSort(table, ValueDescNameAsc)
  }
}

/** The `raw_materials` table's row type, its constraints and its two queries. */
module RawMaterialEntity {
  import opened Wrappers
  import opened Panache
  import opened Numeric
  import opened Text
  import Sorting

  datatype RawMaterial = RawMaterial(id: Option<Id>, code: string, name: string, stockQuantity: Qty)

  const CODE_LENGTH: nat := 50
  const NAME_LENGTH: nat := 200
  /** `precision = 10, scale = 3`: under 10^10 thousandths. */
  const STOCK_LIMIT: nat := 10_000_000_000

  function Violations(m: RawMaterial): (r: seq<string>)
    ensures r == [] <==> NotBlank(m.code) && NotBlank(m.name) && m.stockQuantity >= 0
  {
    (if NotBlank(m.code) then [] else ["Code is required"])
    + (if NotBlank(m.name) then [] else ["Name is required"])
    + (if m.stockQuantity >= 0 then [] else ["Stock quantity must be zero or positive"])
  }

  predicate FitsColumns(m: RawMaterial) {
    |m.code| <= CODE_LENGTH && |m.name| <= NAME_LENGTH && Abs(m.stockQuantity) < STOCK_LIMIT
  }

  predicate Valid(m: RawMaterial) {
    Violations(m) == [] && FitsColumns(m)
  }

  /** `RawMaterial.findByCode`: `find("code", code).firstResult()`. */
  function FindByCode(table: seq<RawMaterial>, code: string): (r: Option<RawMaterial>)
    ensures r.None? <==> forall i :: 0 <= i < |table| ==> table[i].code != code
    ensures r.Some? ==> exists i :: 0 <= i < |table| && table[i] == r.value && r.value.code == code
                                    && forall j :: 0 <= j < i ==> table[j].code != code
  {
    if table == [] then None
    else if table[0].code == code then Some(table[0])
    else
      var r := FindByCode(table[1..], code);
      assert r.Some? ==> exists i :: 1 <= i < |table| && table[i] == r.value && r.value.code == code
                                     && forall j :: 0 <= j < i ==> table[j].code != code by {
        if r.Some? {
          var k :| 0 <= k < |table[1..]| && table[1..][k] == r.value && r.value.code == code
                   && forall j :: 0 <= j < k ==> table[1..][j].code != code;
          assert table[k + 1] == r.value;
        }
      }
      r
  }

  /** The order of `ORDER BY name ASC`. */
  predicate NameAsc(a: RawMaterial, b: RawMaterial) {
    LexLe(a.name, b.name)
  }

  lemma NameAscIsTotalPreorder()
    ensures Sorting.Total(NameAsc) && Sorting.Transitive(NameAsc)
  {
    forall a: RawMaterial, b: RawMaterial ensures NameAsc(a, b) || NameAsc(b, a) {
      LexLeTotal(a.name, b.name);
    }
    forall a: RawMaterial, b: RawMaterial, c: RawMaterial | NameAsc(a, b) && NameAsc(b, c)
      ensures NameAsc(a, c)
    {
      LexLeTransitive(a.name, b.name, c.name);
    }
  }

  /** `RawMaterial.findAllOrdered`. */
  function FindAllOrdered(table: seq<RawMaterial>): (r: seq<RawMaterial>)
    ensures multiset(r) == multiset(table)
    ensures Sorting.SortedBy(r, NameAsc)
  {
    NameAscIsTotalPreorder();
    Sorting.InsertionSortCorrect(table, NameAsc);
    Sorting.InsertionSort(table, NameAsc)
  }
}

/**
 * The `product_raw_materials` join entity: how much of one raw material one unit of one
 * product needs. Nothing makes the (product, raw material) pair unique.
 */
module ProductRawMaterialEntity {
  import opened Wrappers
  import opened Panache
  import opened Numeric
  import opened ProductEntity
  import opened RawMaterialEntity

  datatype ProductRawMaterial = ProductRawMaterial(
    id: Option<Id>,
    product: Option<Product>,
    rawMaterial: Option<RawMaterial>,
    requiredQuantity: Qty)

  /** `precision = 10, scale = 3`. */
  const REQUIRED_LIMIT: nat := 10_000_000_000

  function Violations(a: ProductRawMaterial): (r: seq<string>)
    ensures r == [] <==> a.product.Some? && a.rawMaterial.Some? && a.requiredQuantity > 0
  {
    (if a.product.Some? then [] else ["Product is required"])
    + (if a.rawMaterial.Some? then [] else ["Raw material is required"])
    + (if a.requiredQuantity > 0 then [] else ["Required quantity must be positive"])
  }

  predicate FitsColumns(a: ProductRawMaterial) {
    Abs(a.requiredQuantity) < REQUIRED_LIMIT
  }

  /**
   * Whether the row's product id equals `id` in `list("product.id", id)`: an SQL equality,
   * so a null on either side matches nothing.
   */
  predicate OfProduct(a: ProductRawMaterial, id: Option<Id>) {
    id.Some? && a.product.Some? && a.product.value.id == id
  }

  predicate OfRawMaterial(a: ProductRawMaterial, id: Option<Id>) {
    id.Some? && a.rawMaterial.Some? && a.rawMaterial.value.id == id
  }

  /** `ProductRawMaterial.findByProductId`: the rows naming that product. */
  function FindByProductId(table: seq<ProductRawMaterial>, id: Option<Id>): (r: seq<ProductRawMaterial>)
    ensures forall a :: a in r <==> a in table && OfProduct(a, id)
    ensures forall a :: multiset(r)[a] == if OfProduct(a, id) then multiset(table)[a] else 0
    ensures |r| <= |table|
  {
    if table == [] then []
    else
      assert table == [table[0]] + table[1..];
      (if OfProduct(table[0], id) then [table[0]] else []) + FindByProductId(table[1..], id)
  }

  /** `ProductRawMaterial.findByRawMaterialId`: the rows naming that raw material. */
  function FindByRawMaterialId(table: seq<ProductRawMaterial>, id: Option<Id>): (r: seq<ProductRawMaterial>)
    ensures forall a :: a in r <==> a in table && OfRawMaterial(a, id)
    ensures forall a :: multiset(r)[a] == if OfRawMaterial(a, id) then multiset(table)[a] else 0
    ensures |r| <= |table|
  {
    if table == [] then []
    else
      assert table == [table[0]] + table[1..];
      (if OfRawMaterial(table[0], id) then [table[0]] else []) + FindByRawMaterialId(table[1..], id)
  }

  /** Two associations for the same pair are a legal state of the table. */
  lemma DuplicatePairsRepresentable(p: Product, m: RawMaterial, q: Qty)
    requires p.id.Some? && m.id.Some? && q > 0
    ensures var a1 := ProductRawMaterial(Some(1), Some(p), Some(m), q);
            var a2 := ProductRawMaterial(Some(2), Some(p), Some(m), q);
            Violations(a1) == [] && Violations(a2) == []
            && |FindByProductId([a1, a2], p.id)| == 2
  {
    var a1 := ProductRawMaterial(Some(1), Some(p), Some(m), q);
    var a2 := ProductRawMaterial(Some(2), Some(p), Some(m), q);
    assert FindByProductId([a1, a2], p.id) == [a1] + FindByProductId([a2], p.id);
    assert FindByProductId([a2], p.id) == [a2] + FindByProductId([], p.id);
  }
}

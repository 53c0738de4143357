/**
 * The three tables the services read and write, held in memory. Rows are kept in insertion
 * order, which stands for `listAll`'s unspecified order; primary keys come from one sequence.
 */
module Catalog {
  import opened Wrappers
  import opened Panache
  import opened Numeric
  import opened ProductEntity
  import opened RawMaterialEntity
  import opened ProductRawMaterialEntity

  /** A row of `product_raw_materials`: the association's key, its two foreign keys and its quantity. */
  datatype Link = Link(id: Id, productId: Id, rawMaterialId: Id, requiredQuantity: Qty)

  function IdOfProduct(p: Product): Option<Id> { p.id }
  function IdOfRawMaterial(m: RawMaterial): Option<Id> { m.id }
  function IdOfLink(l: Link): Option<Id> { Some(l.id) }

  /** `findById`: the position of the first row with that primary key, if any. */
  function IndexOfId<T>(table: seq<T>, idOf: T -> Option<Id>, id: Id): (r: Option<nat>)
    ensures r.None? <==> forall i :: 0 <= i < |table| ==> idOf(table[i]) != Some(id)
    ensures r.Some? ==> r.value < |table| && idOf(table[r.value]) == Some(id)
                        && forall j :: 0 <= j < r.value ==> idOf(table[j]) != Some(id)
  {
    if table == [] then None
    else if idOf(table[0]) == Some(id) then Some(0)
    else
      var r := IndexOfId(table[1..], idOf, id);
      assert forall j :: 0 <= j < |table| - 1 ==> table[1..][j] == table[j + 1];
      if r.None? then None else Some(r.value + 1)
  }

  /** The row with that primary key, if any. */
  function RowWithId<T>(table: seq<T>, idOf: T -> Option<Id>, id: Id): (r: Option<T>)
    ensures r.None? <==> forall i :: 0 <= i < |table| ==> idOf(table[i]) != Some(id)
    ensures r.Some? ==> r.value in table && idOf(r.value) == Some(id)
  {
    var i := IndexOfId(table, idOf, id);
    if i.None? then None else Some(table[i.value])
  }

  /** The table after a `DELETE` of every row `drop` selects, the others in their order. */
  function Without<T(!new)>(table: seq<T>, drop: T -> bool): (r: seq<T>)
    ensures forall x :: x in r <==> x in table && !drop(x)
    ensures |r| <= |table|
  {
    if table == [] then []
    else (if drop(table[0]) then [] else [table[0]]) + Without(table[1..], drop)
  }

  /** A delete keeps each surviving row as often as the table held it, and no dropped row. */
  lemma {:induction false} WithoutCounts<T(!new)>(table: seq<T>, drop: T -> bool)
    ensures forall x :: multiset(Without(table, drop))[x] == if drop(x) then 0 else multiset(table)[x]
  {
    if table != [] {
      WithoutCounts(table[1..], drop);
      assert table == [table[0]] + table[1..];
    }
  }

  /** A relation between every earlier and every later row survives a delete. */
  lemma {:induction false} WithoutKeepsPairs<T(!new)>(table: seq<T>, drop: T -> bool, rel: (T, T) -> bool)
    requires forall i, j :: 0 <= i < j < |table| ==> rel(table[i], table[j])
    ensures forall i, j :: 0 <= i < j < |Without(table, drop)| ==> rel(Without(table, drop)[i], Without(table, drop)[j])
  {
    if table != [] {
      var tail := table[1..];
      assert forall j :: 0 <= j < |tail| ==> tail[j] == table[j + 1];
      WithoutKeepsPairs(tail, drop, rel);
      var rest := Without(tail, drop);
      var r := Without(table, drop);
      if !drop(table[0]) {
        assert r == [table[0]] + rest;
        forall i, j | 0 <= i < j < |r| ensures rel(r[i], r[j]) {
          if i == 0 {
            assert r[j] == rest[j - 1] && rest[j - 1] in tail;
            var k :| 0 <= k < |tail| && tail[k] == r[j];
            assert rel(table[0], table[k + 1]);
          } else {
            assert r[i] == rest[i - 1] && r[j] == rest[j - 1];
          }
        }
      }
    }
  }

  /** Primary keys: assigned, drawn from the sequence before `nextId`, and pairwise distinct. */
  ghost predicate Keyed<T>(table: seq<T>, idOf: T -> Option<Id>, nextId: Id) {
    && (forall i :: 0 <= i < |table| ==> idOf(table[i]).Some? && idOf(table[i]).value < nextId)
    && (forall i, j :: 0 <= i < j < |table| ==> idOf(table[i]) != idOf(table[j]))
  }

  predicate DistinctProducts(a: Product, b: Product) { a.id != b.id && a.code != b.code }
  predicate DistinctRawMaterials(a: RawMaterial, b: RawMaterial) { a.id != b.id && a.code != b.code }
  predicate DistinctLinks(a: Link, b: Link) { a.id != b.id }

  /** `products`: keyed, codes unique (the `UNIQUE (code)` constraint), every row valid. */
  ghost predicate ProductsValid(ps: seq<Product>, nextId: Id) {
    && Keyed(ps, IdOfProduct, nextId)
    && (forall i, j :: 0 <= i < j < |ps| ==> DistinctProducts(ps[i], ps[j]))
    && (forall i :: 0 <= i < |ps| ==> ProductEntity.Valid(ps[i]))
  }

  ghost predicate RawMaterialsValid(ms: seq<RawMaterial>, nextId: Id) {
    && Keyed(ms, IdOfRawMaterial, nextId)
    && (forall i, j :: 0 <= i < j < |ms| ==> DistinctRawMaterials(ms[i], ms[j]))
    && (forall i :: 0 <= i < |ms| ==> RawMaterialEntity.Valid(ms[i]))
  }

  /** The entity Hibernate loads for a link row: its references resolved through the foreign keys. */
  function View(l: Link, ps: seq<Product>, ms: seq<RawMaterial>): (a: ProductRawMaterial)
    ensures a.id == Some(l.id) && a.requiredQuantity == l.requiredQuantity
    ensures a.product == RowWithId(ps, IdOfProduct, l.productId)
    ensures a.rawMaterial == RowWithId(ms, IdOfRawMaterial, l.rawMaterialId)
  {
    ProductRawMaterial(Some(l.id), RowWithId(ps, IdOfProduct, l.productId),
                       RowWithId(ms, IdOfRawMaterial, l.rawMaterialId), l.requiredQuantity)
  }

  /** The primary keys present in a table. */
  function Ids<T>(table: seq<T>, idOf: T -> Option<Id>): (r: set<Option<Id>>)
    ensures forall i :: 0 <= i < |table| ==> idOf(table[i]) in r
    ensures forall k :: k in r ==> exists i :: 0 <= i < |table| && idOf(table[i]) == k
  {
    set i | 0 <= i < |table| :: idOf(table[i])
  }

  lemma RowWithIdFound<T>(table: seq<T>, idOf: T -> Option<Id>, id: Id)
    ensures RowWithId(table, idOf, id).Some? <==> Some(id) in Ids(table, idOf)
  {
  }

  lemma IdsOfAppend<T>(table: seq<T>, idOf: T -> Option<Id>, x: T)
    ensures Ids(table + [x], idOf) == Ids(table, idOf) + {idOf(x)}
  {
    var t := table + [x];
    assert forall k :: 0 <= k < |table| ==> t[k] == table[k];
    assert t[|table|] == x;
  }

  lemma IdsOfOverwrite<T>(table: seq<T>, idOf: T -> Option<Id>, i: nat, x: T)
    requires i < |table| && idOf(x) == idOf(table[i])
    ensures Ids(table[i := x], idOf) == Ids(table, idOf)
  {
    var t := table[i := x];
    assert forall k :: 0 <= k < |table| ==> idOf(t[k]) == idOf(table[k]);
  }

  /** Deleting rows removes only their keys: every key of a row that stays is still present. */
  lemma IdsOfWithout<T(!new)>(table: seq<T>, idOf: T -> Option<Id>, drop: T -> bool, key: Option<Id>)
    requires key in Ids(table, idOf)
    requires forall i :: 0 <= i < |table| && idOf(table[i]) == key ==> !drop(table[i])
    ensures key in Ids(Without(table, drop), idOf)
  {
    var i :| 0 <= i < |table| && idOf(table[i]) == key;
    var r := Without(table, drop);
    assert table[i] in r;
    var k :| 0 <= k < |r| && r[k] == table[i];
  }

  /** A row under the next key, appended, keeps the keys present, below the next bound and distinct. */
  lemma KeyedAppend<T>(table: seq<T>, idOf: T -> Option<Id>, n: Id, x: T)
    requires Keyed(table, idOf, n) && idOf(x) == Some(n)
    ensures Keyed(table + [x], idOf, n + 1)
  {
    var t := table + [x];
    assert forall k :: 0 <= k < |table| ==> t[k] == table[k];
  }

  /** Deleting rows keeps the remaining keys present, below the bound and distinct. */
  lemma KeyedWithout<T(!new)>(table: seq<T>, idOf: T -> Option<Id>, n: Id, drop: T -> bool)
    requires Keyed(table, idOf, n)
    ensures Keyed(Without(table, drop), idOf, n)
  {
    var r := Without(table, drop);
    WithoutKeepsPairs(table, drop, (a: T, b: T) => idOf(a) != idOf(b));
    forall i | 0 <= i < |r| ensures idOf(r[i]).Some? && idOf(r[i]).value < n {
      assert r[i] in table;
    }
  }

  /** Keys stay below a later value of the sequence. */
  lemma KeyedLater<T>(table: seq<T>, idOf: T -> Option<Id>, n: Id, n': Id)
    requires Keyed(table, idOf, n) && n <= n'
    ensures Keyed(table, idOf, n')
  {
  }

  /** Both foreign keys of a link name rows that exist. */
  ghost predicate Resolves(l: Link, ps: seq<Product>, ms: seq<RawMaterial>) {
    Some(l.productId) in Ids(ps, IdOfProduct) && Some(l.rawMaterialId) in Ids(ms, IdOfRawMaterial)
  }

  /** `product_raw_materials`: keyed, both foreign keys resolve, and the quantity is valid. */
  ghost predicate LinksValid(ls: seq<Link>, ps: seq<Product>, ms: seq<RawMaterial>, nextId: Id) {
    && Keyed(ls, IdOfLink, nextId)
    && (forall i, j :: 0 <= i < j < |ls| ==> DistinctLinks(ls[i], ls[j]))
    && (forall i :: 0 <= i < |ls| ==>
          Resolves(ls[i], ps, ms) && 0 < ls[i].requiredQuantity < REQUIRED_LIMIT)
  }

  /** Loaded through a valid link table, every association is a valid entity. */
  lemma ViewsValid(ls: seq<Link>, ps: seq<Product>, ms: seq<RawMaterial>, nextId: Id, i: nat)
    requires LinksValid(ls, ps, ms, nextId) && i < |ls|
    ensures ProductRawMaterialEntity.Violations(View(ls[i], ps, ms)) == []
    ensures ProductRawMaterialEntity.FitsColumns(View(ls[i], ps, ms))
  {
    RowWithIdFound(ps, IdOfProduct, ls[i].productId);
    RowWithIdFound(ms, IdOfRawMaterial, ls[i].rawMaterialId);
  }

  ghost predicate TablesValid(ps: seq<Product>, ms: seq<RawMaterial>, ls: seq<Link>, nextId: Id) {
    ProductsValid(ps, nextId) && RawMaterialsValid(ms, nextId) && LinksValid(ls, ps, ms, nextId)
  }

  class Store {
    var products: seq<Product>
    var rawMaterials: seq<RawMaterial>
    var links: seq<Link>
    /** The next value of the id sequence. */
    var nextId: Id

    ghost predicate Valid()
      reads this
    {
      TablesValid(products, rawMaterials, links, nextId)
    }

    constructor ()
      ensures Valid()
      ensures products == [] && rawMaterials == [] && links == [] && nextId == 1
    {
      products := [];
      rawMaterials := [];
      links := [];
      nextId := 1;
    }

    /** Every association as Hibernate loads it, in table order. */
    function Associations(): (r: seq<ProductRawMaterial>)
      reads this
      ensures |r| == |links| && forall i :: 0 <= i < |links| ==> r[i] == View(links[i], products, rawMaterials)
    {
      var ls, ps, ms := links, products, rawMaterials;
      seq(|ls|, i requires 0 <= i < |ls| => View(ls[i], ps, ms))
    }
  }
}

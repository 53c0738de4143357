/**
 * `ProductRawMaterialService`: association lookups and the three transactional writes. A
 * write checks that the product and the raw material it names exist, in that order; it does
 * not look for an existing association of the same pair.
 */
module ProductRawMaterialService {
  import opened Wrappers
  import opened Panache
  import opened Numeric
  import opened Text
  import ProductEntity
  import RawMaterialEntity
  import opened ProductRawMaterialEntity
  import opened ProductRawMaterialDTOs
  import opened Catalog
  import opened ServiceErrors
  import ProductService
  import RawMaterialService

  function NotFoundWithId(id: Id): Failure {
    NotFound("Product-RawMaterial association not found with id: " + IntToString(id))
  }

  /** `ProductRawMaterialDTO.fromEntity` of an association that is present. */
  function ToDTO(a: ProductRawMaterial): (d: ProductRawMaterialDTO)
    ensures Some(d) == FromEntity(Some(a))
  {
    FromEntity(Some(a)).value
  }

  /** `stream().map(ProductRawMaterialDTO::fromEntity)`, in list order. */
  function ToDTOs(rows: seq<ProductRawMaterial>): (r: seq<ProductRawMaterialDTO>)
    ensures |r| == |rows| && forall i :: 0 <= i < |rows| ==> r[i] == ToDTO(rows[i])
  {
    seq(|rows|, i requires 0 <= i < |rows| => ToDTO(rows[i]))
  }

  /** The DTO of the stored association `l`, as Hibernate loads it. */
  function LinkDTO(l: Link, ps: seq<ProductEntity.Product>, ms: seq<RawMaterialEntity.RawMaterial>): ProductRawMaterialDTO {
    ToDTO(View(l, ps, ms))
  }

  /** In a valid store, an association's DTO carries both ids and both names of the rows it names. */
  lemma LinkDTOResolves(ps: seq<ProductEntity.Product>, ms: seq<RawMaterialEntity.RawMaterial>, ls: seq<Link>, n: Id, i: nat)
    requires LinksValid(ls, ps, ms, n) && i < |ls|
    ensures var d := LinkDTO(ls[i], ps, ms);
            && d.id == Some(ls[i].id) && d.requiredQuantity == ls[i].requiredQuantity
            && d.productId == Some(ls[i].productId) && d.rawMaterialId == Some(ls[i].rawMaterialId)
            && d.productName == Some(RowWithId(ps, IdOfProduct, ls[i].productId).value.name)
            && d.rawMaterialName == Some(RowWithId(ms, IdOfRawMaterial, ls[i].rawMaterialId).value.name)
  {
    RowWithIdFound(ps, IdOfProduct, ls[i].productId);
    RowWithIdFound(ms, IdOfRawMaterial, ls[i].rawMaterialId);
  }

  /** `findAll`: one DTO per association, in table order. */
  function FindAll(db: Store): (r: seq<ProductRawMaterialDTO>)
    reads db
    ensures |r| == |db.links|
    ensures forall i :: 0 <= i < |r| ==> r[i] == LinkDTO(db.links[i], db.products, db.rawMaterials)
  {
    ToDTOs(db.Associations())
  }

  /** `findById`: the association with that id, or NotFound. */
  function FindById(db: Store, id: Id): (r: Result<ProductRawMaterialDTO, Failure>)
    reads db
    ensures r.Err? <==> forall i :: 0 <= i < |db.links| ==> db.links[i].id != id
    ensures r.Err? ==> r.error == NotFoundWithId(id)
    ensures r.Ok? ==> exists i :: 0 <= i < |db.links| && db.links[i].id == id
                                  && r.value == LinkDTO(db.links[i], db.products, db.rawMaterials)
  {
    match IndexOfId(db.links, IdOfLink, id)
    case None => Err(NotFoundWithId(id))
    case Some(i) => Ok(LinkDTO(db.links[i], db.products, db.rawMaterials))
  }

  /**
   * `findByProductId`: the DTOs of exactly the associations of that product: each one
   * returned names it, and in a valid store every association of it is returned.
   */
  function FindByProductId(db: Store, productId: Option<Id>): (r: seq<ProductRawMaterialDTO>)
    reads db
    ensures |r| <= |db.links|
    ensures r != [] ==> productId.Some?
    ensures forall i :: 0 <= i < |r| ==> r[i].productId == productId
    ensures forall i :: 0 <= i < |r| ==> r[i] in FindAll(db)
  {
    var all := db.Associations();
    var found := ProductRawMaterialEntity.FindByProductId(all, productId);
    var r := ToDTOs(found);
    MatchesAreMapped(all, found, r);
    FoundNameProduct(found, r, productId);
    r
  }

  /** In a valid store, `findByProductId` misses no association of that product. */
  lemma FindByProductIdComplete(db: Store, productId: Option<Id>)
    requires db.Valid()
    ensures forall k :: 0 <= k < |db.links| && productId == Some(db.links[k].productId) ==>
              LinkDTO(db.links[k], db.products, db.rawMaterials) in FindByProductId(db, productId)
  {
    var all := db.Associations();
    var found := ProductRawMaterialEntity.FindByProductId(all, productId);
    ProductMatchesFound(db.products, db.rawMaterials, db.links, db.nextId, all, found, ToDTOs(found), productId);
  }

  /** `findByRawMaterialId`: the DTOs of exactly the associations of that raw material. */
  function FindByRawMaterialId(db: Store, rawMaterialId: Option<Id>): (r: seq<ProductRawMaterialDTO>)
    reads db
    ensures |r| <= |db.links|
    ensures r != [] ==> rawMaterialId.Some?
    ensures forall i :: 0 <= i < |r| ==> r[i].rawMaterialId == rawMaterialId
    ensures forall i :: 0 <= i < |r| ==> r[i] in FindAll(db)
  {
    var all := db.Associations();
    var found := ProductRawMaterialEntity.FindByRawMaterialId(all, rawMaterialId);
    var r := ToDTOs(found);
    MatchesAreMapped(all, found, r);
    FoundNameRawMaterial(found, r, rawMaterialId);
    r
  }

  /** In a valid store, `findByRawMaterialId` misses no association of that raw material. */
  lemma FindByRawMaterialIdComplete(db: Store, rawMaterialId: Option<Id>)
    requires db.Valid()
    ensures forall k :: 0 <= k < |db.links| && rawMaterialId == Some(db.links[k].rawMaterialId) ==>
              LinkDTO(db.links[k], db.products, db.rawMaterials) in FindByRawMaterialId(db, rawMaterialId)
  {
    var all := db.Associations();
    var found := ProductRawMaterialEntity.FindByRawMaterialId(all, rawMaterialId);
    RawMaterialMatchesFound(db.products, db.rawMaterials, db.links, db.nextId, all, found, ToDTOs(found), rawMaterialId);
  }

  /** Every DTO of a filtered list is the DTO of some row of the whole list. */
  lemma MatchesAreMapped(all: seq<ProductRawMaterial>, found: seq<ProductRawMaterial>, r: seq<ProductRawMaterialDTO>)
    requires forall a :: a in found ==> a in all
    requires |r| == |found| && forall i :: 0 <= i < |found| ==> r[i] == ToDTO(found[i])
    ensures forall i :: 0 <= i < |r| ==> r[i] in ToDTOs(all)
  {
    var dtos := ToDTOs(all);
    forall i | 0 <= i < |r| ensures r[i] in dtos {
      assert found[i] in all;
      var k :| 0 <= k < |all| && all[k] == found[i];
      assert dtos[k] == r[i];
    }
  }

  lemma FoundNameProduct(found: seq<ProductRawMaterial>, r: seq<ProductRawMaterialDTO>, productId: Option<Id>)
    requires forall a :: a in found ==> OfProduct(a, productId)
    requires |r| == |found| && forall i :: 0 <= i < |found| ==> r[i] == ToDTO(found[i])
    ensures r != [] ==> productId.Some?
    ensures forall i :: 0 <= i < |r| ==> r[i].productId == productId
  {
    if r != [] {
      assert OfProduct(found[0], productId);
    }
    forall i | 0 <= i < |r| ensures r[i].productId == productId {
      assert OfProduct(found[i], productId);
    }
  }

  lemma FoundNameRawMaterial(found: seq<ProductRawMaterial>, r: seq<ProductRawMaterialDTO>, rawMaterialId: Option<Id>)
    requires forall a :: a in found ==> OfRawMaterial(a, rawMaterialId)
    requires |r| == |found| && forall i :: 0 <= i < |found| ==> r[i] == ToDTO(found[i])
    ensures r != [] ==> rawMaterialId.Some?
    ensures forall i :: 0 <= i < |r| ==> r[i].rawMaterialId == rawMaterialId
  {
    if r != [] {
      assert OfRawMaterial(found[0], rawMaterialId);
    }
    forall i | 0 <= i < |r| ensures r[i].rawMaterialId == rawMaterialId {
      assert OfRawMaterial(found[i], rawMaterialId);
    }
  }

  lemma ProductMatchesFound(ps: seq<ProductEntity.Product>, ms: seq<RawMaterialEntity.RawMaterial>, ls: seq<Link>, n: Id,
                            all: seq<ProductRawMaterial>, found: seq<ProductRawMaterial>, r: seq<ProductRawMaterialDTO>,
                            productId: Option<Id>)
    requires LinksValid(ls, ps, ms, n)
    requires |all| == |ls| && forall i :: 0 <= i < |ls| ==> all[i] == View(ls[i], ps, ms)
    requires forall a :: a in found <==> a in all && OfProduct(a, productId)
    requires |r| == |found| && forall i :: 0 <= i < |found| ==> r[i] == ToDTO(found[i])
    ensures forall k :: 0 <= k < |ls| && productId == Some(ls[k].productId) ==> LinkDTO(ls[k], ps, ms) in r
  {
    forall k | 0 <= k < |ls| && productId == Some(ls[k].productId) ensures LinkDTO(ls[k], ps, ms) in r {
      RowWithIdFound(ps, IdOfProduct, ls[k].productId);
      assert all[k] in found;
      var j :| 0 <= j < |found| && found[j] == all[k];
      assert r[j] == LinkDTO(ls[k], ps, ms);
    }
  }

  lemma RawMaterialMatchesFound(ps: seq<ProductEntity.Product>, ms: seq<RawMaterialEntity.RawMaterial>, ls: seq<Link>, n: Id,
                                all: seq<ProductRawMaterial>, found: seq<ProductRawMaterial>, r: seq<ProductRawMaterialDTO>,
                                rawMaterialId: Option<Id>)
    requires LinksValid(ls, ps, ms, n)
    requires |all| == |ls| && forall i :: 0 <= i < |ls| ==> all[i] == View(ls[i], ps, ms)
    requires forall a :: a in found <==> a in all && OfRawMaterial(a, rawMaterialId)
    requires |r| == |found| && forall i :: 0 <= i < |found| ==> r[i] == ToDTO(found[i])
    ensures forall k :: 0 <= k < |ls| && rawMaterialId == Some(ls[k].rawMaterialId) ==> LinkDTO(ls[k], ps, ms) in r
  {
    forall k | 0 <= k < |ls| && rawMaterialId == Some(ls[k].rawMaterialId) ensures LinkDTO(ls[k], ps, ms) in r {
      RowWithIdFound(ms, IdOfRawMaterial, ls[k].rawMaterialId);
      assert all[k] in found;
      var j :| 0 <= j < |found| && found[j] == all[k];
      assert r[j] == LinkDTO(ls[k], ps, ms);
    }
  }

  /** What `persist()` and the flush make of an association whose two references are set. */
  function PersistCheck(requiredQuantity: Qty): (r: Option<Failure>)
    ensures r.None? <==> 0 < requiredQuantity < REQUIRED_LIMIT
    ensures requiredQuantity <= 0 ==> r == Some(ConstraintViolation(["Required quantity must be positive"]))
    ensures requiredQuantity >= REQUIRED_LIMIT ==> r == Some(Persistence(COLUMN_OVERFLOW_MESSAGE))
  {
    if requiredQuantity <= 0 then Some(ConstraintViolation(["Required quantity must be positive"]))
    else if requiredQuantity >= REQUIRED_LIMIT then Some(Persistence(COLUMN_OVERFLOW_MESSAGE))
    else None
  }

  /**
   * `Product.findById(id)` for a nullable id: a null id is Hibernate's IllegalArgument,
   * an absent row is the service's NotFound.
   */
  function LoadProduct(ps: seq<ProductEntity.Product>, id: Option<Id>): (r: Result<ProductEntity.Product, Failure>)
    ensures id.None? ==> r == Err(IllegalArgument(NULL_ID_MESSAGE))
    ensures id.Some? ==> (r.Err? <==> forall i :: 0 <= i < |ps| ==> ps[i].id != id)
    ensures id.Some? && r.Err? ==> r.error == ProductService.NotFoundWithId(id.value)
    ensures r.Ok? ==> r.value in ps && r.value.id == id
  {
    if id.None? then Err(IllegalArgument(NULL_ID_MESSAGE))
    else match RowWithId(ps, IdOfProduct, id.value)
      case None => Err(ProductService.NotFoundWithId(id.value))
      case Some(p) => Ok(p)
  }

  /** `RawMaterial.findById(id)` for a nullable id. */
  function LoadRawMaterial(ms: seq<RawMaterialEntity.RawMaterial>, id: Option<Id>): (r: Result<RawMaterialEntity.RawMaterial, Failure>)
    ensures id.None? ==> r == Err(IllegalArgument(NULL_ID_MESSAGE))
    ensures id.Some? ==> (r.Err? <==> forall i :: 0 <= i < |ms| ==> ms[i].id != id)
    ensures id.Some? && r.Err? ==> r.error == RawMaterialService.NotFoundWithId(id.value)
    ensures r.Ok? ==> r.value in ms && r.value.id == id
  {
    if id.None? then Err(IllegalArgument(NULL_ID_MESSAGE))
    else match RowWithId(ms, IdOfRawMaterial, id.value)
      case None => Err(RawMaterialService.NotFoundWithId(id.value))
      case Some(m) => Ok(m)
  }

  /** The key of a row found by its key is in the table's key set. */
  lemma FoundIsKey<T>(table: seq<T>, idOf: T -> Option<Id>, x: T)
    requires x in table
    ensures idOf(x) in Ids(table, idOf)
  {
    var i :| 0 <= i < |table| && table[i] == x;
  }

  /** A new association under the next id, naming existing rows, keeps the tables valid. */
  lemma AppendLinkKeepsValid(ps: seq<ProductEntity.Product>, ms: seq<RawMaterialEntity.RawMaterial>, ls: seq<Link>, n: Id, l: Link)
    requires TablesValid(ps, ms, ls, n)
    requires l.id == n && Resolves(l, ps, ms) && 0 < l.requiredQuantity < REQUIRED_LIMIT
    ensures TablesValid(ps, ms, ls + [l], n + 1)
  {
    var ls' := ls + [l];
    KeyedLater(ps, IdOfProduct, n, n + 1);
    KeyedLater(ms, IdOfRawMaterial, n, n + 1);
    KeyedAppend(ls, IdOfLink, n, l);
    forall j, k | 0 <= j < k < |ls'| ensures DistinctLinks(ls'[j], ls'[k]) {
      if k < |ls| {
        assert DistinctLinks(ls[j], ls[k]);
      } else {
        assert ls'[j].id < n;
      }
    }
    assert forall k :: 0 <= k < |ls'| ==> Resolves(ls'[k], ps, ms) && 0 < ls'[k].requiredQuantity < REQUIRED_LIMIT by {
      forall k | 0 <= k < |ls'| ensures Resolves(ls'[k], ps, ms) && 0 < ls'[k].requiredQuantity < REQUIRED_LIMIT {
        if k < |ls| { assert ls'[k] == ls[k]; }
      }
    }
  }

  /** Overwriting an association, keeping its id and naming existing rows, keeps the tables valid. */
  lemma OverwriteLinkKeepsValid(ps: seq<ProductEntity.Product>, ms: seq<RawMaterialEntity.RawMaterial>, ls: seq<Link>, n: Id, i: nat, l: Link)
    requires TablesValid(ps, ms, ls, n) && i < |ls|
    requires l.id == ls[i].id && Resolves(l, ps, ms) && 0 < l.requiredQuantity < REQUIRED_LIMIT
    ensures TablesValid(ps, ms, ls[i := l], n)
  {
    var ls' := ls[i := l];
    forall j, k | 0 <= j < k < |ls'| ensures IdOfLink(ls'[j]) != IdOfLink(ls'[k]) && DistinctLinks(ls'[j], ls'[k]) {
      if j != i && k != i {
        assert DistinctLinks(ls[j], ls[k]);
      } else if j == i {
        assert DistinctLinks(ls[i], ls[k]);
      } else {
        assert DistinctLinks(ls[j], ls[i]);
      }
    }
    assert forall k :: 0 <= k < |ls'| ==> IdOfLink(ls'[k]).Some? && IdOfLink(ls'[k]).value < n by {
      forall k | 0 <= k < |ls'| ensures IdOfLink(ls'[k]).Some? && IdOfLink(ls'[k]).value < n {
        if k != i { assert ls'[k] == ls[k]; }
      }
    }
  }

  function IsLink(id: Id): Link -> bool {
    (l: Link) => l.id == id
  }

  /** Removing an association keeps the tables valid. */
  lemma RemoveLinkKeepsValid(ps: seq<ProductEntity.Product>, ms: seq<RawMaterialEntity.RawMaterial>, ls: seq<Link>, n: Id, id: Id)
    requires TablesValid(ps, ms, ls, n)
    ensures TablesValid(ps, ms, Without(ls, IsLink(id)), n)
  {
    var ls' := Without(ls, IsLink(id));
    KeyedWithout(ls, IdOfLink, n, IsLink(id));
    WithoutKeepsPairs(ls, IsLink(id), DistinctLinks);
    assert forall i :: 0 <= i < |ls'| ==> ls'[i] in ls;
  }

  /**
   * `create`: the product is loaded first, then the raw material (a null id is an
   * IllegalArgument, an absent row NotFound); the new association is validated and stored
   * under the next id. An association of the same pair may already exist.
   */
  method Create(db: Store, dto: ProductRawMaterialDTO) returns (r: Result<ProductRawMaterialDTO, Failure>)
    requires db.Valid()
    modifies db
    ensures db.Valid()
    ensures r.Err? ==> unchanged(db)
    ensures var product := LoadProduct(old(db.products), dto.productId);
            var rawMaterial := LoadRawMaterial(old(db.rawMaterials), dto.rawMaterialId);
            && (product.Err? ==> r == Err(product.error))
            && (product.Ok? && rawMaterial.Err? ==> r == Err(rawMaterial.error))
            && (product.Ok? && rawMaterial.Ok? && PersistCheck(dto.requiredQuantity).Some? ==>
                  r == Err(PersistCheck(dto.requiredQuantity).value))
            && (r.Ok? <==> product.Ok? && rawMaterial.Ok? && PersistCheck(dto.requiredQuantity).None?)
            && (r.Ok? ==>
                  var created := Link(old(db.nextId), dto.productId.value, dto.rawMaterialId.value, dto.requiredQuantity);
                  && db.links == old(db.links) + [created]
                  && db.products == old(db.products) && db.rawMaterials == old(db.rawMaterials)
                  && db.nextId == old(db.nextId) + 1
                  && r.value == ProductRawMaterialDTO(Some(created.id), dto.productId, dto.rawMaterialId, dto.requiredQuantity,
                                                      Some(product.value.name), Some(rawMaterial.value.name)))
  {
    var product := LoadProduct(db.products, dto.productId);
    if product.Err? {
      return Err(product.error);
    }
    var rawMaterial := LoadRawMaterial(db.rawMaterials, dto.rawMaterialId);
    if rawMaterial.Err? {
      return Err(rawMaterial.error);
    }
    var failure := PersistCheck(dto.requiredQuantity);
    if failure.Some? {
      return Err(failure.value);
    }
    var prm := ProductRawMaterial(Some(db.nextId), Some(product.value), Some(rawMaterial.value), dto.requiredQuantity);
    var link := Link(db.nextId, dto.productId.value, dto.rawMaterialId.value, dto.requiredQuantity);
    FoundIsKey(db.products, IdOfProduct, product.value);
    FoundIsKey(db.rawMaterials, IdOfRawMaterial, rawMaterial.value);
    AppendLinkKeepsValid(db.products, db.rawMaterials, db.links, db.nextId, link);
    AddLink(db, link);
    r := Ok(ToDTO(prm));
  }

  /** The committed write of `create`: the association is appended and the id sequence advances. */
  method AddLink(db: Store, link: Link)
    requires TablesValid(db.products, db.rawMaterials, db.links + [link], db.nextId + 1)
    modifies db
    ensures db.Valid()
    ensures db.links == old(db.links) + [link] && db.nextId == old(db.nextId) + 1
    ensures db.products == old(db.products) && db.rawMaterials == old(db.rawMaterials)
  {
    db.links := db.links + [link];
    db.nextId := db.nextId + 1;
  }

  /**
   * Lines 74-90 of `update` on the association `current`: the product is loaded only when
   * the DTO's product id differs from the current one, then likewise the raw material; the
   * required quantity is always overwritten and checked when the change is flushed.
   */
  function Relinked(current: Link, ps: seq<ProductEntity.Product>, ms: seq<RawMaterialEntity.RawMaterial>,
                    dto: ProductRawMaterialDTO): (r: Result<Link, Failure>)
    ensures r.Ok? ==> dto.productId.Some? && dto.rawMaterialId.Some?
    ensures r.Ok? ==> r.value == Link(current.id, dto.productId.value, dto.rawMaterialId.value, dto.requiredQuantity)
    ensures r.Ok? && Resolves(current, ps, ms) ==> Resolves(r.value, ps, ms) && 0 < r.value.requiredQuantity < REQUIRED_LIMIT
  {
    var product := LoadProduct(ps, dto.productId);
    var rawMaterial := LoadRawMaterial(ms, dto.rawMaterialId);
    if dto.productId != Some(current.productId) && product.Err? then Err(product.error)
    else if dto.rawMaterialId != Some(current.rawMaterialId) && rawMaterial.Err? then Err(rawMaterial.error)
    else if PersistCheck(dto.requiredQuantity).Some? then Err(PersistCheck(dto.requiredQuantity).value)
    else
      assert product.Ok? ==> Some(product.value.id.value) in Ids(ps, IdOfProduct) by {
        if product.Ok? { FoundIsKey(ps, IdOfProduct, product.value); }
      }
      assert rawMaterial.Ok? ==> Some(rawMaterial.value.id.value) in Ids(ms, IdOfRawMaterial) by {
        if rawMaterial.Ok? { FoundIsKey(ms, IdOfRawMaterial, rawMaterial.value); }
      }
      Ok(Link(current.id, dto.productId.value, dto.rawMaterialId.value, dto.requiredQuantity))
  }

  /** A successful re-pointing keeps the tables valid. */
  lemma RelinkKeepsValid(ps: seq<ProductEntity.Product>, ms: seq<RawMaterialEntity.RawMaterial>, ls: seq<Link>, n: Id, i: nat,
                         dto: ProductRawMaterialDTO)
    requires TablesValid(ps, ms, ls, n) && i < |ls| && Relinked(ls[i], ps, ms, dto).Ok?
    ensures TablesValid(ps, ms, ls[i := Relinked(ls[i], ps, ms, dto).value], n)
  {
    assert Resolves(ls[i], ps, ms);
    OverwriteLinkKeepsValid(ps, ms, ls, n, i, Relinked(ls[i], ps, ms, dto).value);
  }

  /**
   * Which failure `update` raises: a changed product id that does not load, then a changed
   * raw-material id that does not load, then an invalid quantity; an unchanged id is never
   * looked up.
   */
  lemma RelinkedFailures(current: Link, ps: seq<ProductEntity.Product>, ms: seq<RawMaterialEntity.RawMaterial>,
                         dto: ProductRawMaterialDTO)
    ensures var r := Relinked(current, ps, ms, dto);
            var productChanged := dto.productId != Some(current.productId);
            var rawMaterialChanged := dto.rawMaterialId != Some(current.rawMaterialId);
            var product := LoadProduct(ps, dto.productId);
            var rawMaterial := LoadRawMaterial(ms, dto.rawMaterialId);
            var productOk := !productChanged || product.Ok?;
            var rawMaterialOk := !rawMaterialChanged || rawMaterial.Ok?;
            && (productChanged && product.Err? ==> r == Err(product.error))
            && (productOk && rawMaterialChanged && rawMaterial.Err? ==> r == Err(rawMaterial.error))
            && (productOk && rawMaterialOk && PersistCheck(dto.requiredQuantity).Some? ==>
                  r == Err(PersistCheck(dto.requiredQuantity).value))
            && (r.Ok? <==> productOk && rawMaterialOk && PersistCheck(dto.requiredQuantity).None?)
  {
  }

  /**
   * `update`: NotFound for an absent id; otherwise the association is re-pointed and its
   * quantity overwritten as `Relinked` says, keeping its id; no other association changes.
   */
  method Update(db: Store, id: Id, dto: ProductRawMaterialDTO) returns (r: Result<ProductRawMaterialDTO, Failure>)
    requires db.Valid()
    modifies db
    ensures db.Valid()
    ensures r.Err? ==> unchanged(db)
    ensures IndexOfId(old(db.links), IdOfLink, id).None? ==> r == Err(NotFoundWithId(id))
    ensures IndexOfId(old(db.links), IdOfLink, id).Some? ==>
              var i := IndexOfId(old(db.links), IdOfLink, id).value;
              var res := Relinked(old(db.links)[i], old(db.products), old(db.rawMaterials), dto);
              && (res.Err? ==> r == Err(res.error))
              && (res.Ok? ==>
                    && r == Ok(LinkDTO(res.value, db.products, db.rawMaterials))
                    && db.links == old(db.links)[i := res.value]
                    && db.products == old(db.products) && db.rawMaterials == old(db.rawMaterials)
                    && db.nextId == old(db.nextId))
  {
    var index := IndexOfId(db.links, IdOfLink, id);
    if index.None? {
      return Err(NotFoundWithId(id));
    }
    var i := index.value;
    var link := Relinked(db.links[i], db.products, db.rawMaterials, dto);
    if link.Err? {
      return Err(link.error);
    }
    RelinkKeepsValid(db.products, db.rawMaterials, db.links, db.nextId, i, dto);
    ReplaceLink(db, i, link.value);
    r := Ok(LinkDTO(link.value, db.products, db.rawMaterials));
  }

  /** The committed write of `update`: the association at `i` is overwritten in place. */
  method ReplaceLink(db: Store, i: nat, link: Link)
    requires i < |db.links| && TablesValid(db.products, db.rawMaterials, db.links[i := link], db.nextId)
    modifies db
    ensures db.Valid()
    ensures db.links == old(db.links)[i := link]
    ensures db.products == old(db.products) && db.rawMaterials == old(db.rawMaterials) && db.nextId == old(db.nextId)
  {
    db.links := db.links[i := link];
  }

  /** `delete`: NotFound for an absent id; otherwise exactly that association goes. */
  method Delete(db: Store, id: Id) returns (failure: Option<Failure>)
    requires db.Valid()
    modifies db
    ensures db.Valid()
    ensures failure.Some? ==> unchanged(db)
    ensures failure.Some? <==> forall i :: 0 <= i < |old(db.links)| ==> old(db.links)[i].id != id
    ensures failure.Some? ==> failure.value == NotFoundWithId(id)
    ensures failure.None? ==>
              && db.links == Without(old(db.links), IsLink(id))
              && (forall l :: l in db.links <==> l in old(db.links) && l.id != id)
              && db.products == old(db.products) && db.rawMaterials == old(db.rawMaterials)
              && db.nextId == old(db.nextId)
  {
    var index := IndexOfId(db.links, IdOfLink, id);
    if index.None? {
      return Some(NotFoundWithId(id));
    }
    RemoveLinkKeepsValid(db.products, db.rawMaterials, db.links, db.nextId, id);
    var links := Without(db.links, IsLink(id));
    db.links := links;
    failure := None;
  }
}

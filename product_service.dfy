/**
 * `ProductService`: product lookups and the three transactional writes. Each write either
 * fails and leaves the store as it was (the transaction rolls back) or commits in full.
 */
module ProductService {
  import opened Wrappers
  import opened Panache
  import opened Text
  import opened ProductEntity
  import opened ProductDTOs
  import RawMaterialEntity
  import ProductRawMaterialEntity
  import opened Catalog
  import opened ServiceErrors

  function NotFoundWithId(id: Id): Failure {
    NotFound("Product not found with id: " + IntToString(id))
  }

  function NotFoundWithCode(code: string): Failure {
    NotFound("Product not found with code: " + code)
  }

  function CodeInUse(code: string): Failure {
    Conflict("Product with code " + code + " already exists")
  }

  /** What `persist()` and the flush make of a product: a violated constraint, a column overflow, or success. */
  function PersistCheck(p: Product): (r: Option<Failure>)
    ensures r.None? <==> ProductEntity.Valid(p)
    ensures ProductEntity.Violations(p) != [] ==> r == Some(ConstraintViolation(ProductEntity.Violations(p)))
    ensures ProductEntity.Violations(p) == [] && !ProductEntity.FitsColumns(p) ==> r == Some(Persistence(COLUMN_OVERFLOW_MESSAGE))
  {
    if ProductEntity.Violations(p) != [] then Some(ConstraintViolation(ProductEntity.Violations(p)))
    else if !ProductEntity.FitsColumns(p) then Some(Persistence(COLUMN_OVERFLOW_MESSAGE))
    else None
  }

  function ToDTO(p: Product): (d: ProductDTO)
    ensures ToEntity(d) == p
  {
    FromEntity(Some(p)).value
  }

  /** `findAll`: one DTO per row, in table order, each converting back to its row. */
  function FindAll(db: Store): (r: seq<ProductDTO>)
    reads db
    ensures |r| == |db.products|
    ensures forall i :: 0 <= i < |r| ==> ToEntity(r[i]) == db.products[i]
  {
    var ps := db.products;
    seq(|ps|, i requires 0 <= i < |ps| => ToDTO(ps[i]))
  }

  /** `findById`: the row with that id, or NotFound. */
  function FindById(db: Store, id: Id): (r: Result<ProductDTO, Failure>)
    reads db
    ensures r.Err? <==> forall i :: 0 <= i < |db.products| ==> db.products[i].id != Some(id)
    ensures r.Err? ==> r.error == NotFoundWithId(id)
    ensures r.Ok? ==> ToEntity(r.value) in db.products && r.value.id == Some(id)
  {
    match RowWithId(db.products, IdOfProduct, id)
    case None => Err(NotFoundWithId(id))
    case Some(p) => Ok(ToDTO(p))
  }

  /** `findByCode`: the row with that code, or NotFound. */
  function FindByCode(db: Store, code: string): (r: Result<ProductDTO, Failure>)
    reads db
    ensures r.Err? <==> forall i :: 0 <= i < |db.products| ==> db.products[i].code != code
    ensures r.Err? ==> r.error == NotFoundWithCode(code)
    ensures r.Ok? ==> ToEntity(r.value) in db.products && r.value.code == code
  {
    match ProductEntity.FindByCode(db.products, code)
    case None => Err(NotFoundWithCode(code))
    case Some(p) => Ok(ToDTO(p))
  }

  /** `findByCode` finds a row whose code no other row shares. */
  lemma FindByCodeFindsTheOwner(ps: seq<Product>, i: nat)
    requires forall j, k :: 0 <= j < k < |ps| ==> DistinctProducts(ps[j], ps[k])
    requires i < |ps|
    ensures ProductEntity.FindByCode(ps, ps[i].code) == Some(ps[i])
  {
    var r := ProductEntity.FindByCode(ps, ps[i].code);
    var k :| 0 <= k < |ps| && ps[k] == r.value && r.value.code == ps[i].code
             && forall j :: 0 <= j < k ==> ps[j].code != ps[i].code;
  }

  /** A new row under the next id, with a code no row has, keeps the tables valid. */
  lemma CreateKeepsValid(ps: seq<Product>, ms: seq<RawMaterialEntity.RawMaterial>, ls: seq<Link>, n: Id, p: Product)
    requires TablesValid(ps, ms, ls, n)
    requires p.id == Some(n) && ProductEntity.Valid(p) && ProductEntity.FindByCode(ps, p.code).None?
    ensures TablesValid(ps + [p], ms, ls, n + 1)
    ensures ProductEntity.FindByCode(ps + [p], p.code) == Some(p)
  {
    AppendKeepsProducts(ps, n, p);
    IdsOfAppend(ps, IdOfProduct, p);
    KeyedLater(ms, IdOfRawMaterial, n, n + 1);
    KeyedLater(ls, IdOfLink, n, n + 1);
    FindByCodeFindsTheOwner(ps + [p], |ps|);
  }

  lemma AppendKeepsProducts(ps: seq<Product>, n: Id, p: Product)
    requires ProductsValid(ps, n)
    requires p.id == Some(n) && ProductEntity.Valid(p) && ProductEntity.FindByCode(ps, p.code).None?
    ensures ProductsValid(ps + [p], n + 1)
  {
    var ps' := ps + [p];
    KeyedAppend(ps, IdOfProduct, n, p);
    forall j, k | 0 <= j < k < |ps'| ensures DistinctProducts(ps'[j], ps'[k]) {
      if k < |ps| {
        assert DistinctProducts(ps[j], ps[k]);
      } else {
        assert ps'[j].id.value < n && ps'[j].code != p.code;
      }
    }
    assert forall k :: 0 <= k < |ps'| ==> ProductEntity.Valid(ps'[k]) by {
      forall k | 0 <= k < |ps'| ensures ProductEntity.Valid(ps'[k]) {
        if k < |ps| { assert ps'[k] == ps[k]; }
      }
    }
  }

  /** Overwriting a row's columns, keeping its id and a code no other row has, keeps the tables valid. */
  lemma OverwriteKeepsValid(ps: seq<Product>, ms: seq<RawMaterialEntity.RawMaterial>, ls: seq<Link>, n: Id, i: nat, p: Product)
    requires TablesValid(ps, ms, ls, n) && i < |ps|
    requires p.id == ps[i].id && ProductEntity.Valid(p)
    requires p.code == ps[i].code || ProductEntity.FindByCode(ps, p.code).None?
    ensures TablesValid(ps[i := p], ms, ls, n)
  {
    OverwriteKeepsProducts(ps, n, i, p);
    IdsOfOverwrite(ps, IdOfProduct, i, p);
  }

  lemma OverwriteKeepsProducts(ps: seq<Product>, n: Id, i: nat, p: Product)
    requires ProductsValid(ps, n) && i < |ps|
    requires p.id == ps[i].id && ProductEntity.Valid(p)
    requires p.code == ps[i].code || ProductEntity.FindByCode(ps, p.code).None?
    ensures ProductsValid(ps[i := p], n)
  {
    var ps' := ps[i := p];
    forall j, k | 0 <= j < k < |ps'| ensures DistinctProducts(ps'[j], ps'[k]) {
      if j != i && k != i {
        assert DistinctProducts(ps[j], ps[k]);
      } else if j == i {
        assert DistinctProducts(ps[i], ps[k]);
      } else {
        assert DistinctProducts(ps[j], ps[i]);
      }
    }
  }

  function IsProduct(id: Id): Product -> bool {
    (p: Product) => p.id == Some(id)
  }

  function OfProductId(id: Id): Link -> bool {
    (l: Link) => l.productId == id
  }

  /** Removing a product together with its links keeps the tables valid. */
  lemma CascadeKeepsValid(ps: seq<Product>, ms: seq<RawMaterialEntity.RawMaterial>, ls: seq<Link>, n: Id, id: Id)
    requires TablesValid(ps, ms, ls, n)
    ensures TablesValid(Without(ps, IsProduct(id)), ms, Without(ls, OfProductId(id)), n)
  {
    CascadeKeepsProducts(ps, n, id);
    CascadeKeepsLinks(ps, ms, ls, n, id);
  }

  lemma CascadeKeepsProducts(ps: seq<Product>, n: Id, id: Id)
    requires ProductsValid(ps, n)
    ensures ProductsValid(Without(ps, IsProduct(id)), n)
  {
    var ps' := Without(ps, IsProduct(id));
    KeyedWithout(ps, IdOfProduct, n, IsProduct(id));
    WithoutKeepsPairs(ps, IsProduct(id), DistinctProducts);
    assert forall i :: 0 <= i < |ps'| ==> ps'[i] in ps;
  }

  lemma CascadeKeepsLinks(ps: seq<Product>, ms: seq<RawMaterialEntity.RawMaterial>, ls: seq<Link>, n: Id, id: Id)
    requires LinksValid(ls, ps, ms, n)
    ensures LinksValid(Without(ls, OfProductId(id)), Without(ps, IsProduct(id)), ms, n)
  {
    var ps', ls' := Without(ps, IsProduct(id)), Without(ls, OfProductId(id));
    KeyedWithout(ls, IdOfLink, n, OfProductId(id));
    WithoutKeepsPairs(ls, OfProductId(id), DistinctLinks);
    forall i | 0 <= i < |ls'| ensures Resolves(ls'[i], ps', ms) && 0 < ls'[i].requiredQuantity < ProductRawMaterialEntity.REQUIRED_LIMIT {
      assert ls'[i] in ls;
      IdsOfWithout(ps, IdOfProduct, IsProduct(id), Some(ls'[i].productId));
    }
  }

  /**
   * `create`: a code already in use is a Conflict; otherwise the new row is validated and
   * stored under the next id, and `findByCode` then finds it.
   */
  method Create(db: Store, dto: ProductDTO) returns (r: Result<ProductDTO, Failure>)
    requires db.Valid()
    modifies db
    ensures db.Valid()
    ensures r.Err? ==> unchanged(db)
    ensures ProductEntity.FindByCode(old(db.products), dto.code).Some? ==> r == Err(CodeInUse(dto.code))
    ensures ProductEntity.FindByCode(old(db.products), dto.code).None? ==>
              var check := PersistCheck(Product(None, dto.code, dto.name, dto.value));
              check.Some? ==> r == Err(check.value)
    ensures var created := Product(Some(old(db.nextId)), dto.code, dto.name, dto.value);
            && (r.Ok? <==> ProductEntity.FindByCode(old(db.products), dto.code).None? && ProductEntity.Valid(created))
            && (r.Ok? ==>
                  && r.value == ProductDTO(Some(old(db.nextId)), dto.code, dto.name, dto.value)
                  && db.products == old(db.products) + [created]
                  && db.rawMaterials == old(db.rawMaterials) && db.links == old(db.links)
                  && db.nextId == old(db.nextId) + 1
                  && ProductEntity.FindByCode(db.products, dto.code) == Some(created))
  {
    var existing := ProductEntity.FindByCode(db.products, dto.code);
    if existing.Some? {
      return Err(CodeInUse(dto.code));
    }
    var product := Product(None, dto.code, dto.name, dto.value);
    var failure := PersistCheck(product);
    if failure.Some? {
      return Err(failure.value);
    }
    product := product.(id := Some(db.nextId));
    CreateKeepsValid(db.products, db.rawMaterials, db.links, db.nextId, product);
    db.products := db.products + [product];
    db.nextId := db.nextId + 1;
    r := Ok(ToDTO(product));
  }

  /**
   * `update`: NotFound for an absent id; Conflict when the code changes to one another row
   * owns (keeping one's own code is always allowed); otherwise code, name and value are
   * overwritten in place, the id kept, and no other row changes.
   */
  method Update(db: Store, id: Id, dto: ProductDTO) returns (r: Result<ProductDTO, Failure>)
    requires db.Valid()
    modifies db
    ensures db.Valid()
    ensures r.Err? ==> unchanged(db)
    ensures IndexOfId(old(db.products), IdOfProduct, id).None? ==> r == Err(NotFoundWithId(id))
    ensures IndexOfId(old(db.products), IdOfProduct, id).Some? ==>
              var i := IndexOfId(old(db.products), IdOfProduct, id).value;
              var row := Product(Some(id), dto.code, dto.name, dto.value);
              && ((old(db.products)[i].code != dto.code && ProductEntity.FindByCode(old(db.products), dto.code).Some?)
                  ==> r == Err(CodeInUse(dto.code)))
              && (r.Ok? <==> (old(db.products)[i].code == dto.code || ProductEntity.FindByCode(old(db.products), dto.code).None?)
                             && ProductEntity.Valid(row))
              && (r.Ok? ==>
                    && r.value == ProductDTO(Some(id), dto.code, dto.name, dto.value)
                    && db.products == old(db.products)[i := row]
                    && db.rawMaterials == old(db.rawMaterials) && db.links == old(db.links)
                    && db.nextId == old(db.nextId))
  {
    var index := IndexOfId(db.products, IdOfProduct, id);
    if index.None? {
      return Err(NotFoundWithId(id));
    }
    var i := index.value;
    var product := db.products[i];
    if product.code != dto.code {
      var existing := ProductEntity.FindByCode(db.products, dto.code);
      if existing.Some? && existing.value.id != Some(id) {
        return Err(CodeInUse(dto.code));
      }
    }
    product := Product(Some(id), dto.code, dto.name, dto.value);
    var failure := PersistCheck(product);
    if failure.Some? {
      return Err(failure.value);
    }
    OverwriteKeepsValid(db.products, db.rawMaterials, db.links, db.nextId, i, product);
    db.products := db.products[i := product];
    r := Ok(ToDTO(product));
  }

  /**
   * `delete`: NotFound for an absent id; otherwise the row goes, and with it (cascade,
   * orphan removal) every association of that product. Nothing else changes.
   */
  method Delete(db: Store, id: Id) returns (failure: Option<Failure>)
    requires db.Valid()
    modifies db
    ensures db.Valid()
    ensures failure.Some? ==> unchanged(db)
    ensures failure.Some? <==> forall i :: 0 <= i < |old(db.products)| ==> old(db.products)[i].id != Some(id)
    ensures failure.Some? ==> failure.value == NotFoundWithId(id)
    ensures failure.None? ==>
              && db.products == Without(old(db.products), IsProduct(id))
              && db.links == Without(old(db.links), OfProductId(id))
              && (forall p :: p in db.products <==> p in old(db.products) && p.id != Some(id))
              && (forall l :: l in db.links <==> l in old(db.links) && l.productId != id)
              && db.rawMaterials == old(db.rawMaterials) && db.nextId == old(db.nextId)
  {
    var row := RowWithId(db.products, IdOfProduct, id);
    if row.None? {
      return Some(NotFoundWithId(id));
    }
    CascadeKeepsValid(db.products, db.rawMaterials, db.links, db.nextId, id);
    RemoveRows(db, Without(db.products, IsProduct(id)), Without(db.links, OfProductId(id)));
    failure := None;
  }

  /** The committed write of `delete`: the product table and the association table are replaced. */
  method RemoveRows(db: Store, products: seq<Product>, links: seq<Link>)
    requires TablesValid(products, db.rawMaterials, links, db.nextId)
    modifies db
    ensures db.Valid()
    ensures db.products == products && db.links == links
    ensures db.rawMaterials == old(db.rawMaterials) && db.nextId == old(db.nextId)
  {
    db.products, db.links := products, links;
  }
}

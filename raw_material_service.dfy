/**
 * `RawMaterialService`: raw-material lookups and the three transactional writes. Each write
 * either fails and leaves the store as it was (the transaction rolls back) or commits in full.
 * A raw material owns no association collection, so deleting one that an association still
 * names is refused by the database's foreign key rather than cascaded.
 */
module RawMaterialService {
  import opened Wrappers
  import opened Panache
  import opened Text
  import opened RawMaterialEntity
  import opened RawMaterialDTOs
  import ProductEntity
  import ProductRawMaterialEntity
  import opened Catalog
  import opened ServiceErrors

  function NotFoundWithId(id: Id): Failure {
    NotFound("Raw material not found with id: " + IntToString(id))
  }

  function NotFoundWithCode(code: string): Failure {
    NotFound("Raw material not found with code: " + code)
  }

  function CodeInUse(code: string): Failure {
    Conflict("Raw material with code " + code + " already exists")
  }

  /** What `persist()` and the flush make of a raw material: a violated constraint, a column overflow, or success. */
  function PersistCheck(m: RawMaterial): (r: Option<Failure>)
    ensures r.None? <==> RawMaterialEntity.Valid(m)
    ensures RawMaterialEntity.Violations(m) != [] ==> r == Some(ConstraintViolation(RawMaterialEntity.Violations(m)))
    ensures RawMaterialEntity.Violations(m) == [] && !RawMaterialEntity.FitsColumns(m) ==> r == Some(Persistence(COLUMN_OVERFLOW_MESSAGE))
  {
    if RawMaterialEntity.Violations(m) != [] then Some(ConstraintViolation(RawMaterialEntity.Violations(m)))
    else if !RawMaterialEntity.FitsColumns(m) then Some(Persistence(COLUMN_OVERFLOW_MESSAGE))
    else None
  }

  function ToDTO(m: RawMaterial): (d: RawMaterialDTO)
    ensures ToEntity(d) == m
  {
    FromEntity(Some(m)).value
  }

  /** `findAll`: one DTO per row, in table order, each converting back to its row. */
  function FindAll(db: Store): (r: seq<RawMaterialDTO>)
    reads db
    ensures |r| == |db.rawMaterials|
    ensures forall i :: 0 <= i < |r| ==> ToEntity(r[i]) == db.rawMaterials[i]
  {
    var ms := db.rawMaterials;
    seq(|ms|, i requires 0 <= i < |ms| => ToDTO(ms[i]))
  }

  /** `findById`: the row with that id, or NotFound. */
  function FindById(db: Store, id: Id): (r: Result<RawMaterialDTO, Failure>)
    reads db
    ensures r.Err? <==> forall i :: 0 <= i < |db.rawMaterials| ==> db.rawMaterials[i].id != Some(id)
    ensures r.Err? ==> r.error == NotFoundWithId(id)
    ensures r.Ok? ==> ToEntity(r.value) in db.rawMaterials && r.value.id == Some(id)
  {
    match RowWithId(db.rawMaterials, IdOfRawMaterial, id)
    case None => Err(NotFoundWithId(id))
    case Some(m) => Ok(ToDTO(m))
  }

  /** `findByCode`: the row with that code, or NotFound. */
  function FindByCode(db: Store, code: string): (r: Result<RawMaterialDTO, Failure>)
    reads db
    ensures r.Err? <==> forall i :: 0 <= i < |db.rawMaterials| ==> db.rawMaterials[i].code != code
    ensures r.Err? ==> r.error == NotFoundWithCode(code)
    ensures r.Ok? ==> ToEntity(r.value) in db.rawMaterials && r.value.code == code
  {
    match RawMaterialEntity.FindByCode(db.rawMaterials, code)
    case None => Err(NotFoundWithCode(code))
    case Some(m) => Ok(ToDTO(m))
  }

  /** `findByCode` finds a row whose code no other row shares. */
  lemma FindByCodeFindsTheOwner(ms: seq<RawMaterial>, i: nat)
    requires forall j, k :: 0 <= j < k < |ms| ==> DistinctRawMaterials(ms[j], ms[k])
    requires i < |ms|
    ensures RawMaterialEntity.FindByCode(ms, ms[i].code) == Some(ms[i])
  {
    var r := RawMaterialEntity.FindByCode(ms, ms[i].code);
    var k :| 0 <= k < |ms| && ms[k] == r.value;
  }

  lemma AppendKeepsRawMaterials(ms: seq<RawMaterial>, n: Id, m: RawMaterial)
    requires RawMaterialsValid(ms, n)
    requires m.id == Some(n) && RawMaterialEntity.Valid(m) && RawMaterialEntity.FindByCode(ms, m.code).None?
    ensures RawMaterialsValid(ms + [m], n + 1)
  {
    var ms' := ms + [m];
    KeyedAppend(ms, IdOfRawMaterial, n, m);
    forall j, k | 0 <= j < k < |ms'| ensures DistinctRawMaterials(ms'[j], ms'[k]) {
      if k < |ms| {
        assert DistinctRawMaterials(ms[j], ms[k]);
      } else {
        assert ms'[j].id.value < n && ms'[j].code != m.code;
      }
    }
    assert forall k :: 0 <= k < |ms'| ==> RawMaterialEntity.Valid(ms'[k]) by {
      forall k | 0 <= k < |ms'| ensures RawMaterialEntity.Valid(ms'[k]) {
        if k < |ms| { assert ms'[k] == ms[k]; }
      }
    }
  }

  /** A new row under the next id, with a code no row has, keeps the tables valid. */
  lemma CreateKeepsValid(ps: seq<ProductEntity.Product>, ms: seq<RawMaterial>, ls: seq<Link>, n: Id, m: RawMaterial)
    requires TablesValid(ps, ms, ls, n)
    requires m.id == Some(n) && RawMaterialEntity.Valid(m) && RawMaterialEntity.FindByCode(ms, m.code).None?
    ensures TablesValid(ps, ms + [m], ls, n + 1)
    ensures RawMaterialEntity.FindByCode(ms + [m], m.code) == Some(m)
  {
    AppendKeepsRawMaterials(ms, n, m);
    IdsOfAppend(ms, IdOfRawMaterial, m);
    KeyedLater(ps, IdOfProduct, n, n + 1);
    KeyedLater(ls, IdOfLink, n, n + 1);
    FindByCodeFindsTheOwner(ms + [m], |ms|);
  }

  lemma OverwriteKeepsRawMaterials(ms: seq<RawMaterial>, n: Id, i: nat, m: RawMaterial)
    requires RawMaterialsValid(ms, n) && i < |ms|
    requires m.id == ms[i].id && RawMaterialEntity.Valid(m)
    requires m.code == ms[i].code || RawMaterialEntity.FindByCode(ms, m.code).None?
    ensures RawMaterialsValid(ms[i := m], n)
  {
    var ms' := ms[i := m];
    forall j, k | 0 <= j < k < |ms'| ensures DistinctRawMaterials(ms'[j], ms'[k]) {
      if j != i && k != i {
        assert DistinctRawMaterials(ms[j], ms[k]);
      } else if j == i {
        assert DistinctRawMaterials(ms[i], ms[k]);
      } else {
        assert DistinctRawMaterials(ms[j], ms[i]);
      }
    }
  }

  /** Overwriting a row's columns, keeping its id and a code no other row has, keeps the tables valid. */
  lemma OverwriteKeepsValid(ps: seq<ProductEntity.Product>, ms: seq<RawMaterial>, ls: seq<Link>, n: Id, i: nat, m: RawMaterial)
    requires TablesValid(ps, ms, ls, n) && i < |ms|
    requires m.id == ms[i].id && RawMaterialEntity.Valid(m)
    requires m.code == ms[i].code || RawMaterialEntity.FindByCode(ms, m.code).None?
    ensures TablesValid(ps, ms[i := m], ls, n)
  {
    OverwriteKeepsRawMaterials(ms, n, i, m);
    IdsOfOverwrite(ms, IdOfRawMaterial, i, m);
  }

  function IsRawMaterial(id: Id): RawMaterial -> bool {
    (m: RawMaterial) => m.id == Some(id)
  }

  /** Some association still names the raw material: the foreign key refuses the delete. */
  predicate Referenced(ls: seq<Link>, id: Id) {
    exists i :: 0 <= i < |ls| && ls[i].rawMaterialId == id
  }

  /** Removing a raw material that no association names keeps the tables valid. */
  lemma RemoveKeepsValid(ps: seq<ProductEntity.Product>, ms: seq<RawMaterial>, ls: seq<Link>, n: Id, id: Id)
    requires TablesValid(ps, ms, ls, n) && !Referenced(ls, id)
    ensures TablesValid(ps, Without(ms, IsRawMaterial(id)), ls, n)
  {
    RemoveKeepsRawMaterials(ms, n, id);
    var ms' := Without(ms, IsRawMaterial(id));
    forall i | 0 <= i < |ls| ensures Resolves(ls[i], ps, ms') {
      assert ls[i].rawMaterialId != id;
      IdsOfWithout(ms, IdOfRawMaterial, IsRawMaterial(id), Some(ls[i].rawMaterialId));
    }
  }

  lemma RemoveKeepsRawMaterials(ms: seq<RawMaterial>, n: Id, id: Id)
    requires RawMaterialsValid(ms, n)
    ensures RawMaterialsValid(Without(ms, IsRawMaterial(id)), n)
  {
    var ms' := Without(ms, IsRawMaterial(id));
    KeyedWithout(ms, IdOfRawMaterial, n, IsRawMaterial(id));
    WithoutKeepsPairs(ms, IsRawMaterial(id), DistinctRawMaterials);
    assert forall i :: 0 <= i < |ms'| ==> ms'[i] in ms;
  }

  /**
   * `create`: a code already in use is a Conflict; otherwise the new row is validated and
   * stored under the next id, and `findByCode` then finds it.
   */
  method Create(db: Store, dto: RawMaterialDTO) returns (r: Result<RawMaterialDTO, Failure>)
    requires db.Valid()
    modifies db
    ensures db.Valid()
    ensures r.Err? ==> unchanged(db)
    ensures RawMaterialEntity.FindByCode(old(db.rawMaterials), dto.code).Some? ==> r == Err(CodeInUse(dto.code))
    ensures RawMaterialEntity.FindByCode(old(db.rawMaterials), dto.code).None? ==>
              var check := PersistCheck(RawMaterial(None, dto.code, dto.name, dto.stockQuantity));
              check.Some? ==> r == Err(check.value)
    ensures var created := RawMaterial(Some(old(db.nextId)), dto.code, dto.name, dto.stockQuantity);
            && (r.Ok? <==> RawMaterialEntity.FindByCode(old(db.rawMaterials), dto.code).None? && RawMaterialEntity.Valid(created))
            && (r.Ok? ==>
                  && r.value == RawMaterialDTO(Some(old(db.nextId)), dto.code, dto.name, dto.stockQuantity)
                  && db.rawMaterials == old(db.rawMaterials) + [created]
                  && db.products == old(db.products) && db.links == old(db.links)
                  && db.nextId == old(db.nextId) + 1
                  && RawMaterialEntity.FindByCode(db.rawMaterials, dto.code) == Some(created))
  {
    var existing := RawMaterialEntity.FindByCode(db.rawMaterials, dto.code);
    if existing.Some? {
      return Err(CodeInUse(dto.code));
    }
    var rawMaterial := RawMaterial(None, dto.code, dto.name, dto.stockQuantity);
    var failure := PersistCheck(rawMaterial);
    if failure.Some? {
      return Err(failure.value);
    }
    rawMaterial := rawMaterial.(id := Some(db.nextId));
    CreateKeepsValid(db.products, db.rawMaterials, db.links, db.nextId, rawMaterial);
    db.rawMaterials := db.rawMaterials + [rawMaterial];
    db.nextId := db.nextId + 1;
    r := Ok(ToDTO(rawMaterial));
  }

  /**
   * `update`: NotFound for an absent id; Conflict when the code changes to one another row
   * owns; otherwise code, name and stock quantity are overwritten in place, the id kept, and
   * no other row changes.
   */
  method Update(db: Store, id: Id, dto: RawMaterialDTO) returns (r: Result<RawMaterialDTO, Failure>)
    requires db.Valid()
    modifies db
    ensures db.Valid()
    ensures r.Err? ==> unchanged(db)
    ensures IndexOfId(old(db.rawMaterials), IdOfRawMaterial, id).None? ==> r == Err(NotFoundWithId(id))
    ensures IndexOfId(old(db.rawMaterials), IdOfRawMaterial, id).Some? ==>
              var i := IndexOfId(old(db.rawMaterials), IdOfRawMaterial, id).value;
              var row := RawMaterial(Some(id), dto.code, dto.name, dto.stockQuantity);
              && ((old(db.rawMaterials)[i].code != dto.code && RawMaterialEntity.FindByCode(old(db.rawMaterials), dto.code).Some?)
                  ==> r == Err(CodeInUse(dto.code)))
              && (r.Ok? <==> (old(db.rawMaterials)[i].code == dto.code || RawMaterialEntity.FindByCode(old(db.rawMaterials), dto.code).None?)
                             && RawMaterialEntity.Valid(row))
              && (r.Ok? ==>
                    && r.value == RawMaterialDTO(Some(id), dto.code, dto.name, dto.stockQuantity)
                    && db.rawMaterials == old(db.rawMaterials)[i := row]
                    && db.products == old(db.products) && db.links == old(db.links)
                    && db.nextId == old(db.nextId))
  {
    var index := IndexOfId(db.rawMaterials, IdOfRawMaterial, id);
    if index.None? {
      return Err(NotFoundWithId(id));
    }
    var i := index.value;
    var rawMaterial := db.rawMaterials[i];
    if rawMaterial.code != dto.code {
      var existing := RawMaterialEntity.FindByCode(db.rawMaterials, dto.code);
      if existing.Some? && existing.value.id != Some(id) {
        return Err(CodeInUse(dto.code));
      }
    }
    rawMaterial := RawMaterial(Some(id), dto.code, dto.name, dto.stockQuantity);
    var failure := PersistCheck(rawMaterial);
    if failure.Some? {
      return Err(failure.value);
    }
    OverwriteKeepsValid(db.products, db.rawMaterials, db.links, db.nextId, i, rawMaterial);
    db.rawMaterials := db.rawMaterials[i := rawMaterial];
    r := Ok(ToDTO(rawMaterial));
  }

  /**
   * `delete`: NotFound for an absent id; a raw material some association still names is
   * refused by the foreign key (a database error, answered 500); otherwise the row goes and
   * nothing else changes.
   */
  method Delete(db: Store, id: Id) returns (failure: Option<Failure>)
    requires db.Valid()
    modifies db
    ensures db.Valid()
    ensures failure.Some? ==> unchanged(db)
    ensures (forall i :: 0 <= i < |old(db.rawMaterials)| ==> old(db.rawMaterials)[i].id != Some(id))
              ==> failure == Some(NotFoundWithId(id))
    ensures (exists i :: 0 <= i < |old(db.rawMaterials)| && old(db.rawMaterials)[i].id == Some(id))
              ==> (failure.Some? <==> Referenced(old(db.links), id))
                  && (failure.Some? ==> failure.value == Persistence(REFERENCED_ROW_MESSAGE))
    ensures failure.None? ==>
              && db.rawMaterials == Without(old(db.rawMaterials), IsRawMaterial(id))
              && (forall m :: m in db.rawMaterials <==> m in old(db.rawMaterials) && m.id != Some(id))
              && db.products == old(db.products) && db.links == old(db.links) && db.nextId == old(db.nextId)
  {
    var row := RowWithId(db.rawMaterials, IdOfRawMaterial, id);
    if row.None? {
      return Some(NotFoundWithId(id));
    }
    if Referenced(db.links, id) {
      return Some(Persistence(REFERENCED_ROW_MESSAGE));
    }
    RemoveKeepsValid(db.products, db.rawMaterials, db.links, db.nextId, id);
    var rawMaterials := Without(db.rawMaterials, IsRawMaterial(id));
    db.rawMaterials := rawMaterials;
    failure := None;
  }
}

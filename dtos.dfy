/** `ProductDTO`: the JSON shape of a product and its two conversions. */
module ProductDTOs {
  import opened Wrappers
  import opened Panache
  import opened Numeric
  import opened Text
  import opened ProductEntity

  datatype ProductDTO = ProductDTO(id: Option<Id>, code: string, name: string, value: Money)

  /** The messages `@Valid` reports for the DTO's annotations, listed in declaration order. */
  function Violations(d: ProductDTO): (r: seq<string>)
    ensures r == [] <==> NotBlank(d.code) && NotBlank(d.name) && d.value > 0
  {
    (if NotBlank(d.code) then [] else ["Code is required"])
    + (if NotBlank(d.name) then [] else ["Name is required"])
    + (if d.value > 0 then [] else ["Value must be positive"])
  }

  /** `ProductDTO.fromEntity`. */
  function FromEntity(p: Option<Product>): (r: Option<ProductDTO>)
    ensures r.None? <==> p.None?
    ensures r.Some? ==> r.value.id == p.value.id && r.value.code == p.value.code
                        && r.value.name == p.value.name && r.value.value == p.value.value
  {
    match p
    case None => None
    case Some(e) => Some(ProductDTO(e.id, e.code, e.name, e.value))
  }

  /** `ProductDTO.toEntity`. */
  function ToEntity(d: ProductDTO): (p: Product)
    ensures p.id == d.id && p.code == d.code && p.name == d.name && p.value == d.value
  {
    Product(d.id, d.code, d.name, d.value)
  }

  lemma {:induction false} FromEntityToEntity(d: ProductDTO)
    ensures FromEntity(Some(ToEntity(d))) == Some(d)
  {
  }

  lemma {:induction false} ToEntityFromEntity(p: Product)
    ensures ToEntity(FromEntity(Some(p)).value) == p
  {
  }

  /** A DTO passes `@Valid` exactly when the entity built from it passes Bean Validation. */
  lemma {:induction false} ValidityAgrees(d: ProductDTO)
    ensures Violations(d) == ProductEntity.Violations(ToEntity(d))
  {
  }
}

/** `RawMaterialDTO` (declared in package `com.autoflex.dto`). */
module RawMaterialDTOs {
  import opened Wrappers
  import opened Panache
  import opened Numeric
  import opened Text
  import opened RawMaterialEntity

  datatype RawMaterialDTO = RawMaterialDTO(id: Option<Id>, code: string, name: string, stockQuantity: Qty)

  function Violations(d: RawMaterialDTO): (r: seq<string>)
    ensures r == [] <==> NotBlank(d.code) && NotBlank(d.name) && d.stockQuantity >= 0
  {
    (if NotBlank(d.code) then [] else ["Code is required"])
    + (if NotBlank(d.name) then [] else ["Name is required"])
    + (if d.stockQuantity >= 0 then [] else ["Stock quantity must be zero or positive"])
  }

  function FromEntity(m: Option<RawMaterial>): (r: Option<RawMaterialDTO>)
    ensures r.None? <==> m.None?
    ensures r.Some? ==> r.value.id == m.value.id && r.value.code == m.value.code
                        && r.value.name == m.value.name && r.value.stockQuantity == m.value.stockQuantity
  {
    match m
    case None => None
    case Some(e) => Some(RawMaterialDTO(e.id, e.code, e.name, e.stockQuantity))
  }

  function ToEntity(d: RawMaterialDTO): (m: RawMaterial)
    ensures m.id == d.id && m.code == d.code && m.name == d.name && m.stockQuantity == d.stockQuantity
  {
    RawMaterial(d.id, d.code, d.name, d.stockQuantity)
  }

  lemma {:induction false} FromEntityToEntity(d: RawMaterialDTO)
    ensures FromEntity(Some(ToEntity(d))) == Some(d)
  {
  }

  lemma {:induction false} ToEntityFromEntity(m: RawMaterial)
    ensures ToEntity(FromEntity(Some(m)).value) == m
  {
  }

  lemma {:induction false} ValidityAgrees(d: RawMaterialDTO)
    ensures Violations(d) == RawMaterialEntity.Violations(ToEntity(d))
  {
  }
}

/** `ProductRawMaterialDTO`: an association flattened to ids, plus two display names. */
module ProductRawMaterialDTOs {
  import opened Wrappers
  import opened Panache
  import opened Numeric
  import opened ProductEntity
  import opened RawMaterialEntity
  import opened ProductRawMaterialEntity

  datatype ProductRawMaterialDTO = ProductRawMaterialDTO(
    id: Option<Id>,
    productId: Option<Id>,
    rawMaterialId: Option<Id>,
    requiredQuantity: Qty,
    productName: Option<string>,
    rawMaterialName: Option<string>)

  function Violations(d: ProductRawMaterialDTO): (r: seq<string>)
    ensures r == [] <==> d.productId.Some? && d.rawMaterialId.Some? && d.requiredQuantity > 0
  {
    (if d.productId.Some? then [] else ["Product ID is required"])
    + (if d.rawMaterialId.Some? then [] else ["Raw material ID is required"])
    + (if d.requiredQuantity > 0 then [] else ["Required quantity must be positive"])
  }

  /** `ProductRawMaterialDTO.fromEntity`: ids and names are read through the references that are set. */
  function FromEntity(a: Option<ProductRawMaterial>): (r: Option<ProductRawMaterialDTO>)
    ensures r.None? <==> a.None?
    ensures r.Some? ==> r.value.id == a.value.id && r.value.requiredQuantity == a.value.requiredQuantity
    ensures r.Some? ==> (a.value.product.None? ==> r.value.productId.None? && r.value.productName.None?)
    ensures r.Some? && a.value.product.Some? ==>
              r.value.productId == a.value.product.value.id && r.value.productName == Some(a.value.product.value.name)
    ensures r.Some? ==> (a.value.rawMaterial.None? ==> r.value.rawMaterialId.None? && r.value.rawMaterialName.None?)
    ensures r.Some? && a.value.rawMaterial.Some? ==>
              r.value.rawMaterialId == a.value.rawMaterial.value.id && r.value.rawMaterialName == Some(a.value.rawMaterial.value.name)
  {
    match a
    case None => None
    case Some(e) =>
      Some(ProductRawMaterialDTO(
        e.id,
        if e.product.Some? then e.product.value.id else None,
        if e.rawMaterial.Some? then e.rawMaterial.value.id else None,
        e.requiredQuantity,
        if e.product.Some? then Some(e.product.value.name) else None,
        if e.rawMaterial.Some? then Some(e.rawMaterial.value.name) else None))
  }

  /** `toEntity(product, rawMaterial)`: the references come from the caller, not from the DTO's ids. */
  function ToEntity(d: ProductRawMaterialDTO, p: Option<Product>, m: Option<RawMaterial>): (a: ProductRawMaterial)
    ensures a.id == d.id && a.product == p && a.rawMaterial == m && a.requiredQuantity == d.requiredQuantity
  {
    ProductRawMaterial(d.id, p, m, d.requiredQuantity)
  }

  /** Converting back gives the DTO's id and quantity, and the attached records' ids and names. */
  lemma {:induction false} FromEntityToEntity(d: ProductRawMaterialDTO, p: Product, m: RawMaterial)
    ensures FromEntity(Some(ToEntity(d, Some(p), Some(m))))
            == Some(d.(productId := p.id, rawMaterialId := m.id,
                       productName := Some(p.name), rawMaterialName := Some(m.name)))
  {
  }

  /** Attaching the records a DTO names, with their own names, gives that DTO back. */
  lemma {:induction false} RoundTripWithMatchingRecords(d: ProductRawMaterialDTO, p: Product, m: RawMaterial)
    requires d.productId == p.id && d.rawMaterialId == m.id
    requires d.productName == Some(p.name) && d.rawMaterialName == Some(m.name)
    ensures FromEntity(Some(ToEntity(d, Some(p), Some(m)))) == Some(d)
  {
  }
}

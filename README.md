# Autoflex inventory and production planner — a Dafny model

Autoflex keeps a catalog of **products** (code, name, unit value), **raw materials** (code,
name, stock quantity) and the **associations** saying how much of each raw material one
unit of a product needs. Its Quarkus backend offers CRUD services over the three tables,
maps their failures to HTTP answers in one exception handler, and computes a
**production plan**. The plan takes the products most valuable first, makes as many units
of each as the remaining stock allows, deducts what they consume, and totals the value.
Its React frontend keeps one Redux slice per table plus one for the plan. An axios
interceptor gives every failed request a human-readable text.

The model covers the following, one module per source unit:

- **Numbers.** `Numeric` uses fixed-scale integers: money in hundredths, quantities in
  thousandths, the working stock in millionths. It defines `BigDecimal`'s `DOWN` division
  and `HALF_UP` rounding on them.
- **Entities** (`ProductEntity`, `RawMaterialEntity`, `ProductRawMaterialEntity`). It covers their Bean
  Validation constraints and column limits, and the Panache finders they declare,
  including the ordered listings.
- **DTOs** (`ProductDTOs`, `RawMaterialDTOs`, `ProductRawMaterialDTOs`). It covers their validation and
  both conversions, which are proved mutually inverse.
- **The database** (`Catalog.Store`). A class holds the three tables as sequences and the id
  sequence as a counter. `Store.Valid()` is the consistency its methods keep: unique
  ids and codes, valid rows, and foreign keys that resolve.
- **Services** (`ProductService`, `RawMaterialService`, `ProductRawMaterialService`). Each
  service operation is a function (reads) or a method on the store (writes). Its contract
  gives every failure, in the order the service checks for it, and the exact new state.
  On failure the store is unchanged, since the transaction rolls back.
- **Error handling** (`GlobalExceptionHandler`, `ServiceErrors`). These give the status and
  `ErrorResponse` for each exception, and the profile-dependent hiding of internal messages.
- **The production calculation.** `ProductionService` holds its loops as methods, each
  proved equal to a specification function. `ProductionProperties` proves what the plan
  satisfies: provenance, order, totals, and stock conservation and non-negativity.
  `ProductionCatalog` applies the calculation to the store. `ProductionScenarios`
  reproduces the four scenarios of the service's unit tests.
- **The frontend.** `Js` models the JavaScript string and array behaviour the code relies
  on. `SliceItems` holds the list updates the catalog slices share. The four slice classes
  model the reducers as in-place updates of the slice state. `Api` covers the base URL and
  the response interceptor. `ErrorDisplay` follows a backend failure through to the
  interceptor's `userMessage` and the value the product create and update thunks reject
  with. It also shows that a fetch rejection drops that text (see "## Findings").

## Model

| member | source | states |
|---|---|---|
| Numeric.DivDown | backend/src/main/java/com/autoflex/service/ProductionService.java:107 | `divide(required, 3, DOWN)` on unscaled values: the quotient truncated toward zero, `|q|*|b| <= |a| < (|q|+1)*|b|`, with the sign of the exact quotient |
| Numeric.DivDownNonNegative | backend/src/main/java/com/autoflex/service/ProductionService.java:107 | for a non-negative stock and positive requirement the truncated quotient is the floor and is non-negative |
| Numeric.RoundHalfUp | backend/src/main/java/com/autoflex/service/ProductionService.java:58-59 | `setScale(2, HALF_UP)`: the result is the nearest multiple of the dropped unit, ties away from zero, on both signs |
| Text.LexLeTotal | backend/src/main/java/com/autoflex/entity/Product.java:48-50 | `name ASC` compares any two names |
| Text.LexLeTransitive | backend/src/main/java/com/autoflex/entity/Product.java:48-50 | `name ASC` is transitive |
| Text.LexLeAntisymmetric | backend/src/main/java/com/autoflex/entity/Product.java:48-50 | two names ordered both ways are equal |
| Text.NatToString | backend/src/main/java/com/autoflex/service/ProductService.java:26 | the decimal text of an id concatenated into "not found" messages is never empty |
| Sorting.InsertPermutes | backend/src/main/java/com/autoflex/entity/Product.java:48-50 | placing one row into an ordered listing adds exactly that row |
| Sorting.InsertSorted | backend/src/main/java/com/autoflex/entity/Product.java:48-50 | placing one row into an ordered listing keeps it ordered under a total preorder |
| Sorting.InsertionSortCorrect | backend/src/main/java/com/autoflex/entity/Product.java:48-50 | an ORDER BY listing is a permutation of the table and ordered by its key |
| ProductEntity.Violations | backend/src/main/java/com/autoflex/entity/Product.java:19-30 | a product has no Bean Validation violation exactly when code and name are not blank and value is positive |
| ProductEntity.FindByCode | backend/src/main/java/com/autoflex/entity/Product.java:44-46 | `findByCode` is absent exactly when no row has that code, and otherwise returns the first row of the table with that code |
| ProductEntity.ValueDescNameAscIsTotalPreorder | backend/src/main/java/com/autoflex/entity/Product.java:48-50 | `ORDER BY value DESC, name ASC` is total and transitive |
| ProductEntity.FindAllOrdered | backend/src/main/java/com/autoflex/entity/Product.java:48-50 | `findAllOrdered` returns every product exactly once, sorted by value descending then name ascending |
| RawMaterialEntity.Violations | backend/src/main/java/com/autoflex/entity/RawMaterial.java:18-29 | a raw material is valid exactly when code and name are not blank and stock is zero or positive |
| RawMaterialEntity.FindByCode | backend/src/main/java/com/autoflex/entity/RawMaterial.java:40-42 | absent exactly when no row has that code; otherwise the first row of the table with that code |
| RawMaterialEntity.NameAscIsTotalPreorder | backend/src/main/java/com/autoflex/entity/RawMaterial.java:44-46 | `ORDER BY name ASC` is total and transitive |
| RawMaterialEntity.FindAllOrdered | backend/src/main/java/com/autoflex/entity/RawMaterial.java:44-46 | every raw material exactly once, sorted by name |
| ProductRawMaterialEntity.Violations | backend/src/main/java/com/autoflex/entity/ProductRawMaterial.java:15-28 | an association is valid exactly when product and raw material are set and the required quantity is positive |
| ProductRawMaterialEntity.FindByProductId | backend/src/main/java/com/autoflex/entity/ProductRawMaterial.java:39-41 | `findByProductId` returns exactly the rows whose product has that id (none for a null id), each as often as the table holds it, no more rows than the table |
| ProductRawMaterialEntity.FindByRawMaterialId | backend/src/main/java/com/autoflex/entity/ProductRawMaterial.java:43-45 | `findByRawMaterialId` returns exactly the rows whose raw material has that id, each as often as the table holds it |
| ProductRawMaterialEntity.DuplicatePairsRepresentable | backend/src/main/java/com/autoflex/entity/ProductRawMaterial.java:11-13 | two associations for the same (product, raw material) pair are both valid rows: nothing makes the pair unique |
| ProductDTOs.Violations | backend/src/main/java/com/autoflex/dto/ProductDTO.java:14-22 | the DTO passes `@Valid` exactly when code and name are not blank and value is positive |
| ProductDTOs.FromEntity | backend/src/main/java/com/autoflex/dto/ProductDTO.java:34-39 | `fromEntity(null)` is null; otherwise every field is copied |
| ProductDTOs.ToEntity | backend/src/main/java/com/autoflex/dto/ProductDTO.java:41-48 | `toEntity` copies id, code, name and value into the entity unchanged; `FromEntityToEntity` closes the round trip |
| ProductDTOs.FromEntityToEntity | backend/src/main/java/com/autoflex/dto/ProductDTO.java:34-48 | `fromEntity(toEntity(d)) == d` |
| ProductDTOs.ToEntityFromEntity | backend/src/main/java/com/autoflex/dto/ProductDTO.java:34-48 | `toEntity(fromEntity(p)) == p` |
| ProductDTOs.ValidityAgrees | backend/src/main/java/com/autoflex/dto/ProductDTO.java:14-22 | the DTO and the entity built from it report the same violations |
| RawMaterialDTOs.Violations | backend/src/main/java/com/projedata/dto/RawMaterialDTO.java:14-22 | the DTO passes `@Valid` exactly when code and name are not blank and stock is non-negative |
| RawMaterialDTOs.FromEntity | backend/src/main/java/com/projedata/dto/RawMaterialDTO.java:34-44 | `fromEntity(null)` is null; otherwise every field is copied |
| RawMaterialDTOs.ToEntity | backend/src/main/java/com/projedata/dto/RawMaterialDTO.java:46-53 | `toEntity` copies id, code, name and stock quantity into the entity unchanged; `FromEntityToEntity` closes the round trip |
| RawMaterialDTOs.FromEntityToEntity | backend/src/main/java/com/projedata/dto/RawMaterialDTO.java:34-53 | `fromEntity(toEntity(d)) == d` |
| RawMaterialDTOs.ToEntityFromEntity | backend/src/main/java/com/projedata/dto/RawMaterialDTO.java:34-53 | `toEntity(fromEntity(m)) == m` |
| RawMaterialDTOs.ValidityAgrees | backend/src/main/java/com/projedata/dto/RawMaterialDTO.java:14-22 | the DTO and the entity built from it report the same violations |
| ProductRawMaterialDTOs.Violations | backend/src/main/java/com/autoflex/dto/ProductRawMaterialDTO.java:15-23 | the DTO passes `@Valid` exactly when both ids are set and the required quantity is positive |
| ProductRawMaterialDTOs.FromEntity | backend/src/main/java/com/autoflex/dto/ProductRawMaterialDTO.java:40-59 | null stays null; ids and names are taken from the referenced rows, null where a reference is null |
| ProductRawMaterialDTOs.ToEntity | backend/src/main/java/com/autoflex/dto/ProductRawMaterialDTO.java:61-68 | `toEntity(product, rawMaterial)` keeps the DTO's id and required quantity and attaches exactly the product and raw material passed in |
| ProductRawMaterialDTOs.FromEntityToEntity | backend/src/main/java/com/autoflex/dto/ProductRawMaterialDTO.java:40-68 | converting back with the referenced rows and forth again gives the same DTO |
| ProductRawMaterialDTOs.RoundTripWithMatchingRecords | backend/src/main/java/com/autoflex/dto/ProductRawMaterialDTO.java:40-68 | `toEntity` with rows matching the DTO ids, then `fromEntity`, gives back the DTO |
| GlobalExceptionHandler.Reply | backend/src/main/java/com/autoflex/exception/GlobalExceptionHandler.java:37-43 | the HTTP status and the `ErrorResponse.status` are the same |
| GlobalExceptionHandler.GenericDetails | backend/src/main/java/com/autoflex/exception/GlobalExceptionHandler.java:77-90 | the exception message is shown in the `dev` profile (also when none is configured) and the generic text otherwise |
| GlobalExceptionHandler.ToResponse | backend/src/main/java/com/autoflex/exception/GlobalExceptionHandler.java:20-90 | the first handled class the exception is an instance of decides status, message and details; any other exception gives 500 |
| GlobalExceptionHandler.ProductionHidesInternalMessages | backend/src/main/java/com/autoflex/exception/GlobalExceptionHandler.java:77-90 | outside `dev` an unexpected exception answers 500 with the generic text, never its own message |
| GlobalExceptionHandler.StatusIsOneOfFour | backend/src/main/java/com/autoflex/exception/GlobalExceptionHandler.java:20-90 | the handler answers 400, 404, 409 or 500 and nothing else |
| ServiceErrors.ToException | backend/src/main/java/com/autoflex/exception/GlobalExceptionHandler.java:20-35 | each service failure reaches the handler with its message, or its violations for a constraint failure |
| ServiceErrors.FailureResponse | backend/src/main/java/com/autoflex/exception/GlobalExceptionHandler.java:20-90 | NotFound is 404, Conflict 409, the illegal-argument and validation failures 400, other database errors 500, and the message the client gets in each case |
| Catalog.IndexOfId | backend/src/main/java/com/autoflex/service/ProductService.java:24 | `findById`: no position exactly when no row has the id; otherwise the position of a row with it |
| Catalog.RowWithId | backend/src/main/java/com/autoflex/service/ProductService.java:24 | `findById`: absent exactly when no row has the id; otherwise a row of the table with it |
| Catalog.Without | backend/src/main/java/com/autoflex/service/ProductService.java:84 | a delete keeps exactly the rows not removed, never more rows |
| Catalog.WithoutCounts | backend/src/main/java/com/autoflex/service/ProductService.java:84 | a delete keeps each surviving row as often as the table held it and no removed row |
| Catalog.WithoutKeepsPairs | backend/src/main/java/com/autoflex/service/ProductService.java:84 | a property holding between every two rows still holds after rows are removed |
| Catalog.View | backend/src/main/java/com/autoflex/entity/ProductRawMaterial.java:15-28 | an association row as Hibernate loads it: its id and quantity, and the rows its two foreign keys name |
| Catalog.ViewsValid | backend/src/main/java/com/autoflex/entity/ProductRawMaterial.java:15-28 | every association loaded from a valid table passes Bean Validation and fits its columns |
| Catalog.Store.Associations | backend/src/main/java/com/autoflex/entity/ProductRawMaterial.java:39-45 | the association entities, one per row, in table order |
| ProductService.PersistCheck | backend/src/main/java/com/autoflex/entity/Product.java:19-30 | persisting fails with the violations when there are some, with a column overflow when the value does not fit, and succeeds exactly for a valid row |
| ProductService.ToDTO | backend/src/main/java/com/autoflex/dto/ProductDTO.java:34-39 | the DTO of a row converts back to that row |
| ProductService.FindAll | backend/src/main/java/com/autoflex/service/ProductService.java:16-21 | one DTO per row, in table order, each converting back to its row |
| ProductService.FindById | backend/src/main/java/com/autoflex/service/ProductService.java:23-29 | NotFound "Product not found with id: N" exactly when no row has the id; otherwise the DTO of a row with that id |
| ProductService.FindByCode | backend/src/main/java/com/autoflex/service/ProductService.java:31-37 | NotFound exactly when no row has the code; otherwise the DTO of a row with that code |
| ProductService.FindByCodeFindsTheOwner | backend/src/main/java/com/autoflex/entity/Product.java:44-46 | with codes unique, `findByCode(p.code)` returns `p` |
| ProductService.CreateKeepsValid | backend/src/main/java/com/autoflex/service/ProductService.java:39-53 | a new row under the next id with an unused valid code keeps the tables consistent, and its code now finds it |
| ProductService.AppendKeepsProducts | backend/src/main/java/com/autoflex/service/ProductService.java:47-51 | appending such a row keeps ids and codes unique and every row valid |
| ProductService.OverwriteKeepsValid | backend/src/main/java/com/autoflex/service/ProductService.java:55-76 | overwriting a row in place with its own id and a code no other row has keeps the tables consistent |
| ProductService.OverwriteKeepsProducts | backend/src/main/java/com/autoflex/service/ProductService.java:70-73 | the same for the product table alone |
| ProductService.CascadeKeepsValid | backend/src/main/java/com/autoflex/entity/Product.java:32-33 | removing a product with its associations (the cascade) keeps the tables consistent |
| ProductService.CascadeKeepsProducts | backend/src/main/java/com/autoflex/service/ProductService.java:78-85 | removing a product keeps ids and codes unique |
| ProductService.CascadeKeepsLinks | backend/src/main/java/com/autoflex/entity/Product.java:32-33 | the remaining associations still name existing rows |
| ProductService.Create | backend/src/main/java/com/autoflex/service/ProductService.java:39-53 | Conflict for a code in use; otherwise the validated row under a new id is appended and returned; on failure nothing changes |
| ProductService.Update | backend/src/main/java/com/autoflex/service/ProductService.java:55-76 | NotFound for an absent id; Conflict when the code moves to another row; otherwise the row is overwritten in place and returned |
| ProductService.Delete | backend/src/main/java/com/autoflex/service/ProductService.java:78-85 | NotFound exactly when the id is absent; otherwise the product table and the association table become exactly their rows without that product, and nothing else changes |
| RawMaterialService.PersistCheck | backend/src/main/java/com/autoflex/entity/RawMaterial.java:18-29 | persisting fails with the violations, or with a column overflow, and succeeds exactly for a valid row |
| RawMaterialService.ToDTO | backend/src/main/java/com/projedata/dto/RawMaterialDTO.java:34-44 | the DTO of a row converts back to that row |
| RawMaterialService.FindAll | backend/src/main/java/com/autoflex/service/RawMaterialService.java:16-21 | one DTO per row, in table order |
| RawMaterialService.FindById | backend/src/main/java/com/autoflex/service/RawMaterialService.java:23-29 | NotFound "Raw material not found with id: N" exactly when no row has the id; otherwise that row |
| RawMaterialService.FindByCode | backend/src/main/java/com/autoflex/service/RawMaterialService.java:31-37 | NotFound exactly when no row has the code; otherwise a row with it |
| RawMaterialService.FindByCodeFindsTheOwner | backend/src/main/java/com/autoflex/entity/RawMaterial.java:40-42 | with codes unique, `findByCode(m.code)` returns `m` |
| RawMaterialService.AppendKeepsRawMaterials | backend/src/main/java/com/autoflex/service/RawMaterialService.java:47-51 | appending a valid row under the next id with an unused code keeps the table keyed and unique |
| RawMaterialService.CreateKeepsValid | backend/src/main/java/com/autoflex/service/RawMaterialService.java:39-53 | the same keeps all three tables consistent, and the new code finds the new row |
| RawMaterialService.OverwriteKeepsRawMaterials | backend/src/main/java/com/autoflex/service/RawMaterialService.java:70-73 | overwriting a row keeping its id and a code no other row holds keeps the table keyed and unique |
| RawMaterialService.OverwriteKeepsValid | backend/src/main/java/com/autoflex/service/RawMaterialService.java:55-76 | the same keeps all three tables consistent |
| RawMaterialService.RemoveKeepsValid | backend/src/main/java/com/autoflex/service/RawMaterialService.java:78-85 | removing a raw material no association names keeps the tables consistent |
| RawMaterialService.RemoveKeepsRawMaterials | backend/src/main/java/com/autoflex/service/RawMaterialService.java:84 | removing rows keeps the raw-material table keyed and unique |
| RawMaterialService.Create | backend/src/main/java/com/autoflex/service/RawMaterialService.java:39-53 | Conflict for a code in use; otherwise the validated row is appended under a new id; on failure nothing changes |
| RawMaterialService.Update | backend/src/main/java/com/autoflex/service/RawMaterialService.java:55-76 | NotFound for an absent id; Conflict for a code held by another row; otherwise an in-place overwrite |
| RawMaterialService.Delete | backend/src/main/java/com/autoflex/service/RawMaterialService.java:78-85 | NotFound for an absent id; a database failure while an association names it; otherwise the raw-material table becomes exactly its rows without that id |
| ProductRawMaterialService.ToDTO | backend/src/main/java/com/autoflex/dto/ProductRawMaterialDTO.java:40-59 | the DTO of a present association is what `fromEntity` gives |
| ProductRawMaterialService.ToDTOs | backend/src/main/java/com/autoflex/service/ProductRawMaterialService.java:17-22 | one DTO per entity, in list order |
| ProductRawMaterialService.LinkDTOResolves | backend/src/main/java/com/autoflex/dto/ProductRawMaterialDTO.java:44-56 | in a valid store an association DTO carries both ids and the names of the rows they name |
| ProductRawMaterialService.FindAll | backend/src/main/java/com/autoflex/service/ProductRawMaterialService.java:17-22 | one DTO per association, in table order |
| ProductRawMaterialService.FindById | backend/src/main/java/com/autoflex/service/ProductRawMaterialService.java:24-30 | NotFound "Product-RawMaterial association not found with id: N" exactly when absent; otherwise that association |
| ProductRawMaterialService.FindByProductId | backend/src/main/java/com/autoflex/service/ProductRawMaterialService.java:32-37 | only DTOs of that product, all taken from the full listing; nothing for a null id |
| ProductRawMaterialService.FindByProductIdComplete | backend/src/main/java/com/autoflex/service/ProductRawMaterialService.java:32-37 | in a valid store no association of that product is missing |
| ProductRawMaterialService.FindByRawMaterialId | backend/src/main/java/com/autoflex/service/ProductRawMaterialService.java:39-44 | only DTOs of that raw material, all from the full listing; nothing for a null id |
| ProductRawMaterialService.FindByRawMaterialIdComplete | backend/src/main/java/com/autoflex/service/ProductRawMaterialService.java:39-44 | in a valid store no association of that raw material is missing |
| ProductRawMaterialService.PersistCheck | backend/src/main/java/com/autoflex/entity/ProductRawMaterial.java:25-28 | a non-positive quantity is a validation failure, one too wide for `numeric(10, 3)` a database failure, and only the rest persist |
| ProductRawMaterialService.LoadProduct | backend/src/main/java/com/autoflex/service/ProductRawMaterialService.java:48-51 | a null id is an illegal argument, an absent one NotFound "Product not found with id: N", otherwise the row with that id |
| ProductRawMaterialService.LoadRawMaterial | backend/src/main/java/com/autoflex/service/ProductRawMaterialService.java:53-56 | a null id is an illegal argument, an absent one NotFound "Raw material not found with id: N", otherwise the row |
| ProductRawMaterialService.AppendLinkKeepsValid | backend/src/main/java/com/autoflex/service/ProductRawMaterialService.java:58-62 | a new association under the next id naming existing rows keeps the tables consistent |
| ProductRawMaterialService.OverwriteLinkKeepsValid | backend/src/main/java/com/autoflex/service/ProductRawMaterialService.java:90-91 | an overwrite keeping the id and naming existing rows keeps the tables consistent |
| ProductRawMaterialService.RemoveLinkKeepsValid | backend/src/main/java/com/autoflex/service/ProductRawMaterialService.java:102 | removing an association keeps the tables consistent |
| ProductRawMaterialService.Create | backend/src/main/java/com/autoflex/service/ProductRawMaterialService.java:46-64 | product checked first, then raw material, then the quantity; on success the association is appended under a new id and returned with both names; on failure nothing changes |
| ProductRawMaterialService.Relinked | backend/src/main/java/com/autoflex/service/ProductRawMaterialService.java:73-90 | a successful re-pointing keeps the key and takes both ids and the quantity of the DTO, and a resolving association stays resolving |
| ProductRawMaterialService.RelinkKeepsValid | backend/src/main/java/com/autoflex/service/ProductRawMaterialService.java:73-91 | a successful re-pointing keeps the tables consistent |
| ProductRawMaterialService.RelinkedFailures | backend/src/main/java/com/autoflex/service/ProductRawMaterialService.java:73-90 | which failure a re-pointing reports: product before raw material before quantity; a reference is looked up only when it changes |
| ProductRawMaterialService.Update | backend/src/main/java/com/autoflex/service/ProductRawMaterialService.java:66-94 | NotFound for an absent id; otherwise the re-pointing result, with the association overwritten in place on success and nothing changed on failure |
| ProductRawMaterialService.Delete | backend/src/main/java/com/autoflex/service/ProductRawMaterialService.java:96-103 | NotFound exactly when absent; otherwise the association table becomes exactly its rows without that id |
| ProductionService.Bottleneck | backend/src/main/java/com/autoflex/service/ProductionService.java:96-113 | the running minimum is null exactly when every requirement is zero, otherwise the least possible quantity over the nonzero ones and attained by one of them |
| ProductionService.MaxQuantity | backend/src/main/java/com/autoflex/service/ProductionService.java:87-116 | zero with no nonzero requirement; otherwise the minimum over nonzero requirements of the truncated `available / required` |
| ProductionService.SnapshotStock | backend/src/main/java/com/autoflex/service/ProductionService.java:37-43 | the loop builds the stock map of the specification from the rows |
| ProductionService.CalculateMaxQuantity | backend/src/main/java/com/autoflex/service/ProductionService.java:87-116 | the loop returns the bottleneck quantity of the specification |
| ProductionService.UpdateStock | backend/src/main/java/com/autoflex/service/ProductionService.java:121-130 | the loop performs the specified deductions |
| ProductionService.CalculateProduction | backend/src/main/java/com/autoflex/service/ProductionService.java:29-81 | the method returns the plan of the specification |
| ProductionProperties.DeductAccounts | backend/src/main/java/com/autoflex/service/ProductionService.java:121-130 | after `updateStock` every raw material has lost exactly what the associations take of it |
| ProductionProperties.ConsumedUnlisted | backend/src/main/java/com/autoflex/service/ProductionService.java:124-129 | a raw material no association lists loses nothing |
| ProductionProperties.ConsumedListedOnce | backend/src/main/java/com/autoflex/service/ProductionService.java:124-129 | a raw material listed once loses `required * quantity` |
| ProductionProperties.DeductExactly | backend/src/main/java/com/autoflex/service/ProductionService.java:121-130 | with each raw material listed once, each loses exactly `required * quantity` and every other entry is kept |
| ProductionProperties.MissingMaterialBlocksProduct | backend/src/main/java/com/autoflex/service/ProductionService.java:99 | a raw material absent from the snapshot counts as zero: a product needing it gets nothing |
| ProductionProperties.StepEmits | backend/src/main/java/com/autoflex/service/ProductionService.java:52-74 | one iteration leaves the state alone or appends one item for that product with positive quantity |
| ProductionProperties.RunProvenance | backend/src/main/java/com/autoflex/service/ProductionService.java:51-75 | the items are drawn from the products in processing order |
| ProductionProperties.PlanItemsFromProductsInOrder | backend/src/main/java/com/autoflex/service/ProductionService.java:29-81 | every item comes from a product of the table with a nonzero requirement, and items are ordered by value descending then name |
| ProductionProperties.UnconstrainedProductNeverEmitted | backend/src/main/java/com/autoflex/service/ProductionService.java:91-94 | a product without associations, or only zero ones, never appears in the plan |
| ProductionProperties.RunTotals | backend/src/main/java/com/autoflex/service/ProductionService.java:58-60 | the loop adds exactly the item totals to the running total |
| ProductionProperties.PlanTotal | backend/src/main/java/com/autoflex/service/ProductionService.java:58-80 | each item total is value times quantity rounded half-up to cents, and the plan total is their sum |
| ProductionProperties.WellFormedRequirementsOf | backend/src/main/java/com/autoflex/service/ProductionService.java:89 | the well-formedness the calculation relies on holds for each product list read |
| ProductionProperties.SnapshotNonNegative | backend/src/main/java/com/autoflex/service/ProductionService.java:37-43 | a snapshot of non-negative stock rows is non-negative |
| ProductionProperties.ConsumedNonNegative | backend/src/main/java/com/autoflex/service/ProductionService.java:125 | consumption of non-negative quantities is non-negative |
| ProductionProperties.QuantityFits | backend/src/main/java/com/autoflex/service/ProductionService.java:107 | taking `required * q` for `q <= available / required` truncated leaves no debt |
| ProductionProperties.DeductKeepsNonNegative | backend/src/main/java/com/autoflex/service/ProductionService.java:121-130 | deducting a quantity every listed raw material supports keeps the stock non-negative |
| ProductionProperties.StepKeepsNonNegative | backend/src/main/java/com/autoflex/service/ProductionService.java:52-56 | one iteration never drives a stock entry below zero |
| ProductionProperties.StepConservesStock | backend/src/main/java/com/autoflex/service/ProductionService.java:52-70 | one iteration moves exactly what it deducts into the plan's consumption |
| ProductionProperties.RunConservesStock | backend/src/main/java/com/autoflex/service/ProductionService.java:51-75 | working stock plus consumption so far equals the starting stock, and stays non-negative |
| ProductionProperties.ConsumptionWithinStock | backend/src/main/java/com/autoflex/service/ProductionService.java:29-81 | the plan consumes of every raw material between zero and its initial stock, and the working stock never goes negative |
| ProductionCatalog.StockRows | backend/src/main/java/com/autoflex/service/ProductionService.java:40-43 | one stock row per raw material, in table order, with its id and stored stock |
| ProductionCatalog.AssociationsOf | backend/src/main/java/com/autoflex/service/ProductionService.java:89 | `findByProductId` over the stored associations: exactly that product's rows |
| ProductionCatalog.RequirementsFor | backend/src/main/java/com/autoflex/service/ProductionService.java:98-100 | what the calculation reads of a product's associations, in order, missing none |
| ProductionCatalog.StoreRequirements | backend/src/main/java/com/autoflex/service/ProductionService.java:89 | the requirements of every product that has associations |
| ProductionCatalog.StoreRequirementsOf | backend/src/main/java/com/autoflex/service/ProductionService.java:89 | the per-product read finds exactly that product's associations, and none for a null id |
| ProductionCatalog.RequirementsForWellFormed | backend/src/main/java/com/autoflex/service/ProductionService.java:98-100 | with one association per pair, a product's list names each raw material once with non-negative quantities |
| ProductionCatalog.StoreRequirementsWellFormed | backend/src/main/java/com/autoflex/service/ProductionService.java:89 | a valid store with one association per pair meets the calculation's precondition |
| ProductionCatalog.StockRowsNonNegative | backend/src/main/java/com/autoflex/entity/RawMaterial.java:26-29 | the stock rows of valid raw materials are non-negative |
| ProductionCatalog.CatalogConsumptionWithinStock | backend/src/main/java/com/autoflex/service/ProductionService.java:29-81 | over a valid store with one association per pair, the plan consumes at most the stored stock of each raw material |
| ProductionCatalog.Calculate | backend/src/main/java/com/autoflex/service/ProductionService.java:29-81 | the calculation over the store is the specified plan of its tables, and writes nothing |
| ProductionScenarios.SingleProductLimitedByBothMaterials | backend/src/test/java/com/autoflex/service/ProductionServiceTest.java:45-75 | one product needing 10 of 100 and 5 of 50 units: 10 units, total 1000.00 |
| ProductionScenarios.HigherValueProductServedFirst | backend/src/test/java/com/autoflex/service/ProductionServiceTest.java:79-109 | two products competing for one raw material: the dearer one takes all of it |
| ProductionScenarios.IndependentProductsBothServed | backend/src/test/java/com/autoflex/service/ProductionServiceTest.java:113-156 | two products on separate raw materials are both made, with the expected quantities and total |
| ProductionScenarios.NoStockNoPlan | backend/src/test/java/com/autoflex/service/ProductionServiceTest.java:160-181 | without stock the plan is empty and worth zero |
| Js.Or | frontend/src/services/api.js:26-38 | `a \|\| b` on strings: `a` when non-empty, else `b`; truthy exactly when one of them is |
| Js.OrAssociative | frontend/src/services/api.js:26-29 | the three-way `\|\|` chain gives the same value however it is grouped |
| Js.FindIndexById | frontend/src/store/slices/productsSlice.js:73 | `findIndex` by id: -1 exactly when no item has the id, otherwise the first position holding it |
| Js.FilterOutId | frontend/src/store/slices/productsSlice.js:80 | `filter` by id: no remaining item carries the id, never more items |
| Js.FilterOutIdMembers | frontend/src/store/slices/productsSlice.js:80 | every item with another id is kept and no item is added |
| Js.FilterOutIdCounts | frontend/src/store/slices/productsSlice.js:80 | each item with another id is kept as often as the array held it, and none carrying the id |
| Js.FilterOutIdAppend | frontend/src/store/slices/productsSlice.js:80 | filtering works piecewise over a concatenation, so the kept items stay in order |
| Js.FilterOutAbsentId | frontend/src/store/slices/productsSlice.js:80 | filtering out an id no item has leaves the list unchanged |
| Js.FilterOutIdIdempotent | frontend/src/store/slices/productsSlice.js:80 | filtering out an id twice is filtering it once |
| SliceItems.RejectionMessage | frontend/src/store/slices/productsSlice.js:63-66 | the stored error is `userMessage` when non-empty, else `message` |
| SliceItems.Replaced | frontend/src/store/slices/productsSlice.js:72-77 | only the first item with the payload's id becomes the payload; length and the ids listed are unchanged; with no such item nothing changes |
| SliceItems.ReplacedOnlyFirst | frontend/src/store/slices/productsSlice.js:73-76 | a later item sharing the id keeps its value |
| SliceItems.ReplacedIdempotent | frontend/src/store/slices/productsSlice.js:72-77 | delivering the same update twice equals delivering it once |
| SliceItems.Removed | frontend/src/store/slices/productsSlice.js:79-81 | exactly the items with another id remain, each as often as before |
| SliceItems.RemovedUndoesCreate | frontend/src/store/slices/productsSlice.js:68-81 | deleting the id of an item just created leaves the list as before the create |
| SliceItems.ReplacedAfterRemoved | frontend/src/store/slices/productsSlice.js:72-81 | an update for an id already deleted changes nothing |
| SliceItems.RemovedAfterReplaced | frontend/src/store/slices/productsSlice.js:72-81 | deleting an id after updating it equals deleting it without the update |
| ProductsSlice.State.FetchPending | frontend/src/store/slices/productsSlice.js:55-58 | loading on, error cleared, items kept |
| ProductsSlice.State.FetchFulfilled | frontend/src/store/slices/productsSlice.js:59-62 | loading off and the payload replaces the items; the error is kept |
| ProductsSlice.State.FetchRejected | frontend/src/store/slices/productsSlice.js:63-66 | loading off and the error is `userMessage` or else `message`; items kept |
| ProductsSlice.State.CreateFulfilled | frontend/src/store/slices/productsSlice.js:68-70 | the payload is appended at the end; loading and error untouched |
| ProductsSlice.State.UpdateFulfilled | frontend/src/store/slices/productsSlice.js:72-77 | the items become the specified replacement by id; loading and error untouched |
| ProductsSlice.State.DeleteFulfilled | frontend/src/store/slices/productsSlice.js:79-81 | the items become those with another id; loading and error untouched |
| RawMaterialsSlice.State.FetchPending | frontend/src/store/slices/rawMaterialsSlice.js:47-50 | loading on, error cleared, items kept |
| RawMaterialsSlice.State.FetchFulfilled | frontend/src/store/slices/rawMaterialsSlice.js:51-54 | loading off and the payload replaces the items; the error is kept |
| RawMaterialsSlice.State.FetchRejected | frontend/src/store/slices/rawMaterialsSlice.js:55-58 | loading off and the error is `error.message`, never `userMessage`; items kept |
| RawMaterialsSlice.State.CreateFulfilled | frontend/src/store/slices/rawMaterialsSlice.js:60-62 | the payload is appended at the end; loading and error untouched |
| RawMaterialsSlice.State.UpdateFulfilled | frontend/src/store/slices/rawMaterialsSlice.js:64-69 | the items become the specified replacement by id; loading and error untouched |
| RawMaterialsSlice.State.DeleteFulfilled | frontend/src/store/slices/rawMaterialsSlice.js:71-73 | the items become those with another id; loading and error untouched |
| ProductRawMaterialsSlice.State.FetchPending | frontend/src/store/slices/productRawMaterialsSlice.js:55-58 | loading on, error cleared, items kept |
| ProductRawMaterialsSlice.State.FetchFulfilled | frontend/src/store/slices/productRawMaterialsSlice.js:59-62 | loading off and the payload replaces the items; the error is kept |
| ProductRawMaterialsSlice.State.FetchRejected | frontend/src/store/slices/productRawMaterialsSlice.js:63-66 | loading off and the error is `userMessage` or else `message`; items kept |
| ProductRawMaterialsSlice.State.FetchByProductIdFulfilled | frontend/src/store/slices/productRawMaterialsSlice.js:68-70 | the payload replaces the items; loading and error untouched |
| ProductRawMaterialsSlice.State.CreateFulfilled | frontend/src/store/slices/productRawMaterialsSlice.js:72-74 | the payload is appended at the end; loading and error untouched |
| ProductRawMaterialsSlice.State.UpdateFulfilled | frontend/src/store/slices/productRawMaterialsSlice.js:76-81 | the items become the specified replacement by id; loading and error untouched |
| ProductRawMaterialsSlice.State.DeleteFulfilled | frontend/src/store/slices/productRawMaterialsSlice.js:83-85 | the items become those with another id; loading and error untouched |
| ProductsSlice.State.constructor | frontend/src/store/slices/productsSlice.js:46-50 | no items, not loading, no error |
| RawMaterialsSlice.State.constructor | frontend/src/store/slices/rawMaterialsSlice.js:38-42 | no items, not loading, no error |
| ProductRawMaterialsSlice.State.constructor | frontend/src/store/slices/productRawMaterialsSlice.js:46-50 | no items, not loading, no error |
| ProductionSlice.State.constructor | frontend/src/store/slices/productionSlice.js:14-18 | no calculation, not loading, no error |
| ProductionSlice.State.Pending | frontend/src/store/slices/productionSlice.js:22-25 | loading on, error cleared, the previous calculation kept |
| ProductionSlice.State.Fulfilled | frontend/src/store/slices/productionSlice.js:26-29 | loading off and the payload becomes the calculation |
| ProductionSlice.State.Rejected | frontend/src/store/slices/productionSlice.js:30-33 | loading off, error `userMessage` or else `message`, and the previous calculation kept |
| Api.ApiBaseUrl | frontend/src/services/api.js:5-12 | a configured `REACT_APP_API_URL` first, then `''` in production, then `http://<hostname>:8080` with a window, else `http://localhost:8080` |
| Api.RelativeExactlyInProduction | frontend/src/services/api.js:5-12 | the base URL is empty exactly for an unconfigured production build |
| Api.BackendMessage | frontend/src/services/api.js:26-29 | `details`, else `message`, else a plain-text body, whichever is first non-empty; falsy exactly when all are |
| Api.FallbackMessage | frontend/src/services/api.js:30-37 | 404, 409 and 5xx get their fixed texts; otherwise the error's own message or "An error occurred"; never empty |
| Api.UserMessage | frontend/src/services/api.js:38 | the backend message when there is one, else the fallback; never empty |
| Api.ServerTextWins | frontend/src/services/api.js:26-38 | a JSON body with a message decides the text, so no status-based text is shown |
| Api.RequestError.OnRejected | frontend/src/services/api.js:25-40 | the error object gets its `userMessage` in place and is rejected as the same object |
| ErrorDisplay.FetchRejectionStoresThrownMessage | frontend/src/store/slices/productsSlice.js:63-66 | as written, a fetch rejection stores the thrown error's own `message`: the serialised error carries no `userMessage` |
| ErrorDisplay.FetchFailureShowsAxiosText | frontend/src/store/slices/productsSlice.js:4-10 | a `fetchProducts` failing with the handler's 500 answer gets the generic text as `userMessage`, yet the slice stores "Request failed with status code 500" |
| ErrorDisplay.IntendedRejectionStoresUserMessage | frontend/src/store/slices/productsSlice.js:63-66 | with `userMessage` kept in `action.error`, a rejection after the interceptor stores exactly the interceptor's text |
| ErrorDisplay.ThunkRejectsWithUserMessage | frontend/src/store/slices/productsSlice.js:12-34 | after the interceptor, `createProduct` and `updateProduct` reject with exactly its `userMessage` |
| SliceItems.Serialize | frontend/src/store/slices/productsSlice.js:4-10 | `createAsyncThunk`'s default serialisation of a thrown axios error: its `message` is kept and no `userMessage` |
| SliceItems.SerializeKeepingUserMessage | frontend/src/store/slices/productsSlice.js:63-66 | the `action.error` the reducers are written for: the thrown error's `message` and `userMessage` |
| ProductsSlice.RejectedValue | frontend/src/store/slices/productsSlice.js:12-34 | `err.userMessage \|\| err.message \|\| fallback`: the first non-empty of the three, never empty for a non-empty fallback |
| ErrorDisplay.Received | frontend/src/services/api.js:26-28 | the handler's `ErrorResponse` as the interceptor reads it |
| ErrorDisplay.HandlerMessageNonEmpty | backend/src/main/java/com/autoflex/exception/GlobalExceptionHandler.java:37-90 | every `ErrorResponse` message the handler sends is non-empty |
| ErrorDisplay.HandlerTextReachesUser | frontend/src/services/api.js:26-38 | for every handler response the user sees its details when present, else its message |
| ErrorDisplay.FailureTextShown | frontend/src/services/api.js:26-38 | a not-found, conflict or illegal-argument failure shows the service's message; an unexpected database error outside `dev` shows the generic text |
| Catalog.Store.constructor | backend/src/main/java/com/autoflex/entity/Product.java:14-33 | an empty database: three empty tables and the id sequence at its start |
| Api.RequestError.constructor | frontend/src/services/api.js:25 | an axios error with its message and response and no `userMessage` yet |

## Left out

- HTTP transport and the JAX-RS resource classes. Each resource forwards to its service and maps the result to a status. The model starts at the service, and `ServiceErrors.FailureResponse` gives the status each failure reaches.
- Controller-level `@Valid` on request bodies. A DTO is validated when its entity is persisted (`PersistCheck`), which reaches the same violations (`ValidityAgrees`).
- How the database collates text. `name ASC` is modelled as code-point order on `seq<char>`.
- Table order. A table is a sequence in insertion order, and `listAll()` returns that order; the database promises no order there.
- ProductEntity.FindAllOrdered and ProductionService.CalculateProduction: the database may order products with equal value and equal name either way, and names are not unique. The model keeps table order among such ties, so its plan is one of the plans the program can return when tied products compete for stock. The plan properties in `ProductionProperties` rely only on the listing being a permutation of the table sorted by value and name, so they hold for every tie order. The same holds for raw materials with equal names in RawMaterialEntity.FindAllOrdered.
- ProductService.PersistCheck, RawMaterialService.PersistCheck, ProductRawMaterialService.PersistCheck and Catalog.Store.Valid: inputs are taken at column scale (hundredths for a value, thousandths for a quantity). Bean Validation checks the unrounded `BigDecimal`, and `numeric(10, 2)` or `numeric(10, 3)` then rounds it on store. A value of 0.004 or a required quantity of 0.0004 would pass `@Positive` and be stored as zero. The model cannot express such input, so it cannot produce the zero rows this allows, or the unrounded DTO that `create` and `update` return. `Store.Valid()` rules out zero rows, although `calculateMaxQuantity` skips zero requirements.
- Id generation. One counter serves all three tables. Each table's identity sequence only has to produce fresh ids, so one shared counter is a special case of the same behaviour.
- Java `null` in non-id fields. Codes and names are strings, and a blank string stands for a missing one. Nullable ids and references are `Option`.
- GlobalExceptionHandler.ToResponse and ServiceErrors.FailureResponse: with two or more violations, the model joins the messages in declaration order. Bean Validation hands them over as a set, so the program's order is unspecified, and the model gives only one of the possible `details` strings.
- Hibernate and database exception messages. The column-overflow and foreign-key failures carry fixed stand-in texts, because the real texts come from the driver.
- Logging, timestamps and `ConfigProvider`. The configuration profile is a parameter (`profile`), and the `timestamp` field of `ErrorResponse` is omitted.
- Transactions. Each write method is atomic by construction. Concurrent requests and their isolation are not modelled.
- ProductionCatalog.StoreRequirements: the per-product `findByProductId` query becomes one map read from the association rows, with `StoreRequirementsOf` proving the two give the same list.
- The frontend's duplicate-association guard in `components/ProductRawMaterialsDialog.js`. The backend does not enforce it (`DuplicatePairsRepresentable`). The stock bound is proved for stores that have one association per (product, raw material) pair (`DistinctPairs`), as the dialog leaves them.
- Redux Toolkit's `createAsyncThunk` and the axios instance. A thunk's pending, fulfilled and rejected actions are modelled as calls of the slice methods with their payloads. axios's own `message` text ("Request failed with status code N") is an input.
- Redux Toolkit's error serialisation is modelled only for the two properties the reducers read (`SliceItems.Serialize`). `name`, `stack` and `code` are left out.
- The `rejected` actions of `createProduct` and `updateProduct`. No reducer handles them; their payload is modelled (`ProductsSlice.RejectedValue`), and its use in the components is not.
- The success side of the interceptor. It returns the response unchanged, so it has no member.
- JavaScript values. `undefined` and `null` are both `None`. `details` and `message` in a response body are taken to be strings.
- React components, routing, styling, build scripts and the test files. The four production scenarios of `ProductionServiceTest.java` are restated as proved lemmas (`ProductionScenarios`).

## Findings

| source | as written | input that shows it | evidently intended | confidence | as-written member | corrected member |
|---|---|---|---|---|---|---|
| frontend/src/store/slices/productsSlice.js:4-10 | the fetch thunks here, and those of `productRawMaterialsSlice.js` and `productionSlice.js`, pass no `serializeError`, so `action.error` keeps only `message` among the properties the reducer reads, and the reducer's `action.error?.userMessage` is always undefined | `fetchProducts` answered 500 with the handler's generic body: `userMessage` is the generic text, the slice stores "Request failed with status code 500" | the slice stores the interceptor's `userMessage` | not executed | ErrorDisplay.FetchFailureShowsAxiosText | ErrorDisplay.IntendedRejectionStoresUserMessage |

# EasyCommerce data layer: seeding, bootstrap and audit timestamps

This project is a Dafny model of the data-layer core of the EasyCommerce API. It covers three parts, each with verified properties.

* **Seed builders** (`catalog.dfy`, module `Catalog`). These are the list constructions the database initialiser uses to build the demo catalog:
  * the colour × size stock matrix, with a random price band and a fixed quantity;
  * the category × size association rows;
  * the 1-based ordering of a product's category memberships;
  * building sizes from name/value pairs;
  * the helpers that fill a product's images, materials, categories and stocks in place.

  `Product` and `Category` are classes, because the seeder assigns their collections in place. Colours, sizes, materials and the association rows are values. Both cross products are one definition: `Flatten` of per-row blocks, i.e. row-major order.
* **Bootstrap reconciliation** (`bootstrap.dfy`, module `Bootstrap`). This is the start-up sequence of the initialiser:
  1. migrate;
  2. create each of the roles Admin, Customer and SuperAdmin if missing;
  3. create the administrator account if missing and make it a SuperAdmin;
  4. seed the catalog only when no product exists;
  5. save.

  The identity managers and the database context are one abstract `Store`. It holds role names, accounts by email, (email, role) memberships, a saved product count, a pending addition count and a log of the calls made. A fixed set `rejects` names the calls that fail.

  Each step is specified as a function from a state value to a `Run` (new state plus outcome). The imperative methods on a `Store` are proved to follow those functions. The lemmas prove four things about them: where a run stops, what it changes, that it is idempotent, and that the calls come in stage order.
* **Audit timestamps** (`db_context.dfy`, module `DbContext`). This is the pass the product database context runs before every save. Each change-tracker entry whose entity is a base entity and whose state is Added or Modified gets `UpdatedAt` set from the clock; an Added entry also gets `CreatedAt`. Entries are an `array` that the pass updates in place. The clock readings are a parameter, two per entry, in the order the pass reads them.

`common.dfy` (module `Common`) holds `Option`, the id type and the time type.

## Model

| member | source | states |
|---|---|---|
| Catalog.Category.constructor | src/Api/Data/InitDb.cs:157-165 | A new category has the given id, name and parent (null for a root), and no sizes. |
| Catalog.Product.constructor | src/Api/Data/InitDb.cs:185-201 | A new product has the given id, name, description, main material, gender, occasion, season and collection year. CreatedAt and UpdatedAt are both the creation time, and all four collections are empty. |
| Catalog.StockRowPrice | src/Api/Data/InitDb.cs:119 | For a draw in [p-5, p+5), the price minus one cent lies in [100p-501, 100p+399] cents. |
| Catalog.StockMatrixLength | src/Api/Data/InitDb.cs:106-126 | The stock matrix has exactly one row per (colour, size) pair: #colors·#sizes. |
| Catalog.StockMatrixAt | src/Api/Data/InitDb.cs:110-123 | Colours are the outer loop and sizes the inner loop. Row i·#sizes+j is colour i with size j, priced from draw (i, j). |
| Catalog.StockMatrixRows | src/Api/Data/InitDb.cs:114-120 | Every row references the product, has stock 10, a listed colour and a listed size. When the draws are in range, its price is in the band above. |
| Catalog.GetProductStocksForSeeding | src/Api/Data/InitDb.cs:106-126 | The nested loops build exactly the row-major stock matrix. It has #colors·#sizes rows, each with the product, stock 10 and a price in the band. When it builds at least one row, it needs a price whose bounds price ± 5 fit in a 32-bit int. |
| Catalog.AddStocksToProduct | src/Api/Data/InitDb.cs:216-219 | The product's stocks become the stock matrix, with #colors·#sizes rows. Like the builder, it needs price ± 5 to fit in a 32-bit int when at least one row is built. |
| Catalog.CategorySizeMatrixLayout | src/Api/Data/InitDb.cs:221-230 | There are #categories·#sizes rows. Each category i receives the whole size list, in order, in slice [i·#sizes, (i+1)·#sizes). |
| Catalog.CategorySizeMatrixPairs | src/Api/Data/InitDb.cs:221-230 | A (category, size) row occurs if and only if the category and the size are both listed. |
| Catalog.CreateCategorySizeEntitiesFromList | src/Api/Data/InitDb.cs:221-230 | The loop appending each category's size rows builds exactly the category × size matrix, of length #categories·#sizes. |
| Catalog.AddSizesToCategory | src/Api/Data/InitDb.cs:231-234 | The category's sizes become exactly #sizes rows. Entry k pairs this category with size k. |
| Catalog.CreateProductCategoryEntitiesFromList | src/Api/Data/InitDb.cs:236-239 | One membership per category, in input order, each referencing the product. |
| Catalog.ProductCategoryOrders | src/Api/Data/InitDb.cs:236-239 | The memberships keep the categories and their order, and all reference the product. Orders strictly increase, and the set of orders is exactly {1..n}. |
| Catalog.AddCategoriesToProduct | src/Api/Data/InitDb.cs:212-215 | The product's memberships become the numbered list, whose categories are the input in order. |
| Catalog.CreateSizeEntitiesFromList | src/Api/Data/InitDb.cs:475-483 | One size per input pair, in order. Name is the key, value is the value, and the id is the k-th fresh id. |
| Catalog.AddImagesToProduct | src/Api/Data/InitDb.cs:202-207 | Appends exactly one image entry: this product, the colour, the URLs, and both timestamps the creation time. Earlier entries are unchanged. |
| Catalog.AddMaterialsToProduct | src/Api/Data/InitDb.cs:208-211 | Appends exactly one composition line: this product, the material, the percentage. Earlier entries are unchanged. |
| Bootstrap.Store.Migrate | src/Api/Data/InitDb.cs:497 | Migrating logs the call and changes no catalog state. It fails exactly when the store rejects it. |
| Bootstrap.Store.RoleExists | src/Api/Data/InitDb.cs:28 | Reports whether the role exists and only logs the call. |
| Bootstrap.Store.CreateRole | src/Api/Data/InitDb.cs:34-35 | On success the role is added; on failure nothing but the log changes. |
| Bootstrap.Store.FindByEmail | src/Api/Data/InitDb.cs:77-78 | Returns the account with that email, or none. Only the log changes. |
| Bootstrap.Store.CreateUser | src/Api/Data/InitDb.cs:87-89 | On success the account is stored under its email; on failure nothing but the log changes. |
| Bootstrap.Store.IsInRole | src/Api/Data/InitDb.cs:95 | Reports whether the (email, role) membership exists. Only the log changes. |
| Bootstrap.Store.AddToRole | src/Api/Data/InitDb.cs:99-100 | On success the membership is added; on failure nothing but the log changes. |
| Bootstrap.Store.AnyProducts | src/Api/Data/InitDb.cs:488 | Reports whether any product is saved. Only the log changes. |
| Bootstrap.Store.AddProducts | src/Api/Data/InitDb.cs:470 | Tracks the added products as pending. |
| Bootstrap.Store.SaveChanges | src/Api/Data/InitDb.cs:503 | On success the pending products become saved; on failure nothing but the log changes. |
| Bootstrap.RoleRun | src/Api/Data/InitDb.cs:28-39 | One role's block throws if and only if the role is missing and its creation is rejected. On success the role exists. |
| Bootstrap.RolesRun | src/Api/Data/InitDb.cs:25-67 | The role step leaves accounts, memberships, products and pending additions unchanged. A successful run makes at least one call per role. |
| Bootstrap.GrantRun | src/Api/Data/InitDb.cs:95-103 | The SuperAdmin grant succeeds if and only if the membership exists or adding it is not rejected. On success the admin is a SuperAdmin. |
| Bootstrap.AdminRun | src/Api/Data/InitDb.cs:69-104 | On success the admin account exists and is a SuperAdmin. |
| Bootstrap.SaveRun | src/Api/Data/InitDb.cs:503 | The save succeeds if and only if it is not rejected. Success makes the pending products saved and leaves nothing pending; failure changes neither count. |
| Bootstrap.ProductsRun | src/Api/Data/InitDb.cs:485-493 | A successful catalog step leaves at least one product saved. |
| Bootstrap.SeedRun | src/Api/Data/InitDb.cs:495-504 | A successful start-up leaves at least one product saved and nothing pending. |
| Bootstrap.FirstRejected | src/Api/Data/InitDb.cs:28-64 | Gives the position of the first role that is missing and whose creation is rejected. Every role before it is present or creatable. |
| Bootstrap.RolesRunStops | src/Api/Data/InitDb.cs:25-67 | With distinct names, the run throws that role's message exactly when such a role exists. The roles after the run are the old ones plus the names before it. |
| Bootstrap.IgnoreOtherRole | src/Api/Data/InitDb.cs:28-64 | A role that is not in the list changes neither where the run stops nor the calls it makes. |
| Bootstrap.FirstRejectedCons | src/Api/Data/InitDb.cs:28-39 | After the first role is handled without failure, the first rejection is one further along the list, and the rest makes the same calls. |
| Bootstrap.RolesRunTrace | src/Api/Data/InitDb.cs:25-67 | The run's calls are exactly: a check of each role up to and including the failing one, plus a create for each missing one among them. Nothing after the failure is checked or created. |
| Bootstrap.RoleTraceOmits | src/Api/Data/InitDb.cs:28-64 | A role not named among the first n is neither checked nor created by their calls. |
| Bootstrap.RolesRunFrame | src/Api/Data/InitDb.cs:25-67 | A role run adds only listed roles. Accounts, memberships, products and pending additions are unchanged. |
| Bootstrap.RoleRunCalls | src/Api/Data/InitDb.cs:28-39 | One role's block makes only role calls. When it throws, its last call was the rejected creation. |
| Bootstrap.RolesRunCalls | src/Api/Data/InitDb.cs:25-67 | A role run only appends role calls to the log. When it fails, its last call is a rejected creation. |
| Bootstrap.RoleSpecsDistinct | src/Api/Data/InitDb.cs:28-64 | The three roles checked are Admin, Customer and SuperAdmin, and their names are distinct. |
| Bootstrap.RolesEnsured | src/Api/Data/InitDb.cs:25-67 | The role step succeeds if and only if every missing role can be created. Afterwards all three roles exist, and no other role is created. |
| Bootstrap.RolesIdempotent | src/Api/Data/InitDb.cs:25-67 | When all three roles exist, the step only checks them, creates nothing and cannot fail. |
| Bootstrap.RolesAbortEarly | src/Api/Data/InitDb.cs:35-37 | After a failed role creation, no later role is checked or created, and later roles keep their presence. |
| Bootstrap.AdminRunFrame | src/Api/Data/InitDb.cs:69-104 | The admin step leaves roles, saved products and pending additions unchanged. |
| Bootstrap.AdminRunEffect | src/Api/Data/InitDb.cs:69-104 | On success the admin account exists and is a SuperAdmin. An existing account is never recreated. The only changes are that account and that membership. With both present, only the lookup and the membership check happen. A rejected creation throws "Failed to create admin user" right after the lookup. The step succeeds if and only if the account exists or can be created, and the membership exists or can be added. A rejected grant throws "Failed to add admin user to roles" and adds no membership. |
| Bootstrap.GrantRunLog | src/Api/Data/InitDb.cs:95-103 | The SuperAdmin grant makes only identity calls, and a failed grant ends with the rejected call. |
| Bootstrap.AdminRunLog | src/Api/Data/InitDb.cs:69-104 | The admin step makes only identity calls, and a failed step ends with the rejected call. |
| Bootstrap.AdminRunCalls | src/Api/Data/InitDb.cs:69-104 | The admin step only appends identity calls to the log. |
| Bootstrap.ProductsRunEffect | src/Api/Data/InitDb.cs:485-493 | With products present, the catalog step only checks. With none, it adds the demo batch of 8 products and saves it, leaving the pending products plus those 8 saved. A failed save leaves the product count unchanged. Roles, accounts and memberships are untouched. |
| Bootstrap.ProductsRunLog | src/Api/Data/InitDb.cs:485-493 | The catalog step makes only catalog and save calls, in order, and a failure ends with the rejected save. |
| Bootstrap.SaveRunLog | src/Api/Data/InitDb.cs:503 | The final save makes one save call, which is the rejected call when it fails. |
| Bootstrap.CatalogAndSaveLog | src/Api/Data/InitDb.cs:501-503 | The catalog step and the final save make catalog calls, then save calls. A success ends by saving; a failure ends with the rejected call. |
| Bootstrap.AdminAndAfterLog | src/Api/Data/InitDb.cs:500-503 | The admin step and what follows make identity, catalog and save calls, in that order. A success ends by saving; a failure ends with the rejected call. |
| Bootstrap.CatalogAndSaveWithProducts | src/Api/Data/InitDb.cs:488-503 | With products present, the catalog step only checks and the final save follows. The product count grows only by what was pending, and only on success. |
| Bootstrap.AdminAndAfterWithProducts | src/Api/Data/InitDb.cs:499-503 | With products present, the steps from the admin on never add the demo catalog. The product count grows only by what was pending, and only on success. |
| Bootstrap.SeedRunEnsures | src/Api/Data/InitDb.cs:495-504 | A successful start-up leaves the three roles, the admin account as a SuperAdmin, at least one product saved and nothing pending. |
| Bootstrap.SeedRunOrder | src/Api/Data/InitDb.cs:495-504 | Every start-up makes at least one call. Calls come in stage order: migrate, roles, admin, catalog, save. A success starts by migrating and ends by saving. A failure ends with the rejected call. |
| Bootstrap.SeedRunIdempotent | src/Api/Data/InitDb.cs:495-504 | After a successful start-up, a second one changes no role, account, membership or product. It fails only if migrating or saving fails. |
| Bootstrap.BeforeCatalog | src/Api/Data/InitDb.cs:497-500 | Migrating, the roles and the admin make no catalog call and leave products alone. |
| Bootstrap.SeedRunSeedsOnlyEmpty | src/Api/Data/InitDb.cs:485-504 | A start-up that finds products never adds the demo catalog. The product count changes only by saving what was already pending. |
| Bootstrap.EnsureRole | src/Api/Data/InitDb.cs:28-39 | Checking and creating one role on the store follows the one-role specification. |
| Bootstrap.EnsureRolesAreCreated | src/Api/Data/InitDb.cs:25-67 | The three check-then-create blocks on the store follow the role-step specification. |
| Bootstrap.EnsureAdminIsCreated | src/Api/Data/InitDb.cs:69-104 | The lookup, create-if-missing and grant-if-missing on the store follow the admin-step specification. |
| Bootstrap.SeedInitialProducts | src/Api/Data/InitDb.cs:470-472 | Adds the demo batch and saves it. |
| Bootstrap.EnsureInitialProductsAreCreated | src/Api/Data/InitDb.cs:485-493 | The any-products guard on the store follows the catalog-step specification. |
| Bootstrap.SeedDataAsync | src/Api/Data/InitDb.cs:495-504 | The start-up on the store follows the whole-run specification. |
| DbContext.Stamp | src/Api/Data/ProductDbContext.cs:65-73 | An unselected entry is unchanged. A selected entry gets UpdatedAt from the clock, and CreatedAt too only when Added. State, kind and other fields never change. |
| DbContext.StampAll | src/Api/Data/ProductDbContext.cs:57-73 | The pass leaves entries that are not Added/Modified base entities untouched. It sets UpdatedAt on every selected entry and CreatedAt only on Added ones; Modified ones keep CreatedAt. It never changes a state or other fields. |
| DbContext.StampKeepsSelection | src/Api/Data/ProductDbContext.cs:59-63 | The pass selects the same entries after it has run. |
| DbContext.StampAllIdempotent | src/Api/Data/ProductDbContext.cs:57-73 | Running the pass twice with the same clock readings equals running it once. |
| DbContext.SingleClockAddedAgree | src/Api/Data/ProductDbContext.cs:67-72 | With a single clock reading `now`, an Added entry ends with CreatedAt == UpdatedAt == now. |
| DbContext.ProductDbContext.UpdateTimestamps | src/Api/Data/ProductDbContext.cs:57-73 | The in-place loop over the entries leaves exactly the stamped sequence. |
| DbContext.ProductDbContext.SaveChanges | src/Api/Data/ProductDbContext.cs:45-55 | The save runs the pass, then records the stamped entries as the saved batch. |

## Left out

- I/O, async/await and the scoped service plumbing of the initialiser's entry point are left out. There is no concurrency, so the steps are sequential.
- `Guid.NewGuid`, `DateTime.UtcNow` and `Random.Shared.Next` become parameters:
  - fresh ids are supplied by the caller;
  - clock values are passed in;
  - the price draws are a caller-supplied matrix `draws[i][j]`, required to be in [p-5, p+5).
- Prices are integer cents: the source's decimal `draw - 0.01` is `100·draw - 1`.
- Bootstrap.SaveRun: a call fails every time or never, because `rejects` gives one verdict per call for the whole run. The seed save (InitDb.cs:472) and the final save (InitDb.cs:503) are the same call `SaveChanges`, so they always succeed or fail together. A run where the seed save commits the demo batch and only the final save throws is not represented.
- Bootstrap.StoreState: no well-formedness is required of the state. Nothing says that every membership's account is in `users` or that its role is in `roles`, which the database's foreign keys guarantee. On such states `AdminRun` differs from the source. A membership held for an absent account makes the model skip the grant after creating the account, and a grant to a missing role succeeds where Identity throws. Within `SeedRun` the role step creates SuperAdmin first, so the second case cannot arise there; the first needs a state the source cannot hold.
- Bootstrap.Store: one abstract store stands for ASP.NET Identity's role and user managers and the EF database context. Password hashing and validation, name normalisation and `IdentityResult` error lists are not modelled. A call listed in `rejects` fails and any other call succeeds. Lookups never fail.
- Bootstrap.SeedInitialProducts: the literal demo catalog (colours, occasions, materials, categories, sizes and their products) is straight-line data. The model keeps only that it adds one batch of 8 products and saves it. The save inside this method runs before the final save of the start-up, and both appear in the log.
- Bootstrap: the role-name constants live in a `UserRoles` class that is not part of this model. The names "Admin", "Customer" and "SuperAdmin" are used.
- The `Customer`/`CustomerRole` identity types used by the initialiser are abstract accounts and role names here.
- The `Create*Entity` factories for colours, occasions and materials are plain constructor expressions with a fresh id. They are the datatype constructors `Color`, `Occasion` and `Material`. `CreateProductImageEntity` and `CreateProductMaterialEntity` are the values appended by `AddImagesToProduct` and `AddMaterialsToProduct`.
- Catalog.Product.constructor, Catalog.AddImagesToProduct: the factories read the clock once per field. The model uses one reading `now` for both timestamps.
- Catalog.AddMaterialsToProduct: the `double` percentage is a `real`. Floating-point rounding is not modelled, and nothing requires percentages to sum to 1.
- Catalog.Category.constructor: the entity class declares its size collection with element type `Size`, while the initialiser assigns `CategorySize` rows. The model follows the initialiser. Parent/child acyclicity is not enforced by the source and is not stated.
- Catalog.GetProductStocksForSeeding: the random draws are a parameter. Their being in range is a requirement on the draw source, not a failure path. `price - 5` and `price + 5` are computed in unchecked 32-bit arithmetic. Outside `DrawBoundsFit` one of them wraps, the lower bound exceeds the upper one and `Random.Next` throws `ArgumentOutOfRangeException`. When at least one row is built, the model requires the price to be in range instead of modelling that exception; with no colour or no size nothing is drawn and any price is accepted. The demo catalog's prices are all in range.
- Catalog.CreateSizeEntitiesFromList: the `IReadOnlyDictionary` argument is modelled as the sequence of its key/value pairs in enumeration order (insertion order for the dictionary literals the initialiser passes). Distinct keys are not required, which a dictionary guarantees.
- DbContext.ProductDbContext.SaveChanges: the integer the base save returns, the base save's own behaviour (writing to the database, accepting changes) and the cancellation token are not modelled. The base save is recorded as the batch of stamped entries. `SaveChangesAsync` runs the same two steps and is the same method here.
- DbContext.ProductDbContext.constructor: the EF options are not modelled. The context starts from a given list of tracked entries.
- DbContext: the entity payload besides the two timestamps is an opaque string map. Aliasing between entries is not modelled: the change tracker holds each entity once.
- The repository classes, the EF migration snapshot, the DTOs and the remaining entity classes are declarations or stubs. They are not part of this model.

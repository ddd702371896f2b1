/**
 * Catalog entities and the seed builders of the database initialiser
 * (src/Api/Data/InitDb.cs): the colour-by-size stock matrix, the
 * category-by-size association rows, the 1-based product-category order,
 * the size records built from a name/value dictionary, and the helpers that
 * attach images, materials, stock rows and categories to a product.
 */
module Catalog {
  import opened Common

  datatype Color = Color(id: Id, name: string, hexCode: string)
  datatype Size = Size(id: Id, name: string, value: int)
  datatype Material = Material(id: Id, name: string)
  datatype Occasion = Occasion(id: Id, name: string, description: string)
  datatype Season = Spring | Summer | Autumn | Winter | DemiSeason | All
  datatype Gender = Male | Female | Unisex

  /** One stocked (product, colour, size) cell; the decimal price is kept in cents. */
  datatype ProductStock = ProductStock(product: Product, color: Color, size: Size, priceCents: int, stock: int)

  /** The images of a product in one colour. */
  datatype ProductImage = ProductImage(product: Product, color: Color, imageUrls: seq<string>, createdAt: Time, updatedAt: Time)

  /** One line of a product's material composition; the percentage is carried, never computed with. */
  datatype ProductMaterial = ProductMaterial(product: Product, material: Material, percentage: real)

  /** Membership of a product in a category, with its display position. */
  datatype ProductCategory = ProductCategory(category: Category, product: Product, order: int)

  /** A size offered in a category. */
  datatype CategorySize = CategorySize(category: Category, size: Size)

  /** A category of the tree; its size set is reassigned by the seeder. */
  class Category {
    const id: Id
    const name: string
    const parentCategory: Category?
    var sizes: seq<CategorySize>

    /** The factory CreateCategoryEntity: a root when no parent is given. */
    constructor (id: Id, name: string, parentCategory: Category?)
      ensures this.id == id && this.name == name && this.parentCategory == parentCategory
      ensures sizes == []
    {
      this.id := id;
      this.name := name;
      this.parentCategory := parentCategory;
      sizes := [];
    }
  }

  /** A product; the seeder fills its four owned collections in place. */
  class Product {
    const id: Id
    const name: string
    const description: string
    const createdAt: Time
    const updatedAt: Time
    const season: Season
    const mainMaterial: Material
    const collectionYear: int
    const gender: Gender
    const occasion: Occasion
    var images: seq<ProductImage>
    var materials: seq<ProductMaterial>
    var stocks: seq<ProductStock>
    var categories: seq<ProductCategory>

    /** The factory CreateProductEntity: both timestamps are the creation time, all collections empty. */
    constructor (id: Id, name: string, description: string, mainMaterial: Material,
                 gender: Gender, occasion: Occasion, season: Season, collectionYear: int, now: Time)
      ensures this.id == id && this.name == name && this.description == description
      ensures this.mainMaterial == mainMaterial && this.gender == gender && this.occasion == occasion
      ensures this.season == season && this.collectionYear == collectionYear
      ensures createdAt == now && updatedAt == now
      ensures images == [] && materials == [] && stocks == [] && categories == []
    {
      this.id := id;
      this.name := name;
      this.description := description;
      createdAt := now;
      updatedAt := now;
      this.season := season;
      this.mainMaterial := mainMaterial;
      this.collectionYear := collectionYear;
      this.gender := gender;
      this.occasion := occasion;
      images := [];
      materials := [];
      stocks := [];
      categories := [];
    }
  }

  // ---------------------------------------------------------------------------
  // Row-major cross products
  // ---------------------------------------------------------------------------

  /** The concatenation of a sequence of blocks, in order. */
  function Flatten<T>(blocks: seq<seq<T>>): seq<T>
  {
    if blocks == [] then [] else Flatten(blocks[..|blocks| - 1]) + blocks[|blocks| - 1]
  }

  /** Every block has length m. */
  ghost predicate Rectangular<T>(blocks: seq<seq<T>>, m: nat)
  {
    forall k :: 0 <= k < |blocks| ==> |blocks[k]| == m
  }

  lemma {:induction false} FlattenLength<T>(blocks: seq<seq<T>>, m: nat)
    requires Rectangular(blocks, m)
    ensures |Flatten(blocks)| == |blocks| * m
  {
    if blocks != [] {
      var n := |blocks|;
      FlattenLength(blocks[..n - 1], m);
      assert |Flatten(blocks)| == (n - 1) * m + m;
    }
  }

  /** In a flattened rectangle, element j of block i sits at position i * m + j. */
  lemma {:induction false} FlattenAt<T>(blocks: seq<seq<T>>, m: nat, i: nat, j: nat)
    requires Rectangular(blocks, m)
    requires i < |blocks| && j < m
    ensures i * m + j < |Flatten(blocks)|
    ensures Flatten(blocks)[i * m + j] == blocks[i][j]
  {
    var n := |blocks|;
    var init := blocks[..n - 1];
    FlattenLength(blocks, m);
    FlattenLength(init, m);
    assert Flatten(blocks) == Flatten(init) + blocks[n - 1];
    if i == n - 1 {
      assert i * m + j == |Flatten(init)| + j;
    } else {
      FlattenAt(init, m, i, j);
      assert init[i] == blocks[i];
    }
  }

  /** Block i of a flattened rectangle is the slice [i * m, (i + 1) * m). */
  lemma FlattenBlock<T>(blocks: seq<seq<T>>, m: nat, i: nat)
    requires Rectangular(blocks, m)
    requires i < |blocks|
    ensures (i + 1) * m <= |Flatten(blocks)|
    ensures Flatten(blocks)[i * m .. (i + 1) * m] == blocks[i]
  {
    FlattenLength(blocks, m);
    MulMonotone(i + 1, |blocks|, m);
    var f, lo := Flatten(blocks), i * m;
    assert (i + 1) * m == lo + m;
    var block := f[lo .. lo + m];
    forall j | 0 <= j < m
      ensures block[j] == blocks[i][j]
    {
      FlattenAt(blocks, m, i, j);
      assert block[j] == f[lo + j];
    }
    assert block == blocks[i];
  }

  lemma MulMonotone(a: nat, b: nat, m: nat)
    requires a <= b
    ensures a * m <= b * m
  {}

  /** An element is in the concatenation exactly when it is in one of the blocks. */
  lemma {:induction false} FlattenMember<T>(blocks: seq<seq<T>>, x: T)
    ensures x in Flatten(blocks) <==> exists k :: 0 <= k < |blocks| && x in blocks[k]
  {
    if blocks != [] {
      var n := |blocks|;
      var init := blocks[..n - 1];
      FlattenMember(init, x);
      assert Flatten(blocks) == Flatten(init) + blocks[n - 1];
      if exists k :: 0 <= k < n && x in blocks[k] {
        var k :| 0 <= k < n && x in blocks[k];
        if k < n - 1 {
          assert init[k] == blocks[k];
        }
      }
      if exists k :: 0 <= k < n - 1 && x in init[k] {
        var k :| 0 <= k < n - 1 && x in init[k];
        assert blocks[k] == init[k];
      }
    }
  }

  // ---------------------------------------------------------------------------
  // Stock matrix (GetProductStocksForSeeding, AddStocksToProduct)
  // ---------------------------------------------------------------------------

  /** Every seeded stock row holds this quantity. */
  const SeedStock := 10

  /**
   * Random.Next(lo, hi) returns an integer in the half-open range [lo, hi);
   * the builder asks for one in [price - 5, price + 5).
   */
  predicate DrawInRange(draw: int, price: int)
  {
    price - 5 <= draw < price + 5
  }

  /**
   * The price is a 32-bit `int` and the bounds price - 5 and price + 5 are
   * computed in unchecked 32-bit arithmetic. Outside this range one of them
   * wraps around, the lower bound exceeds the upper one and Random.Next throws,
   * so a builder that draws at least once (some colour and some size are
   * listed) can only be called with a price in this range.
   */
  predicate DrawBoundsFit(price: int)
  {
    -0x8000_0000 <= price - 5 && price + 5 <= 0x7fff_ffff
  }

  /** One draw per (colour, size) cell: draws[i][j] is the draw for colour i and size j. */
  predicate DrawsShaped(draws: seq<seq<int>>, colors: nat, sizes: nat)
  {
    |draws| == colors && forall i :: 0 <= i < |draws| ==> |draws[i]| == sizes
  }

  /** Every draw of the matrix is in the range Random.Next promises for `price`. */
  predicate DrawsInRange(draws: seq<seq<int>>, price: int)
  {
    forall i, j :: 0 <= i < |draws| && 0 <= j < |draws[i]| ==> DrawInRange(draws[i][j], price)
  }

  /** The stock row of one cell: its price is the draw less one cent. */
  function StockRow(product: Product, color: Color, size: Size, draw: int): ProductStock
  {
    ProductStock(product, color, size, 100 * draw - 1, SeedStock)
  }

  /** A draw in range puts the row's price within five currency units of `price`, minus one cent. */
  lemma StockRowPrice(product: Product, color: Color, size: Size, draw: int, price: int)
    requires DrawInRange(draw, price)
    ensures 100 * price - 501 <= StockRow(product, color, size, draw).priceCents <= 100 * price + 399
  {}

  /** The rows of one colour, one per size in order. */
  function ColorRows(product: Product, color: Color, sizes: seq<Size>, draws: seq<int>): seq<ProductStock>
    requires |draws| == |sizes|
  {
    seq(|sizes|, j requires 0 <= j < |sizes| => StockRow(product, color, sizes[j], draws[j]))
  }

  /** The per-colour blocks of the stock matrix. */
  function StockBlocks(product: Product, colors: seq<Color>, sizes: seq<Size>, draws: seq<seq<int>>): seq<seq<ProductStock>>
    requires DrawsShaped(draws, |colors|, |sizes|)
  {
    seq(|colors|, i requires 0 <= i < |colors| => ColorRows(product, colors[i], sizes, draws[i]))
  }

  /** The colour-by-size stock matrix in row-major order: colours outer, sizes inner. */
  function StockMatrix(product: Product, colors: seq<Color>, sizes: seq<Size>, draws: seq<seq<int>>): seq<ProductStock>
    requires DrawsShaped(draws, |colors|, |sizes|)
  {
    Flatten(StockBlocks(product, colors, sizes, draws))
  }

  /** The stock matrix has one row per (colour, size) pair. */
  lemma StockMatrixLength(product: Product, colors: seq<Color>, sizes: seq<Size>, draws: seq<seq<int>>)
    requires DrawsShaped(draws, |colors|, |sizes|)
    ensures |StockMatrix(product, colors, sizes, draws)| == |colors| * |sizes|
  {
    FlattenLength(StockBlocks(product, colors, sizes, draws), |sizes|);
  }

  /** Colours are the outer loop and sizes the inner one: row i * |sizes| + j is colour i with size j. */
  lemma StockMatrixAt(product: Product, colors: seq<Color>, sizes: seq<Size>, draws: seq<seq<int>>, i: nat, j: nat)
    requires DrawsShaped(draws, |colors|, |sizes|)
    requires i < |colors| && j < |sizes|
    ensures i * |sizes| + j < |StockMatrix(product, colors, sizes, draws)|
    ensures StockMatrix(product, colors, sizes, draws)[i * |sizes| + j] == StockRow(product, colors[i], sizes[j], draws[i][j])
  {
    FlattenAt(StockBlocks(product, colors, sizes, draws), |sizes|, i, j);
  }

  /**
   * Every row of the stock matrix references the product, holds the seed
   * quantity, and, when the draws are in range, is priced in
   * [100 * price - 501, 100 * price + 399] cents.
   */
  lemma StockMatrixRows(product: Product, colors: seq<Color>, sizes: seq<Size>, draws: seq<seq<int>>, price: int)
    requires DrawsShaped(draws, |colors|, |sizes|)
    ensures forall r :: r in StockMatrix(product, colors, sizes, draws) ==>
      r.product == product && r.stock == SeedStock && r.color in colors && r.size in sizes &&
      (DrawsInRange(draws, price) ==> 100 * price - 501 <= r.priceCents <= 100 * price + 399)
  {
    var blocks := StockBlocks(product, colors, sizes, draws);
    forall r: ProductStock | r in Flatten(blocks)
      ensures r.product == product && r.stock == SeedStock && r.color in colors && r.size in sizes
      ensures DrawsInRange(draws, price) ==> 100 * price - 501 <= r.priceCents <= 100 * price + 399
    {
      FlattenMember(blocks, r);
      var i :| 0 <= i < |blocks| && r in blocks[i];
      var j :| 0 <= j < |sizes| && blocks[i][j] == r;
      if DrawsInRange(draws, price) {
        StockRowPrice(product, colors[i], sizes[j], draws[i][j], price);
      }
    }
  }

  /**
   * GetProductStocksForSeeding: for each colour, for each size, one row
   * priced from that cell's draw with the seed quantity.
   */
  method GetProductStocksForSeeding(product: Product, colors: seq<Color>, price: int, sizes: seq<Size>, draws: seq<seq<int>>)
    returns (list: seq<ProductStock>)
    requires |colors| * |sizes| != 0 ==> DrawBoundsFit(price)
    requires DrawsShaped(draws, |colors|, |sizes|) && DrawsInRange(draws, price)
    ensures list == StockMatrix(product, colors, sizes, draws)
    ensures |list| == |colors| * |sizes|
    ensures forall r :: r in list ==>
      r.product == product && r.stock == SeedStock && 100 * price - 501 <= r.priceCents <= 100 * price + 399
  {
    ghost var blocks := StockBlocks(product, colors, sizes, draws);
    list := [];
    var i := 0;
    while i < |colors|
      invariant 0 <= i <= |colors|
      invariant list == Flatten(blocks[..i])
    {
      var j := 0;
      while j < |sizes|
        invariant 0 <= j <= |sizes|
        invariant list == Flatten(blocks[..i]) + blocks[i][..j]
      {
        assert blocks[i][..j + 1] == blocks[i][..j] + [StockRow(product, colors[i], sizes[j], draws[i][j])];
        list := list + [StockRow(product, colors[i], sizes[j], draws[i][j])];
        j := j + 1;
      }
      assert blocks[..i + 1][..i] == blocks[..i];
      i := i + 1;
    }
    assert blocks[..|colors|] == blocks;
    StockMatrixLength(product, colors, sizes, draws);
    StockMatrixRows(product, colors, sizes, draws, price);
  }

  /** AddStocksToProduct: the product's stock collection becomes the stock matrix. */
  method AddStocksToProduct(product: Product, colors: seq<Color>, price: int, sizes: seq<Size>, draws: seq<seq<int>>)
    requires |colors| * |sizes| != 0 ==> DrawBoundsFit(price)
    requires DrawsShaped(draws, |colors|, |sizes|) && DrawsInRange(draws, price)
    modifies product`stocks
    ensures product.stocks == StockMatrix(product, colors, sizes, draws)
    ensures |product.stocks| == |colors| * |sizes|
  {
    product.stocks := GetProductStocksForSeeding(product, colors, price, sizes, draws);
  }

  // ---------------------------------------------------------------------------
  // Category sizes (CreateCategorySizeEntitiesFromList, AddSizesToCategory)
  // ---------------------------------------------------------------------------

  /** The projection of the size list onto one category. */
  function CategoryRows(category: Category, sizes: seq<Size>): seq<CategorySize>
  {
    seq(|sizes|, j requires 0 <= j < |sizes| => CategorySize(category, sizes[j]))
  }

  /** The per-category blocks of the association rows. */
  function CategoryBlocks(sizes: seq<Size>, categories: seq<Category>): seq<seq<CategorySize>>
  {
    seq(|categories|, i requires 0 <= i < |categories| => CategoryRows(categories[i], sizes))
  }

  /** The category-by-size association rows, categories outer, sizes inner. */
  function CategorySizeMatrix(sizes: seq<Size>, categories: seq<Category>): seq<CategorySize>
  {
    Flatten(CategoryBlocks(sizes, categories))
  }

  /**
   * There are |categories| * |sizes| association rows, and category i
   * receives the whole size list, in order, in the slice
   * [i * |sizes|, (i + 1) * |sizes|).
   */
  lemma CategorySizeMatrixLayout(sizes: seq<Size>, categories: seq<Category>, i: nat)
    requires i < |categories|
    ensures |CategorySizeMatrix(sizes, categories)| == |categories| * |sizes|
    ensures 0 <= i * |sizes| <= (i + 1) * |sizes| <= |categories| * |sizes|
    ensures CategorySizeMatrix(sizes, categories)[i * |sizes| .. (i + 1) * |sizes|] == CategoryRows(categories[i], sizes)
  {
    var blocks, m := CategoryBlocks(sizes, categories), |sizes|;
    assert Rectangular(blocks, m);
    FlattenLength(blocks, m);
    MulMonotone(i, i + 1, m);
    FlattenBlock(blocks, m, i);
    assert blocks[i] == CategoryRows(categories[i], sizes);
  }

  /** Each association row pairs a listed category with a listed size, and every such pair occurs. */
  lemma CategorySizeMatrixPairs(sizes: seq<Size>, categories: seq<Category>, c: Category, z: Size)
    ensures CategorySize(c, z) in CategorySizeMatrix(sizes, categories) <==> c in categories && z in sizes
  {
    var blocks := CategoryBlocks(sizes, categories);
    FlattenMember(blocks, CategorySize(c, z));
    if c in categories && z in sizes {
      var i :| 0 <= i < |categories| && categories[i] == c;
      var j :| 0 <= j < |sizes| && sizes[j] == z;
      assert blocks[i][j] == CategorySize(c, z);
    }
  }

  /** CreateCategorySizeEntitiesFromList: for each category, append the size list projected onto it. */
  method CreateCategorySizeEntitiesFromList(sizes: seq<Size>, categories: seq<Category>) returns (list: seq<CategorySize>)
    ensures list == CategorySizeMatrix(sizes, categories)
    ensures |list| == |categories| * |sizes|
  {
    ghost var blocks := CategoryBlocks(sizes, categories);
    list := [];
    var i := 0;
    while i < |categories|
      invariant 0 <= i <= |categories|
      invariant list == Flatten(blocks[..i])
    {
      list := list + CategoryRows(categories[i], sizes);
      assert blocks[..i + 1][..i] == blocks[..i];
      i := i + 1;
    }
    assert blocks[..|categories|] == blocks;
    assert Rectangular(blocks, |sizes|);
    FlattenLength(blocks, |sizes|);
  }

  /**
   * AddSizesToCategory: the category's size set becomes exactly the size
   * list, in order, every entry pointing at this category.
   */
  method AddSizesToCategory(category: Category, sizes: seq<Size>)
    modifies category`sizes
    ensures category.sizes == CategorySizeMatrix(sizes, [category])
    ensures |category.sizes| == |sizes|
    ensures forall k :: 0 <= k < |sizes| ==> category.sizes[k] == CategorySize(category, sizes[k])
  {
    category.sizes := CreateCategorySizeEntitiesFromList(sizes, [category]);
    CategorySizeMatrixLayout(sizes, [category], 0);
    assert category.sizes[0 * |sizes| .. 1 * |sizes|] == category.sizes;
  }

  // ---------------------------------------------------------------------------
  // Product categories (CreateProductCategoryEntitiesFromList, AddCategoriesToProduct)
  // ---------------------------------------------------------------------------

  /** The index-aware projection: the k-th category gets Order k + 1. */
  function CreateProductCategoryEntitiesFromList(categories: seq<Category>, product: Product): (r: seq<ProductCategory>)
    ensures |r| == |categories|
    ensures forall k :: 0 <= k < |r| ==> r[k].category == categories[k] && r[k].product == product
  {
    seq(|categories|, k requires 0 <= k < |categories| => ProductCategory(categories[k], product, k + 1))
  }

  /** The set {1, ..., n}. */
  function OneTo(n: nat): set<int>
  {
    if n == 0 then {} else OneTo(n - 1) + {n}
  }

  lemma {:induction false} OneToMember(n: nat, k: int)
    ensures k in OneTo(n) <==> 1 <= k <= n
  {
    if n > 0 {
      OneToMember(n - 1, k);
    }
  }

  /** The categories a membership list points at, in list order. */
  function CategoriesOf(entries: seq<ProductCategory>): seq<Category>
  {
    seq(|entries|, k requires 0 <= k < |entries| => entries[k].category)
  }

  /**
   * The memberships keep the categories and their order, all reference the
   * product, and their orders are strictly increasing and exactly 1..n.
   */
  lemma ProductCategoryOrders(categories: seq<Category>, product: Product)
    ensures CategoriesOf(CreateProductCategoryEntitiesFromList(categories, product)) == categories
    ensures forall e :: e in CreateProductCategoryEntitiesFromList(categories, product) ==> e.product == product
    ensures forall a, b :: 0 <= a < b < |categories| ==>
      CreateProductCategoryEntitiesFromList(categories, product)[a].order < CreateProductCategoryEntitiesFromList(categories, product)[b].order
    ensures (set e | e in CreateProductCategoryEntitiesFromList(categories, product) :: e.order)
      == OneTo(|categories|)
  {
    var r := CreateProductCategoryEntitiesFromList(categories, product);
    forall k | k in OneTo(|categories|)
      ensures k in (set e | e in r :: e.order)
    {
      OneToMember(|categories|, k);
      assert r[k - 1] in r && r[k - 1].order == k;
    }
    forall e | e in r
      ensures e.order in OneTo(|categories|)
    {
      OneToMember(|categories|, e.order);
    }
  }

  /** AddCategoriesToProduct: the product's memberships become the numbered list. */
  method AddCategoriesToProduct(product: Product, categories: seq<Category>)
    modifies product`categories
    ensures product.categories == CreateProductCategoryEntitiesFromList(categories, product)
    ensures CategoriesOf(product.categories) == categories
  {
    product.categories := CreateProductCategoryEntitiesFromList(categories, product);
    ProductCategoryOrders(categories, product);
  }

  // ---------------------------------------------------------------------------
  // Sizes from a dictionary (CreateSizeEntitiesFromList)
  // ---------------------------------------------------------------------------

  /** The name/value pairs a size list carries, in order. */
  function SizePairs(sizes: seq<Size>): seq<(string, int)>
  {
    seq(|sizes|, k requires 0 <= k < |sizes| => (sizes[k].name, sizes[k].value))
  }

  /**
   * One Size per dictionary entry, in enumeration order, named by the key,
   * valued by the value, with the k-th fresh id.
   */
  function CreateSizeEntitiesFromList(entries: seq<(string, int)>, ids: seq<Id>): (r: seq<Size>)
    requires |ids| == |entries|
    ensures SizePairs(r) == entries
    ensures forall k :: 0 <= k < |r| ==> r[k].id == ids[k]
  {
    seq(|entries|, k requires 0 <= k < |entries| => Size(ids[k], entries[k].0, entries[k].1))
  }

  // ---------------------------------------------------------------------------
  // Images and materials (AddImagesToProduct, AddMaterialsToProduct)
  // ---------------------------------------------------------------------------

  /** AddImagesToProduct: appends one image set for the colour; earlier entries stay as they were. */
  method AddImagesToProduct(product: Product, color: Color, imageUrls: seq<string>, now: Time)
    modifies product`images
    ensures product.images == old(product.images) + [ProductImage(product, color, imageUrls, now, now)]
  {
    product.images := product.images + [ProductImage(product, color, imageUrls, now, now)];
  }

  /** AddMaterialsToProduct: appends one composition line; earlier entries stay as they were. */
  method AddMaterialsToProduct(product: Product, material: Material, percentage: real)
    modifies product`materials
    ensures product.materials == old(product.materials) + [ProductMaterial(product, material, percentage)]
  {
    product.materials := product.materials + [ProductMaterial(product, material, percentage)];
  }
}

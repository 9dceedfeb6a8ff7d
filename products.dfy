/** The product catalogue handlers: the list query built from the request's
    filter and sort parameters, the create-time validation and defaults,
    the update merge, the delete-time image rule, and the file name under
    which an uploaded image is saved. */
module Products {
  import opened Http
  import opened Text
  import opened Paths

  type ProductId = string
  type UserId = string

  /** A JavaScript number as `Number(...)` produces it: NaN, or a value
      (prices in minor units). */
  datatype JsNumber = NaN | Num(v: int)

  /** `0` and `NaN` are the falsy numbers. */
  predicate NumTruthy(n: JsNumber) {
    n.Num? && n.v != 0
  }

  /** A multipart form field: absent, or its text together with what
      `Number` makes of that text (`Number(undefined)` is NaN). */
  datatype FormField = Absent | Given(text: string, number: JsNumber)

  /** A form field is truthy when it is present and not the empty string;
      the text "0" is truthy. */
  predicate Truthy(f: FormField) {
    f.Given? && f.text != ""
  }

  function TextOf(f: FormField): string {
    if f.Given? then f.text else ""
  }

  function NumberOf(f: FormField): JsNumber {
    if f.Given? then f.number else NaN
  }

  /** A stored product as the handlers read and write it. */
  datatype ProductRecord = ProductRecord(
    name: string,
    price: JsNumber,
    description: string,
    category: string,
    countInStock: JsNumber,
    imageUrl: string,
    user: UserId)

  // ---------------------------------------------------------------------
  // Uploaded image naming

  /** The part of an uploaded file the naming rule uses. */
  datatype UploadedFile = UploadedFile(originalname: string)

  const UploadsPrefix: string := "/uploads/"
  const WebpExtension: string := ".webp"

  /** optimizeAndSaveImage: no file gives no path; otherwise the public path
      `/uploads/<now>-<original name without extension>.webp`. */
  function OptimizeAndSaveImage(file: Option<UploadedFile>, now: nat): (r: Option<string>)
    ensures file.None? <==> r.None?
    ensures r.Some? ==> StartsWith(r.value, UploadsPrefix) && |r.value| > |UploadsPrefix|
  {
    if file.None? then None
    else Some(UploadsPrefix + SavedName(file.value, now))
  }

  /** The saved file's base name. */
  function SavedName(file: UploadedFile, now: nat): string {
    NatToString(now) + "-" + ParsedName(file.originalname) + WebpExtension
  }

  lemma ParsedNameHasNoSlash(p: string)
    ensures '/' !in ParsedName(p)
  {
    var base := Basename(p);
    var name := ParsedName(p);
    assert name + Extname(p) == base;
    forall i | 0 <= i < |name|
      ensures name[i] != '/'
    {
      assert name[i] == base[i];
    }
  }

  lemma SavedNameHasNoSlash(file: UploadedFile, now: nat)
    ensures '/' !in SavedName(file, now)
  {
    var digits, name := NatToString(now), ParsedName(file.originalname);
    ParsedNameHasNoSlash(file.originalname);
    assert '/' !in digits;
    assert SavedName(file, now) == digits + "-" + name + WebpExtension;
  }

  /** A base name placed after a directory ending in '/' is that path's
      last segment. */
  lemma BasenameAfterDirectory(dir: string, base: string)
    requires |dir| > 0 && dir[|dir| - 1] == '/' && '/' !in base
    ensures Basename(dir + base) == base
  {
    var path := dir + base;
    forall j | |dir| - 1 < j < |path|
      ensures path[j] != '/'
    {
      assert path[j] == base[j - |dir|];
    }
    LastIndexIs(path, '/', |dir| - 1);
    assert path[|dir|..] == base;
  }

  /** A non-empty stem followed by `.webp` splits into the stem and `.webp`. */
  lemma WebpSplits(stem: string)
    requires stem != ""
    ensures SplitExtension(stem + WebpExtension) == (stem, WebpExtension)
  {
    var base := stem + WebpExtension;
    assert base[|stem|] == '.';
    forall j | |stem| < j < |base|
      ensures base[j] != '.'
    {
      assert base[j] == WebpExtension[j - |stem|];
    }
    LastIndexIs(base, '.', |stem|);
    assert base[..|stem|] == stem && base[|stem|..] == WebpExtension;
  }

  /** The saved path parses back to the uploads directory's file whose name
      is the timestamp joined to the original name and whose extension is
      `.webp`, whatever the original extension was. */
  lemma SavedPathParses(file: UploadedFile, now: nat)
    ensures var path := OptimizeAndSaveImage(Some(file), now).value;
      && Basename(path) == SavedName(file, now)
      && Extname(path) == WebpExtension
      && ParsedName(path) == NatToString(now) + "-" + ParsedName(file.originalname)
  {
    var stem := NatToString(now) + "-" + ParsedName(file.originalname);
    SavedNameHasNoSlash(file, now);
    BasenameAfterDirectory(UploadsPrefix, SavedName(file, now));
    WebpSplits(stem);
  }

  // ---------------------------------------------------------------------
  // Listing

  /** The query-string parameters: an empty `categories`, `sortBy` or
      `search` is an absent one; a price bound is present when its string is
      non-empty, and then stands for its numeric value. */
  datatype ListParams = ListParams(
    categories: string,
    minPrice: Option<int>,
    maxPrice: Option<int>,
    sortBy: string,
    search: string)

  datatype PriceRange = PriceRange(gte: Option<int>, lte: Option<int>)

  /** The MongoDB filter the handler builds; None is an absent key. */
  datatype ProductQuery = ProductQuery(
    category: Option<seq<string>>,
    price: Option<PriceRange>,
    search: Option<string>)

  datatype SortField = Price | Rating | CreatedAt

  /** One sort key and its direction (1 ascending, -1 descending). */
  datatype SortOption = SortOption(field: SortField, order: int)

  /** The case-insensitive `$regex` test is a parameter: `regexMatch(pattern,
      text)`. */
  predicate InRange(price: JsNumber, range: PriceRange) {
    && (range.gte.Some? ==> price.Num? && price.v >= range.gte.value)
    && (range.lte.Some? ==> price.Num? && price.v <= range.lte.value)
  }

  /** Whether a stored product satisfies a built query. */
  predicate Matches(q: ProductQuery, p: ProductRecord, regexMatch: (string, string) -> bool) {
    && (q.category.Some? ==> p.category in q.category.value)
    && (q.price.Some? ==> InRange(p.price, q.price.value))
    && (q.search.Some? ==> regexMatch(q.search.value, p.name) || regexMatch(q.search.value, p.description))
  }

  /** Which products a listing request asks for, stated on the request's
      parameters directly. */
  predicate Requested(params: ListParams, p: ProductRecord, regexMatch: (string, string) -> bool) {
    && (params.categories != "" ==> p.category in Split(params.categories, ','))
    && (params.minPrice.Some? ==> p.price.Num? && p.price.v >= params.minPrice.value)
    && (params.maxPrice.Some? ==> p.price.Num? && p.price.v <= params.maxPrice.value)
    && (params.search != "" ==>
          regexMatch(params.search, p.name) || regexMatch(params.search, p.description))
  }

  /** getProducts' query and sort construction. */
  method BuildQuery(params: ListParams, ghost regexMatch: (string, string) -> bool)
    returns (query: ProductQuery, sort: Option<SortOption>)
    ensures forall p :: Matches(query, p, regexMatch) <==> Requested(params, p, regexMatch)
    ensures params.sortBy == "" <==> sort.None?
    ensures params.sortBy == "price_asc" ==> sort == Some(SortOption(Price, 1))
    ensures params.sortBy == "price_desc" ==> sort == Some(SortOption(Price, -1))
    ensures params.sortBy == "rating" ==> sort == Some(SortOption(Rating, -1))
    ensures params.sortBy !in {"", "price_asc", "price_desc", "rating"} ==>
              sort == Some(SortOption(CreatedAt, -1))
  {
    query := ProductQuery(None, None, None);
    if params.categories != "" {
      query := query.(category := Some(Split(params.categories, ',')));
    }
    if params.minPrice.Some? || params.maxPrice.Some? {
      var range := PriceRange(None, None);
      if params.minPrice.Some? {
        range := range.(gte := Some(params.minPrice.value));
      }
      if params.maxPrice.Some? {
        range := range.(lte := Some(params.maxPrice.value));
      }
      query := query.(price := Some(range));
    }
    if params.search != "" {
      query := query.(search := Some(params.search));
    }
    sort := None;
    if params.sortBy != "" {
      if params.sortBy == "price_asc" {
        sort := Some(SortOption(Price, 1));
      } else if params.sortBy == "price_desc" {
        sort := Some(SortOption(Price, -1));
      } else if params.sortBy == "rating" {
        sort := Some(SortOption(Rating, -1));
      } else {
        sort := Some(SortOption(CreatedAt, -1));
      }
    }
  }

  lemma {:induction false} SplitWithoutSeparator(s: string, sep: char)
    requires sep !in s
    ensures Split(s, sep) == [s]
    decreases |s|
  {
    if s != [] {
      SplitWithoutSeparator(s[1..], sep);
      assert [s[0]] + s[1..] == s;
    }
  }

  /** A single category (no comma) selects exactly the products of that
      category. */
  lemma SingleCategory(params: ListParams, p: ProductRecord, regexMatch: (string, string) -> bool)
    requires params.categories != "" && ',' !in params.categories
    requires params.minPrice.None? && params.maxPrice.None? && params.search == ""
    ensures Requested(params, p, regexMatch) <==> p.category == params.categories
  {
    SplitWithoutSeparator(params.categories, ',');
  }

  /** Both price bounds are inclusive. */
  lemma PriceBoundsInclusive(params: ListParams, p: ProductRecord, regexMatch: (string, string) -> bool)
    requires params.categories == "" && params.search == ""
    requires p.price.Num? && params.minPrice == Some(p.price.v) && params.maxPrice == Some(p.price.v)
    ensures Requested(params, p, regexMatch)
  {
  }

  // ---------------------------------------------------------------------
  // Create, update, delete

  datatype ProductBody = ProductBody(
    name: FormField,
    price: FormField,
    description: FormField,
    category: FormField,
    countInStock: FormField)

  const MsgRequiredFields: string := "Please fill in all required fields"
  const MsgProductNotFound: string := "Product not found"
  const MsgProductRemoved: string := "Product removed"

  predicate RequiredPresent(body: ProductBody) {
    Truthy(body.name) && Truthy(body.price) && Truthy(body.description) && Truthy(body.category)
  }

  /** createProduct's record: 400 when a required field is falsy; otherwise
      the fields as sent, a stock count that is never NaN (0 when the sent
      one is 0, NaN or missing), and the saved image path or "". */
  function NewProduct(body: ProductBody, image: Option<string>, user: UserId): (r: Result<ProductRecord>)
    ensures r.Err? <==> !RequiredPresent(body)
    ensures r.Err? ==> r.error == Error(BadRequest, MsgRequiredFields)
    ensures r.Ok? ==>
      && r.value.name == body.name.text && r.value.description == body.description.text
      && r.value.category == body.category.text && r.value.price == NumberOf(body.price)
      && r.value.user == user
      && r.value.countInStock.Num?
      && (NumTruthy(NumberOf(body.countInStock)) ==> r.value.countInStock == NumberOf(body.countInStock))
      && (!NumTruthy(NumberOf(body.countInStock)) ==> r.value.countInStock == Num(0))
      && (image.Some? && image.value != "" ==> r.value.imageUrl == image.value)
      && (image.None? || image.value == "" ==> r.value.imageUrl == "")
  {
    if !RequiredPresent(body) then Err(Error(BadRequest, MsgRequiredFields))
    else
      var count := NumberOf(body.countInStock);
      var imageUrl := if image.Some? then image.value else "";
      Ok(ProductRecord(
        body.name.text,
        NumberOf(body.price),
        body.description.text,
        body.category.text,
        if NumTruthy(count) then count else Num(0),
        imageUrl,
        user))
  }

  /** updateProduct's merged record: name, description and category keep
      their old values when the sent one is falsy, price when the sent
      number is 0 or NaN, the image when no new one was saved; the stock
      count is always the sent one converted by `Number`. */
  function MergeProduct(stored: ProductRecord, body: ProductBody, newImage: Option<string>): (r: ProductRecord)
    ensures r.user == stored.user
    ensures r.countInStock == NumberOf(body.countInStock)
    ensures Truthy(body.name) ==> r.name == body.name.text
    ensures !Truthy(body.name) ==> r.name == stored.name
    ensures NumTruthy(NumberOf(body.price)) ==> r.price == NumberOf(body.price)
    ensures !NumTruthy(NumberOf(body.price)) ==> r.price == stored.price
    ensures Truthy(body.description) ==> r.description == body.description.text
    ensures !Truthy(body.description) ==> r.description == stored.description
    ensures Truthy(body.category) ==> r.category == body.category.text
    ensures !Truthy(body.category) ==> r.category == stored.category
    ensures newImage.Some? && newImage.value != "" ==> r.imageUrl == newImage.value
    ensures newImage.None? || newImage.value == "" ==> r.imageUrl == stored.imageUrl
  {
    var imageUrl := if newImage.Some? then newImage.value else stored.imageUrl;
    stored.(
      name := if Truthy(body.name) then body.name.text else stored.name,
      price := if NumTruthy(NumberOf(body.price)) then NumberOf(body.price) else stored.price,
      description := if Truthy(body.description) then body.description.text else stored.description,
      category := if Truthy(body.category) then body.category.text else stored.category,
      countInStock := NumberOf(body.countInStock),
      imageUrl := if imageUrl != "" then imageUrl else stored.imageUrl)
  }

  /** The `?? product.countInStock` fallback never applies: the new stock
      count does not depend on the stored product at all, and a body without
      a stock count turns it into NaN. */
  lemma StockFallbackNeverFires(a: ProductRecord, b: ProductRecord, body: ProductBody, image: Option<string>)
    ensures MergeProduct(a, body, image).countInStock == MergeProduct(b, body, image).countInStock
    ensures body.countInStock.Absent? ==> MergeProduct(a, body, image).countInStock == NaN
  {
  }

  /** An update that sends nothing keeps every field except the stock count;
      applying an update twice is applying it once. */
  lemma MergeProductLaws(p: ProductRecord, body: ProductBody, image: Option<string>)
    ensures MergeProduct(p, ProductBody(Absent, Absent, Absent, Absent, Absent), None) == p.(countInStock := NaN)
    ensures MergeProduct(MergeProduct(p, body, image), body, image) == MergeProduct(p, body, image)
  {
  }

  /** deleteProduct unlinks the stored image only when there is one and it is
      not a default image. */
  function ImageToRemove(imageUrl: string): (r: bool)
    ensures r ==> imageUrl != ""
    ensures Contains(imageUrl, "default") ==> !r
    ensures imageUrl != "" && !Contains(imageUrl, "default") ==> r
  {
    imageUrl != "" && !Contains(imageUrl, "default")
  }

  /** The two unlink rules differ on a default image: replacing it on update
      unlinks it, deleting the product keeps it. */
  lemma DefaultImageUnlinkedOnlyOnUpdate(stored: ProductRecord, file: UploadedFile)
    requires stored.imageUrl == "/uploads/default.webp"
    ensures ImageReplaced(stored, Some(file)) == Some(stored.imageUrl)
    ensures !ImageToRemove(stored.imageUrl)
  {
    assert stored.imageUrl[9..16] == "default";
    assert OccursAt(stored.imageUrl, "default", 9);
  }

  /** updateProduct unlinks the previous image whenever a new file arrives
      and the product has one; it does not check for a default image. */
  function ImageReplaced(stored: ProductRecord, file: Option<UploadedFile>): (r: Option<string>)
    ensures r.Some? <==> file.Some? && stored.imageUrl != ""
    ensures r.Some? ==> r.value == stored.imageUrl
  {
    if file.Some? && stored.imageUrl != "" then Some(stored.imageUrl) else None
  }

  class ProductStore {
    var products: map<ProductId, ProductRecord>

    constructor (products: map<ProductId, ProductRecord>)
      ensures this.products == products
    {
      this.products := products;
    }

    /** createProduct under the new id the database assigns. */
    method CreateProduct(newId: ProductId, body: ProductBody, file: Option<UploadedFile>, user: UserId, now: nat)
      returns (r: Result<ProductRecord>)
      requires newId !in products
      modifies this
      ensures r == NewProduct(body, OptimizeAndSaveImage(file, now), user)
      ensures r.Ok? ==> products == old(products)[newId := r.value]
      ensures r.Err? ==> products == old(products)
    {
      if !RequiredPresent(body) {
        return Err(Error(BadRequest, MsgRequiredFields));
      }
      var imageUrl := OptimizeAndSaveImage(file, now);
      r := NewProduct(body, imageUrl, user);
      products := products[newId := r.value];
    }

    /** updateProduct: 404 for a missing product; otherwise the merged
        record is stored and returned, and `unlinked` is the previous image
        the handler deletes. */
    method UpdateProduct(id: ProductId, body: ProductBody, file: Option<UploadedFile>, now: nat)
      returns (r: Result<ProductRecord>, unlinked: Option<string>)
      modifies this
      ensures id !in old(products) ==>
                r == Err(Error(NotFound, MsgProductNotFound)) && unlinked.None? && products == old(products)
      ensures id in old(products) ==>
                && unlinked == ImageReplaced(old(products)[id], file)
                && products == old(products)[id := MergeProduct(old(products)[id], body, OptimizeAndSaveImage(file, now))]
                && r == Ok(products[id])
    {
      if id !in products {
        return Err(Error(NotFound, MsgProductNotFound)), None;
      }
      var product := products[id];
      var imageUrl := product.imageUrl;
      unlinked := None;
      if file.Some? {
        if product.imageUrl != "" {
          unlinked := Some(product.imageUrl);
        }
        imageUrl := OptimizeAndSaveImage(file, now).value;
      }
      var updated := MergeProduct(product, body, if file.Some? then Some(imageUrl) else None);
      products := products[id := updated];
      r := Ok(updated);
    }

    /** deleteProduct: 404 for a missing product; otherwise the product is
        removed whether or not its image could be unlinked, and `unlinked`
        is the image the handler tries to delete. */
    method DeleteProduct(id: ProductId) returns (r: Result<string>, unlinked: Option<string>)
      modifies this
      ensures id !in old(products) ==>
                r == Err(Error(NotFound, MsgProductNotFound)) && unlinked.None? && products == old(products)
      ensures id in old(products) ==>
                && (unlinked.Some? <==> ImageToRemove(old(products)[id].imageUrl))
                && (unlinked.Some? ==> unlinked.value == old(products)[id].imageUrl)
                && products == old(products) - {id}
                && r == Ok(MsgProductRemoved)
    {
      if id !in products {
        return Err(Error(NotFound, MsgProductNotFound)), None;
      }
      var imageUrl := products[id].imageUrl;
      unlinked := if ImageToRemove(imageUrl) then Some(imageUrl) else None;
      products := products - {id};
      r := Ok(MsgProductRemoved);
    }
  }
}

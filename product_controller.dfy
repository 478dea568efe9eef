/** The admin product controller: listing, creation with uploaded images, the whitelisted update with
    its image merge, and deletion. The image host is left out: an upload is a function from the file's
    path to the hosted image, and deleting hosted images has no effect on the model. */
module ProductController {
  import opened Common
  import opened Sorting
  import opened ProductModel
  import Text
  import Store

  // ---------------------------------------------------------------------------------------------
  // getAllProducts (and the public `/get-all-products`)

  function NegCreatedAt(p: Product): int
  {
    -p.createdAt
  }

  /** `Product.find().sort({ createdAt: -1 })`: every product, active or not, newest first. */
  function NewestFirst(products: seq<Product>): (r: seq<Product>)
    ensures multiset(r) == multiset(products)
    ensures forall i, j :: 0 <= i < j < |r| ==> r[i].createdAt >= r[j].createdAt
  {
    var r := SortBy(products, NegCreatedAt);
    assert forall i, j :: 0 <= i < j < |r| ==> NegCreatedAt(r[i]) <= NegCreatedAt(r[j]);
    r
  }

  /** The listing hides nothing: inactive products are listed too. */
  lemma NewestFirstListsAll(products: seq<Product>, p: Product)
    ensures p in NewestFirst(products) <==> p in products
  {
    SameElements(NewestFirst(products), products);
  }

  // ---------------------------------------------------------------------------------------------
  // addNewProduct

  /** An uploaded file as the upload middleware reports it: the hosted URL and the host's handle. */
  datatype UploadedFile = UploadedFile(path: string, filename: string)

  /** `req.files.map(file => ({ url: file.path, public_id: file.filename }))`. */
  function UploadedImages(files: seq<UploadedFile>): (r: seq<Image>)
    ensures |r| == |files|
    ensures forall k :: 0 <= k < |files| ==> r[k] == Image(files[k].path, files[k].filename)
  {
    if files == [] then [] else [Image(files[0].path, files[0].filename)] + UploadedImages(files[1..])
  }

  /** The body of `addNewProduct`; `price` is `None` when absent. */
  datatype AddRequest = AddRequest(name: string, price: Option<int>, category: string,
                                   description: Option<string>, stock: Option<int>)

  /** `!name || !price || !category`: an empty name or category, or a missing or zero price. */
  predicate MissingRequired(req: AddRequest)
  {
    req.name == "" || req.price.None? || req.price.value == 0 || req.category == ""
  }

  /** The document handed to `Product.create`: the body's defaults (description "", stock 0), always
      active, and one image per uploaded file. */
  function AddDocument(req: AddRequest, files: seq<UploadedFile>): ProductInput
    requires req.price.Some?
  {
    ProductInput(req.name, req.price.value, req.category,
                 Some(if req.description.Some? then req.description.value else ""),
                 UploadedImages(files),
                 Some(if req.stock.Some? then req.stock.value else 0),
                 Some(true))
  }

  /** 201 with the product, 400 for a missing field, 500 when the schema refuses the document. */
  datatype AddResult = Added(product: Product) | MissingFields | AddFailed

  /** A product added without description or stock gets "" and 0; every added product is active and has
      exactly the uploaded images, in upload order. */
  lemma AddedProductShape(req: AddRequest, files: seq<UploadedFile>, id: nat, now: int)
    requires !MissingRequired(req)
    requires ProductModel.Create(AddDocument(req, files), id, now).Some?
    ensures var p := ProductModel.Create(AddDocument(req, files), id, now).value;
      && p.isActive
      && p.description == (if req.description.Some? then req.description.value else "")
      && p.stock == (if req.stock.Some? then req.stock.value else 0)
      && |p.images| == |files|
      && (forall k :: 0 <= k < |files| ==> p.images[k] == Image(files[k].path, files[k].filename))
      && p.price == req.price.value && p.price > 0
  {
  }

  /** `addNewProduct`: the first check stores nothing; a created product is appended under a fresh key. */
  method AddNewProduct(db: Store.Db, req: AddRequest, files: seq<UploadedFile>, now: int) returns (r: AddResult)
    requires db.Valid()
    modifies db
    ensures db.Valid()
    ensures r == MissingFields <==> MissingRequired(req)
    ensures r.Added? ==>
      && ProductModel.Create(AddDocument(req, files), old(db.nextId), now) == Some(r.product)
      && db.products == old(db.products) + [r.product]
      && db.nextId == old(db.nextId) + 1
    ensures r == AddFailed ==> ProductModel.Create(AddDocument(req, files), old(db.nextId), now).None?
    ensures !r.Added? ==> db.products == old(db.products) && db.nextId == old(db.nextId)
    ensures db.orders == old(db.orders) && db.bills == old(db.bills)
    ensures db.bookings == old(db.bookings) && db.users == old(db.users)
  {
    if MissingRequired(req) {
      return MissingFields;
    }
    var created := ProductModel.Create(AddDocument(req, files), db.nextId, now);
    if created.None? {
      return AddFailed;
    }
    db.AppendProduct(created.value);
    r := Added(created.value);
  }

  // ---------------------------------------------------------------------------------------------
  // updateProduct

  /** A value of the request body. */
  datatype Value = StrValue(s: string) | NumValue(n: int) | BoolValue(b: bool)

  /** The fields an update may set. */
  const Updatable: seq<string> := ["name", "price", "category", "description", "stock", "isActive"]

  /** The whitelist: the body's entries for the updatable fields, and nothing else. */
  function Whitelisted(body: map<string, Value>): (u: map<string, Value>)
    ensures u.Keys == body.Keys * set k | k in Updatable
    ensures forall k :: k in u ==> u[k] == body[k]
  {
    map k | k in body && k in Updatable :: body[k]
  }

  /** The `forEach` over the updatable fields that copies each one the body defines. */
  method BuildUpdate(body: map<string, Value>) returns (update: map<string, Value>)
    ensures update == Whitelisted(body)
  {
    update := map[];
    var i := 0;
    while i < |Updatable|
      invariant 0 <= i <= |Updatable|
      invariant update == map k | k in body && k in Updatable[..i] :: body[k]
    {
      var k := Updatable[i];
      assert Updatable[..i + 1] == Updatable[..i] + [k];
      if k in body {
        update := update[k := body[k]];
      }
      i := i + 1;
    }
    assert Updatable[..i] == Updatable;
  }

  /** A value of the kind the schema declares for the field; any other value fails the cast. */
  predicate KindOk(k: string, v: Value)
  {
    if k == "name" || k == "category" || k == "description" then v.StrValue?
    else if k == "price" || k == "stock" then v.NumValue?
    else if k == "isActive" then v.BoolValue?
    else true
  }

  /** `findByIdAndUpdate(id, update, { new: true })` on product `p`: each field the update names takes its
      value after the `trim` setters, the images are replaced by `images`, `updatedAt` becomes `now` (the
      `timestamps` option); a value of the wrong kind fails the cast and nothing is written. The
      validators do not run on this path. */
  function ApplyUpdate(p: Product, update: map<string, Value>, images: seq<Image>, now: int): Option<Product>
  {
    if exists k :: k in update && !KindOk(k, update[k]) then None
    else Some(Product(
      p.id,
      if "name" in update then Text.Trim(update["name"].s) else p.name,
      if "price" in update then update["price"].n else p.price,
      if "category" in update then Text.Trim(update["category"].s) else p.category,
      if "description" in update then update["description"].s else p.description,
      images,
      if "stock" in update then update["stock"].n else p.stock,
      if "isActive" in update then update["isActive"].b else p.isActive,
      p.createdAt,
      now))
  }

  /** `{ id }` as a filter. */
  function WithId(id: nat): Product -> bool
  {
    (p: Product) => p.id == id
  }

  /** `upload` stands for the image host: the hosted image a file's path becomes. */
  function NewImages(files: seq<UploadedFile>, upload: string -> Image): (r: seq<Image>)
    ensures |r| == |files|
    ensures forall k :: 0 <= k < |files| ==> r[k] == upload(files[k].path)
  {
    if files == [] then [] else [upload(files[0].path)] + NewImages(files[1..], upload)
  }

  /** The product after `updateProduct`, if the casts succeed: `[...product.images, ...newImages]`. */
  function Updated(p: Product, body: map<string, Value>, files: seq<UploadedFile>, upload: string -> Image, now: int)
    : Option<Product>
  {
    ApplyUpdate(p, Whitelisted(body), p.images + NewImages(files, upload), now)
  }

  /** A field outside the body keeps its value; the key and the creation time never change; the images
      are the old ones followed by the new ones; the update time is now. */
  lemma UpdatedKeepsOthers(p: Product, body: map<string, Value>, files: seq<UploadedFile>, upload: string -> Image, now: int)
    requires Updated(p, body, files, upload, now).Some?
    ensures var q := Updated(p, body, files, upload, now).value;
      && q.id == p.id && q.createdAt == p.createdAt && q.updatedAt == now
      && q.images == p.images + NewImages(files, upload)
      && q.images[..|p.images|] == p.images
      && ("name" !in body ==> q.name == p.name)
      && ("price" !in body ==> q.price == p.price)
      && ("category" !in body ==> q.category == p.category)
      && ("description" !in body ==> q.description == p.description)
      && ("stock" !in body ==> q.stock == p.stock)
      && ("isActive" !in body ==> q.isActive == p.isActive)
  {
    var q := Updated(p, body, files, upload, now).value;
    assert q.images[..|p.images|] == p.images;
  }

  /** A field in the body takes the body's value (trimmed for the two trimmed strings). */
  lemma UpdatedSetsGiven(p: Product, body: map<string, Value>, files: seq<UploadedFile>, upload: string -> Image, now: int)
    requires Updated(p, body, files, upload, now).Some?
    ensures var q := Updated(p, body, files, upload, now).value;
      && ("name" in body ==> body["name"].StrValue? && q.name == Text.Trim(body["name"].s))
      && ("price" in body ==> body["price"].NumValue? && q.price == body["price"].n)
      && ("category" in body ==> body["category"].StrValue? && q.category == Text.Trim(body["category"].s))
      && ("description" in body ==> body["description"].StrValue? && q.description == body["description"].s)
      && ("stock" in body ==> body["stock"].NumValue? && q.stock == body["stock"].n)
      && ("isActive" in body ==> body["isActive"].BoolValue? && q.isActive == body["isActive"].b)
  {
    var u := Whitelisted(body);
    AppliedSetsGiven(p, u, p.images + NewImages(files, upload), now);
    assert forall k :: k in Updatable ==> (k in body <==> k in u);
  }

  /** An update that passes the casts writes each field it names, after the `trim` setters. */
  lemma AppliedSetsGiven(p: Product, u: map<string, Value>, images: seq<Image>, now: int)
    requires ApplyUpdate(p, u, images, now).Some?
    ensures var q := ApplyUpdate(p, u, images, now).value;
      && ("name" in u ==> u["name"].StrValue? && q.name == Text.Trim(u["name"].s))
      && ("price" in u ==> u["price"].NumValue? && q.price == u["price"].n)
      && ("category" in u ==> u["category"].StrValue? && q.category == Text.Trim(u["category"].s))
      && ("description" in u ==> u["description"].StrValue? && q.description == u["description"].s)
      && ("stock" in u ==> u["stock"].NumValue? && q.stock == u["stock"].n)
      && ("isActive" in u ==> u["isActive"].BoolValue? && q.isActive == u["isActive"].b)
  {
    assert forall k :: k in u ==> KindOk(k, u[k]);
  }

  /** Entries outside the whitelist have no effect: two bodies agreeing on the updatable fields update a
      product alike. */
  lemma UpdateIgnoresOtherFields(p: Product, a: map<string, Value>, b: map<string, Value>,
                                 files: seq<UploadedFile>, upload: string -> Image, now: int)
    requires forall k :: k in Updatable ==> (k in a <==> k in b) && (k in a ==> a[k] == b[k])
    ensures Updated(p, a, files, upload, now) == Updated(p, b, files, upload, now)
  {
    assert Whitelisted(a) == Whitelisted(b);
  }

  /** The update does not run the validators: any number sent as the price and any number sent as the
      stock, negative ones included, is stored as sent. */
  lemma UpdateSkipsValidators(p: Product, price: int, stock: int, files: seq<UploadedFile>,
                              upload: string -> Image, now: int)
    ensures var q := Updated(p, map["price" := NumValue(price), "stock" := NumValue(stock)], files, upload, now);
      q.Some? && q.value.price == price && q.value.stock == stock
    ensures var q := Updated(p, map["price" := NumValue(price)], files, upload, now);
      q.Some? && q.value.price == price
    ensures var q := Updated(p, map["stock" := NumValue(stock)], files, upload, now);
      q.Some? && q.value.stock == stock
  {
    SkipsValidatorsOn(p, map["price" := NumValue(price), "stock" := NumValue(stock)], files, upload, now);
    SkipsValidatorsOn(p, map["price" := NumValue(price)], files, upload, now);
    SkipsValidatorsOn(p, map["stock" := NumValue(stock)], files, upload, now);
  }

  /** A body of numbers for `price` and `stock` only is stored as sent. */
  lemma SkipsValidatorsOn(p: Product, body: map<string, Value>, files: seq<UploadedFile>, upload: string -> Image, now: int)
    requires body.Keys <= {"price", "stock"}
    requires forall k :: k in body ==> body[k].NumValue?
    ensures var q := Updated(p, body, files, upload, now);
      && q.Some?
      && ("price" in body ==> q.value.price == body["price"].n)
      && ("stock" in body ==> q.value.stock == body["stock"].n)
  {
    UpdateFailsIff(p, body, files, upload, now);
    UpdatedSetsGiven(p, body, files, upload, now);
  }

  /** The update fails exactly when a whitelisted field of the body has a value of the wrong kind. */
  lemma UpdateFailsIff(p: Product, body: map<string, Value>, files: seq<UploadedFile>, upload: string -> Image, now: int)
    ensures Updated(p, body, files, upload, now).None? <==>
      exists k :: k in body && k in Updatable && !KindOk(k, body[k])
  {
    var u := Whitelisted(body);
    if exists k :: k in body && k in Updatable && !KindOk(k, body[k]) {
      var k :| k in body && k in Updatable && !KindOk(k, body[k]);
      assert k in u && !KindOk(k, u[k]);
    }
  }

  /** 200 with the product, 404, or the 500 of a failed cast. */
  datatype UpdateResult = UpdatedProduct(product: Product) | ProductNotFound | UpdateFailed

  /** `updateProduct`: only the product with the key changes, and only as `Updated` says. */
  method UpdateProduct(db: Store.Db, id: nat, body: map<string, Value>, files: seq<UploadedFile>,
                       upload: string -> Image, now: int) returns (r: UpdateResult)
    requires db.Valid()
    modifies db
    ensures db.Valid()
    ensures r == ProductNotFound <==> forall j :: 0 <= j < |old(db.products)| ==> old(db.products)[j].id != id
    ensures r.UpdatedProduct? ==>
      var i := FirstWhere(old(db.products), WithId(id)).value;
      && Updated(old(db.products)[i], body, files, upload, now) == Some(r.product)
      && db.products == old(db.products)[i := r.product]
    ensures r == UpdateFailed ==>
      Updated(old(db.products)[FirstWhere(old(db.products), WithId(id)).value], body, files, upload, now).None?
    ensures !r.UpdatedProduct? ==> db.products == old(db.products)
    ensures db.orders == old(db.orders) && db.bills == old(db.bills) && db.bookings == old(db.bookings)
    ensures db.users == old(db.users) && db.nextId == old(db.nextId)
  {
    var found := Find(db.products, WithId(id));
    if found.None? {
      return ProductNotFound;
    }
    var i := found.value;
    var product := db.products[i];
    var added := NewImages(files, upload);
    var merged := product.images + added;
    var update := BuildUpdate(body);
    var q := ApplyUpdate(product, update, merged, now);
    if q.None? {
      return UpdateFailed;
    }
    db.products := db.products[i := q.value];
    r := UpdatedProduct(q.value);
  }

  // ---------------------------------------------------------------------------------------------
  // deleteProduct

  datatype DeleteResult = Deleted | NotFoundToDelete

  /** `deleteProduct`: 404 changes nothing; otherwise the product with the key is gone and the others stay,
      in order. */
  method DeleteProduct(db: Store.Db, id: nat) returns (r: DeleteResult)
    requires db.Valid()
    modifies db
    ensures db.Valid()
    ensures r == NotFoundToDelete <==> forall j :: 0 <= j < |old(db.products)| ==> old(db.products)[j].id != id
    ensures r == NotFoundToDelete ==> db.products == old(db.products)
    ensures r == Deleted ==>
      var i := FirstWhere(old(db.products), WithId(id)).value;
      db.products == old(db.products)[..i] + old(db.products)[i + 1..]
    ensures forall j :: 0 <= j < |db.products| ==> db.products[j].id != id
    ensures forall p :: p in old(db.products) && p.id != id ==> p in db.products
    ensures db.orders == old(db.orders) && db.bills == old(db.bills) && db.bookings == old(db.bookings)
    ensures db.users == old(db.users) && db.nextId == old(db.nextId)
  {
    var found := Find(db.products, WithId(id));
    if found.None? {
      return NotFoundToDelete;
    }
    var i := found.value;
    db.RemoveProductAt(i);
    r := Deleted;
  }
}

/** The Product collection's schema: required trimmed strings, non-negative price and stock,
    defaults, image entries, and the `timestamps` option. */
module ProductModel {
  import opened Common
  import Text

  /** One hosted image: its URL and the hosting service's handle. */
  datatype Image = Image(url: string, publicId: string)

  /** A stored product; `id` is its storage key. */
  datatype Product = Product(
    id: nat,
    name: string,
    price: int,
    category: string,
    description: string,
    images: seq<Image>,
    stock: int,
    isActive: bool,
    createdAt: int,
    updatedAt: int)

  /** A document handed to `Product.create`; `None` marks an omitted field. */
  datatype ProductInput = ProductInput(
    name: string,
    price: int,
    category: string,
    description: Option<string>,
    images: seq<Image>,
    stock: Option<int>,
    isActive: Option<bool>)

  /** Both fields of an image entry are required. */
  predicate ImageOk(img: Image)
  {
    img.url != "" && img.publicId != ""
  }

  /** The schema's validators, checked after the `trim` setters have run. */
  predicate Validates(doc: ProductInput)
  {
    && Text.Trim(doc.name) != ""
    && Text.Trim(doc.category) != ""
    && doc.price >= 0
    && (doc.stock.Some? ==> doc.stock.value >= 0)
    && (forall k :: 0 <= k < |doc.images| ==> ImageOk(doc.images[k]))
  }

  /** The constraints a product satisfies when it was last written through the validators. */
  ghost predicate WellFormed(p: Product)
  {
    && p.name != "" && p.category != ""
    && p.name == Text.Trim(p.name) && p.category == Text.Trim(p.category)
    && p.price >= 0 && p.stock >= 0
    && forall k :: 0 <= k < |p.images| ==> ImageOk(p.images[k])
  }

  /** `Product.create(doc)` with storage key `id` at time `now`. */
  function Create(doc: ProductInput, id: nat, now: int): (r: Option<Product>)
    ensures r.Some? <==> Validates(doc)
    ensures r.Some? ==> WellFormed(r.value)
    ensures r.Some? ==> r.value.id == id && r.value.createdAt == now && r.value.updatedAt == now
    ensures r.Some? ==> r.value.name == Text.Trim(doc.name) && r.value.category == Text.Trim(doc.category)
    ensures r.Some? ==> r.value.price == doc.price && r.value.images == doc.images
    ensures r.Some? && doc.description.Some? ==> r.value.description == doc.description.value
    ensures r.Some? && doc.stock.Some? ==> r.value.stock == doc.stock.value
    ensures r.Some? && doc.isActive.Some? ==> r.value.isActive == doc.isActive.value
  {
    if !Validates(doc) then None
    else Some(Product(
      id, Text.Trim(doc.name), doc.price, Text.Trim(doc.category),
      if doc.description.Some? then doc.description.value else "",
      doc.images,
      if doc.stock.Some? then doc.stock.value else 0,
      if doc.isActive.Some? then doc.isActive.value else true,
      now, now))
  }

  /** Omitted fields take the schema defaults: description "", stock 0, active. */
  lemma {:induction false} CreateDefaults(doc: ProductInput, id: nat, now: int)
    requires Validates(doc)
    requires doc.description == None && doc.stock == None && doc.isActive == None
    ensures Create(doc, id, now).Some?
    ensures Create(doc, id, now).value.description == ""
    ensures Create(doc, id, now).value.stock == 0
    ensures Create(doc, id, now).value.isActive
    ensures Create(doc, id, now).value.createdAt == now == Create(doc, id, now).value.updatedAt
  {
  }

  /** A negative price or stock is refused by the `min: 0` validators. */
  lemma NegativeRefused(doc: ProductInput, id: nat, now: int)
    requires doc.price < 0 || (doc.stock.Some? && doc.stock.value < 0)
    ensures Create(doc, id, now) == None
  {
  }
}

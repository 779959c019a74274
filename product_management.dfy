/** The product screen: a cache of the server's products, a form draft, an optional edit
    target and an error message, changed by the handlers after each request's outcome. */
module ProductManagement {
  import opened Requests

  /** A server-assigned product id, as it is interpolated into a URL. */
  type Id = string

  /** A quantity as the screen holds it: `Blank` is the empty form input `''`. */
  datatype Quantity = Blank | Units(n: int)

  /** `quantity > 0` after JavaScript coercion: the empty input is not positive. */
  predicate InStock(q: Quantity) {
    q.Units? && q.n > 0
  }

  /** The four editable fields of a product. */
  datatype Fields = Fields(name: string, description: string, price: string, quantity: Quantity)

  /** A product as the server lists it. */
  datatype Product = Product(id: Id, fields: Fields)

  /** The form's `newProduct`: it carries an id once it was loaded from an existing product. */
  datatype Draft = Draft(id: Option<Id>, fields: Fields)

  /** The draft the screen starts with and resets to: four empty fields and no id. */
  const EmptyDraft := Draft(None, Fields("", "", "", Blank))

  const ProductsPath := "/api/products"

  function ProductPath(id: Id): string {
    ProductsPath + "/" + id
  }

  /** Distinct products are addressed by distinct URLs. */
  lemma ProductPathInjective(a: Id, b: Id)
    requires ProductPath(a) == ProductPath(b)
    ensures a == b
  {
    var n := |ProductsPath + "/"|;
    assert a == ProductPath(a)[n..];
    assert b == ProductPath(b)[n..];
  }

  const FetchError := "Error fetching products"
  const SubmitError := "Error adding/updating product"
  const SellError := "Error selling product"
  const OutOfStockError := "Product is out of stock"
  const DeleteError := "Error deleting product"

  /** The `name` attribute of the form input an edit event comes from. */
  datatype Field = NameField | DescriptionField | PriceField | QuantityField

  /** The value of a form input: the number input for the quantity yields a quantity. */
  datatype FieldValue = Text(text: string) | Amount(quantity: Quantity)

  predicate Fits(f: Field, v: FieldValue) {
    v.Amount? <==> f == QuantityField
  }

  function Get(fs: Fields, f: Field): (v: FieldValue)
    ensures Fits(f, v)
  {
    match f
    case NameField => Text(fs.name)
    case DescriptionField => Text(fs.description)
    case PriceField => Text(fs.price)
    case QuantityField => Amount(fs.quantity)
  }

  /** `{ ...newProduct, [name]: value }`: the named field takes the value, every other field
      and the id stay as they were. */
  function WithField(d: Draft, f: Field, v: FieldValue): (r: Draft)
    requires Fits(f, v)
    ensures r.id == d.id
    ensures Get(r.fields, f) == v
    ensures forall g :: g != f ==> Get(r.fields, g) == Get(d.fields, g)
  {
    var fs := d.fields;
    match f
    case NameField => d.(fields := fs.(name := v.text))
    case DescriptionField => d.(fields := fs.(description := v.text))
    case PriceField => d.(fields := fs.(price := v.text))
    case QuantityField => d.(fields := fs.(quantity := v.quantity))
  }

  /** The draft made from a product chosen for editing: every field and the id are copied. */
  function DraftOf(p: Product): (r: Draft)
    ensures r.id == Some(p.id)
    ensures forall f :: Get(r.fields, f) == Get(p.fields, f)
  {
    Draft(Some(p.id), p.fields)
  }

  /** The draft and the edit target agree: the draft has an id exactly when a product is
      being edited, and then it is that product's id. */
  predicate Consistent(draft: Draft, editing: Option<Product>) {
    match editing
    case None => draft.id == None
    case Some(t) => draft.id == Some(t.id)
  }

  /** The request of the submit handler: PUT to the edit target, or POST to the collection,
      with the draft as the body either way. */
  function SubmitRequest(draft: Draft, editing: Option<Product>): (r: Request<Draft>)
    ensures r.Post? || r.Put?
    ensures r.body == draft
    ensures r.Put? <==> editing.Some?
    ensures editing.Some? ==> r.path == ProductPath(editing.value.id)
    ensures editing.None? ==> r.path == ProductsPath
  {
    match editing
    case None => Post(ProductsPath, draft)
    case Some(t) => Put(ProductPath(t.id), draft)
  }

  /** In a consistent state an update names the same product in its URL and in its body,
      and a creation sends no id. */
  lemma SubmitAddressesDraft(draft: Draft, editing: Option<Product>)
    requires Consistent(draft, editing)
    ensures var r := SubmitRequest(draft, editing);
      if r.Put? then draft.id.Some? && r.path == ProductPath(draft.id.value) else draft.id == None
  {
  }

  /** `k` is the first position of the cache that holds product `id`. */
  predicate FirstMatch(cache: seq<Product>, id: Id, k: int) {
    0 <= k < |cache| && cache[k].id == id && forall j :: 0 <= j < k ==> cache[j].id != id
  }

  /** `products.find(p => p.id === id)`: the first cached product with that id, if any. */
  function Find(cache: seq<Product>, id: Id): (r: Option<Product>)
    ensures r.Some? ==> exists k :: FirstMatch(cache, id, k) && cache[k] == r.value
    ensures r.None? ==> forall k :: 0 <= k < |cache| ==> cache[k].id != id
    decreases |cache|
  {
    if cache == [] then None
    else if cache[0].id == id then
      assert FirstMatch(cache, id, 0);
      Some(cache[0])
    else
      var r := Find(cache[1..], id);
      if r.Some? then
        var k :| FirstMatch(cache[1..], id, k) && cache[1..][k] == r.value;
        assert FirstMatch(cache, id, k + 1);
        r
      else
        r
  }

  /** `{ ...product, quantity: product.quantity - 1 }`. */
  function Sold(p: Product): (r: Product)
    requires InStock(p.fields.quantity)
    ensures r.id == p.id
    ensures r.fields.quantity == Units(p.fields.quantity.n - 1)
    ensures forall g :: g != QuantityField ==> Get(r.fields, g) == Get(p.fields, g)
  {
    p.(fields := p.fields.(quantity := Units(p.fields.quantity.n - 1)))
  }

  /** The request of the sell handler, decided on the current cache. */
  function SellRequest(cache: seq<Product>, id: Id): (r: Request<Product>)
    ensures r.Put? || r.NoRequest?
  {
    match Find(cache, id)
    case Some(p) => if InStock(p.fields.quantity) then Put(ProductPath(id), Sold(p)) else NoRequest
    case None => NoRequest
  }

  /** Selling a product whose first cached entry is in stock sends one PUT to its URL whose
      body is that entry with the quantity lowered by exactly one. */
  lemma SellInStock(cache: seq<Product>, id: Id, k: int)
    requires FirstMatch(cache, id, k) && InStock(cache[k].fields.quantity)
    ensures SellRequest(cache, id) == Put(ProductPath(id), Sold(cache[k]))
  {
  }

  /** Selling a product that is not cached, or whose first cached entry is not in stock,
      sends nothing. */
  lemma SellRefused(cache: seq<Product>, id: Id)
    requires forall k :: FirstMatch(cache, id, k) ==> !InStock(cache[k].fields.quantity)
    ensures SellRequest(cache, id) == NoRequest
  {
  }

  /** The worked example: a cache holding product 1 with two units; selling it sends the
      same product with one unit. */
  lemma SellExample()
    ensures var w := Product("1", Fields("Widget", "", "9.99", Units(2)));
      SellRequest([w], "1") == Put("/api/products/1", Product("1", Fields("Widget", "", "9.99", Units(1))))
  {
  }

  /** The products list lifted to the application, which the dashboard reads. */
  class ProductStore {
    var items: seq<Product>

    constructor ()
      ensures items == []
    {
      items := [];
    }
  }

  /** The state slots of the product screen and its handlers. Each handler returns the one
      request it sends (or `NoRequest`) and takes the outcome of that request as `ok`; it
      returns `refetch` when it triggers `fetchProducts`, which the caller then runs with
      `FetchProducts` and the server's answer. */
  class ProductScreen {
    var products: seq<Product>
    var draft: Draft
    var editing: Option<Product>
    var error: string
    const store: ProductStore

    ghost predicate Valid()
      reads this
    {
      Consistent(draft, editing)
    }

    constructor (store: ProductStore)
      ensures Valid() && this.store == store
      ensures products == [] && draft == EmptyDraft && editing == None && error == ""
    {
      this.store := store;
      products := [];
      draft := EmptyDraft;
      editing := None;
      error := "";
    }

    /** `fetchProducts`: GET the collection; on success both the screen's cache and the
        application's list become the server's list, on failure both stay and the
        error is set. `response` is `None` for a failed request. */
    method FetchProducts(response: Option<seq<Product>>) returns (req: Request<Product>)
      modifies this`products, this`error, store
      ensures req == Get(ProductsPath)
      ensures response.Some? ==> products == response.value && store.items == response.value && error == old(error)
      ensures response.None? ==> products == old(products) && store.items == old(store.items) && error == FetchError
    {
      req := Get(ProductsPath);
      match response
      case Some(data) =>
        products := data;
        store.items := data;
      case None =>
        error := FetchError;
    }

    /** `handleChange`: one field of the draft takes the input's value. */
    method HandleChange(f: Field, v: FieldValue)
      requires Valid() && Fits(f, v)
      modifies this`draft
      ensures Valid() && draft == WithField(old(draft), f, v)
    {
      draft := WithField(draft, f, v);
    }

    /** `handleAddProduct`: submit the draft; success resets the form, clears the edit target
        and the error and refetches, failure keeps the form and sets the error. */
    method HandleAddProduct(ok: bool) returns (req: Request<Draft>, refetch: bool)
      requires Valid()
      modifies this`draft, this`editing, this`error
      ensures Valid()
      ensures req == SubmitRequest(old(draft), old(editing))
      ensures refetch == ok
      ensures ok ==> draft == EmptyDraft && editing == None && error == ""
      ensures !ok ==> draft == old(draft) && editing == old(editing) && error == SubmitError
    {
      req := SubmitRequest(draft, editing);
      refetch := ok;
      if ok {
        draft := EmptyDraft;
        editing := None;
        error := "";
      } else {
        error := SubmitError;
      }
    }

    /** `handleEditProduct`: the product becomes the edit target and the draft. */
    method HandleEditProduct(p: Product)
      modifies this`draft, this`editing
      ensures Valid() && editing == Some(p) && draft == DraftOf(p)
    {
      editing := Some(p);
      draft := DraftOf(p);
    }

    /** `handleSellProduct`: refused with the out-of-stock error without a request when the
        cached product is missing or not in stock; otherwise the decremented product is
        PUT, and a success refetches while a failure sets the error. */
    method HandleSellProduct(id: Id, ok: bool) returns (req: Request<Product>, refetch: bool)
      modifies this`error
      ensures req == SellRequest(products, id)
      ensures req.NoRequest? ==> !refetch && error == OutOfStockError
      ensures req.Put? ==> refetch == ok && error == (if ok then old(error) else SellError)
    {
      req := SellRequest(products, id);
      if req.NoRequest? {
        refetch := false;
        error := OutOfStockError;
      } else {
        refetch := ok;
        if !ok {
          error := SellError;
        }
      }
    }

    /** `handleDeleteProduct`: DELETE the product; a success refetches, a failure sets the
        error. The cache changes only through the refetch. */
    method HandleDeleteProduct(id: Id, ok: bool) returns (req: Request<Product>, refetch: bool)
      modifies this`error
      ensures req == Delete(ProductPath(id))
      ensures refetch == ok
      ensures error == if ok then old(error) else DeleteError
    {
      req := Delete(ProductPath(id));
      refetch := ok;
      if !ok {
        error := DeleteError;
      }
    }
  }
}

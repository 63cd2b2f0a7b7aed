/** The catalog editor (views/ProductsView.tsx). The edit draft is a product
    whose empty id means "new product" and whose empty image means "none given". */
module ProductsView {
  import opened Types
  import opened Seqs
  import opened Db

  /** The generated image of a new product, seeded by the creation time. */
  function Placeholder(now: string): string
  {
    "https://picsum.photos/seed/" + now + "/400/400"
  }

  /** The product handleSave prepends: the draft with the new id and an image. */
  function NewProduct(d: Product, now: string): (p: Product)
    ensures p.id == now
    ensures d.image != "" ==> p.image == d.image
    ensures d.image == "" ==> p.image == Placeholder(now)
    ensures p.name == d.name && p.category == d.category && p.price == d.price
    ensures p.stock == d.stock && p.sku == d.sku
  {
    d.(id := now, image := if d.image != "" then d.image else Placeholder(now))
  }

  /** The catalog handleSave writes: an edited product replaces the first entry
      with its id (or changes nothing if the id is gone); a new product is put
      in front of every existing entry. */
  function Upsert(ps: seq<Product>, d: Product, now: string): (r: seq<Product>)
    ensures d.id != "" && FindIndex(ps, d.id) != -1 ==>
      |r| == |ps| && r[FindIndex(ps, d.id)] == d &&
      forall j :: 0 <= j < |ps| && j != FindIndex(ps, d.id) ==> r[j] == ps[j]
    ensures d.id != "" && FindIndex(ps, d.id) == -1 ==> r == ps
    ensures d.id == "" ==> |r| == |ps| + 1 && r[0] == NewProduct(d, now) && r[1..] == ps
  {
    if d.id != "" then
      var index := FindIndex(ps, d.id);
      if index != -1 then ps[index := d] else ps
    else
      [NewProduct(d, now)] + ps
  }

  /** handleSave: with no draft open nothing happens; otherwise the stored
      catalog is read (seeded if absent), edited in place or extended at the
      front, and written back whole. */
  method HandleSave(store: Store, editing: Option<Product>, now: string)
    modifies store
    ensures editing.None? ==> store.products == old(store.products)
    ensures editing.Some? ==> store.products == Some(Upsert(old(store.Catalog()), editing.value, now))
    ensures store.transactions == old(store.transactions)
  {
    if editing.None? {
      return;
    }
    var d := editing.value;
    var allProducts := store.GetProducts();
    if d.id != "" {
      var index := FindIndex(allProducts, d.id);
      if index != -1 {
        allProducts := allProducts[index := d];
      }
    } else {
      var newProduct := NewProduct(d, now);
      allProducts := [newProduct] + allProducts;
    }
    store.SaveProducts(allProducts);
  }

  function NotId(id: string): Product -> bool
  {
    (p: Product) => p.id != id
  }

  /** `products.filter(p => p.id !== id)`. */
  function Delete(ps: seq<Product>, id: string): (r: seq<Product>)
    ensures forall p :: p in r <==> p in ps && p.id != id
    ensures |r| <= |ps|
  {
    Filter(ps, NotId(id))
  }

  /** Deleting keeps the survivors in their order. */
  lemma DeleteKeepsOrder(a: seq<Product>, b: seq<Product>, id: string)
    ensures Delete(a + b, id) == Delete(a, id) + Delete(b, id)
  {
    FilterAppend(a, b, NotId(id));
  }

  /** Deleting an id that is not there leaves the catalog as it is. */
  lemma DeleteAbsentIsIdentity(ps: seq<Product>, id: string)
    requires FindIndex(ps, id) == -1
    ensures Delete(ps, id) == ps
  {
    FilterKeepsAll(ps, NotId(id));
  }

  /** Deleting twice is deleting once. */
  lemma DeleteIdempotent(ps: seq<Product>, id: string)
    ensures Delete(Delete(ps, id), id) == Delete(ps, id)
  {
    FilterIdempotent(ps, NotId(id));
  }

  /** handleDelete: once confirmed, the catalog the view holds, minus the id, is
      written back whole; when not confirmed nothing is written. */
  method HandleDelete(store: Store, products: seq<Product>, id: string, confirmed: bool)
    modifies store
    ensures confirmed ==> store.products == Some(Delete(products, id))
    ensures !confirmed ==> store.products == old(store.products)
    ensures store.transactions == old(store.transactions)
  {
    if confirmed {
      var filtered := Delete(products, id);
      store.SaveProducts(filtered);
    }
  }
}

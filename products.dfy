// Product.kt: the immutable product value and the (available, reserved) ledger
// cell that warehouses, orders and drones keep per product.
module Products {
  import opened Results
  import opened Text

  /** A product type. Kotlin's data-class equality is equality of `id` and `weight`,
      which is what datatype equality gives here. */
  datatype Product = Product(id: int, weight: int)

  /** One ledger cell: `product` is fixed, `available` and `reserved` are the counts
      the reservation protocol moves between. */
  datatype StoreProduct = StoreProduct(product: Product, available: int, reserved: int)

  /** The product list of a problem: product `i` has id `i` and a positive weight. */
  predicate WellFormedCatalog(catalog: seq<Product>)
  {
    forall i :: 0 <= i < |catalog| ==> catalog[i].id == i && catalog[i].weight > 0
  }

  /** `p` is the catalogue's product under its own id. Every product the program
      handles comes from the one list built from the input, so this holds of all of them. */
  predicate Catalogued(p: Product, catalog: seq<Product>)
  {
    0 <= p.id < |catalog| && catalog[p.id] == p
  }

  /** Product.toString: `Product#<id>[weight:<weight>]`. */
  function ProductToString(p: Product): string
  {
    "Product#" + IntToString(p.id) + "[weight:" + IntToString(p.weight) + "]"
  }

  /** Reads back the text ProductToString writes. */
  function ParseProduct(s: string): Option<Product>
  {
    if |s| < 8 || s[..8] != "Product#" then None
    else
      var r := s[8..];
      var i := FirstIndex(r, '[');
      var tail := r[i..];
      if |tail| < 9 || tail[..8] != "[weight:" || tail[|tail| - 1] != ']' then None
      else ProductOf(r[..i], tail[8..|tail| - 1])
  }

  function ProductOf(idText: string, weightText: string): Option<Product>
  {
    var id := ParseInt(idText);
    var w := ParseInt(weightText);
    if id.Some? && w.Some? then Some(Product(id.value, w.value)) else None
  }

  lemma ParseProductOf(a: string, b: string)
    requires '[' !in a
    ensures ParseProduct("Product#" + a + "[weight:" + b + "]") == ProductOf(a, b)
  {
    var s := "Product#" + a + "[weight:" + b + "]";
    var r := a + ['['] + ("weight:" + b + "]");
    assert s == "Product#" + r;
    ParseBody(r, a, b);
  }

  lemma ParseBody(r: string, a: string, b: string)
    requires '[' !in a && r == a + ['['] + ("weight:" + b + "]")
    ensures ParseProduct("Product#" + r) == ProductOf(a, b)
  {
    var s := "Product#" + r;
    assert s[..8] == "Product#" && s[8..] == r;
    FirstIndexAfter(a, '[', "weight:" + b + "]");
    var i := |a|;
    assert r[..i] == a;
    var tail := r[i..];
    assert tail == "[weight:" + b + "]";
    assert tail[..8] == "[weight:";
    assert tail[8..|tail| - 1] == b;
  }

  /** The rendering of a product determines the product. */
  lemma ProductStringRoundTrip(p: Product)
    ensures ParseProduct(ProductToString(p)) == Some(p)
  {
    assert '[' !in IntToString(p.id);
    IntRoundTrip(p.id);
    IntRoundTrip(p.weight);
    ParseProductOf(IntToString(p.id), IntToString(p.weight));
  }
}

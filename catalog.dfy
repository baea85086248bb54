/** The storefront's built-in catalog: the product record and the constant
    list of products and category labels that the cart, the product page and
    the search views resolve product ids against. */
module Catalog {
  import opened Common

  /** A product record. Prices are whole naira; `image` is the asset the
      catalog entry imports, kept as its module path. */
  datatype Product = Product(
    id: string,
    name: string,
    description: string,
    price: int,
    image: string,
    stock: int,
    category: string)

  /** The catalog constant, in declaration order. */
  const Products: seq<Product> := [
      Product("1", "Classic Black Tee",
        "Premium cotton short-sleeve t-shirt with a comfortable fit. Perfect for everyday wear.",
        6000, "@/assets/products/tees-black-white.jpg", 50, "Tees"),
      Product("2", "Vintage White Tee",
        "Soft cotton short-sleeve tee with a relaxed fit. A wardrobe essential.",
        6000, "@/assets/products/tees-black-white.jpg", 45, "Tees"),
      Product("3", "Urban Long Sleeve",
        "Stylish long-sleeve tee made from premium fabric. Great for layering.",
        8000, "@/assets/products/tees-longsleeve.jpg", 40, "Tees"),
      Product("4", "England Pre-Match Jersey",
        "Breathable sports jersey with moisture-wicking technology. Perfect for game day.",
        13000, "@/assets/products/jersey-england-blue.jpeg", 30, "Jerseys"),
      Product("5", "AC Milan Away Jersey",
        "Premium football jersey with authentic design. Show your team spirit.",
        13000, "@/assets/products/jersey-milan-white.jpeg", 25, "Jerseys"),
      Product("15", "Santos FC Home Jersey",
        "Classic striped football jersey. Authentic Brazilian club style.",
        13000, "@/assets/products/jersey-santos.jpeg", 20, "Jerseys"),
      Product("16", "Man United Collection",
        "Premium Manchester United jerseys. Home, away, and third kit available.",
        13000, "@/assets/products/jersey-manutd-collection.jpeg", 35, "Jerseys"),
      Product("6", "Colorful Beaded Bracelet",
        "Handcrafted beaded bracelet with vibrant colors. Adds style to any outfit.",
        3000, "@/assets/products/bracelet-colorful.jpg", 100, "Accessories"),
      Product("7", "Gemstone Statement Ring",
        "Elegant vintage-style ring with beautiful gemstones. Bold statement piece.",
        2000, "@/assets/products/rings-gemstone.jpg", 80, "Accessories"),
      Product("8", "Cuban Link Chain",
        "Premium Cuban link chain necklace. Bold statement piece.",
        5000, "@/assets/products/chain-cuban.webp", 60, "Accessories"),
      Product("9", "Classic Black Cap",
        "Classic cap with adjustable strap. Street style essential.",
        10000, "@/assets/products/cap-black.png", 70, "Caps"),
      Product("10", "Classic White Cap",
        "Clean white cap with curved brim. Perfect for casual looks.",
        10000, "@/assets/products/cap-white.webp", 55, "Caps"),
      Product("11", "White Air Force 1",
        "Premium leather sneakers with comfortable cushioning. Style meets comfort.",
        50000, "@/assets/products/shoes-white-af1.webp", 20, "Shoes"),
      Product("12", "Classic Black Oxford",
        "Elegant black formal shoes with premium leather. Goes with everything.",
        50000, "@/assets/products/shoes-black-formal.webp", 15, "Shoes"),
      Product("13", "Classic Blue Denim",
        "Premium denim jeans with a modern fit. Comfortable stretch fabric.",
        15000, "@/assets/products/jeans-blue.jpg", 35, "Jeans"),
      Product("14", "Vintage Grey Jeans",
        "Wrangler style grey jeans with straight leg cut. Built to last.",
        15000, "@/assets/products/jeans-grey.jpg", 40, "Jeans")
    ]

  /** The category filter buttons, in display order; "All" selects every product. */
  const Categories: seq<string> := ["All", "Tees", "Jerseys", "Accessories", "Caps", "Shoes", "Jeans"]

  /** No two products of `ps` share an id. */
  predicate DistinctIds(ps: seq<Product>) {
    forall i, j :: 0 <= i < j < |ps| ==> ps[i].id != ps[j].id
  }

  /** Every catalog product has its own id: the ids, in order, are written out once and compared. */
  lemma CatalogIdsDistinct()
    ensures DistinctIds(Products)
  {
    var ids := ["1", "2", "3", "4", "5", "15", "16", "6", "7", "8", "9", "10", "11", "12", "13", "14"];
    forall i | 0 <= i < |Products| ensures Products[i].id == ids[i] {
    }
    assert forall i, j :: 0 <= i < j < |ids| ==> ids[i] != ids[j];
  }

  /** The category list starts with "All" and names every other category once. */
  lemma CategoriesShape()
    ensures |Categories| > 0 && Categories[0] == "All"
    ensures forall i :: 1 <= i < |Categories| ==> Categories[i] != "All"
    ensures forall i, j :: 0 <= i < j < |Categories| ==> Categories[i] != Categories[j]
  {
  }

  /** Every catalog product belongs to a listed category other than "All". */
  lemma CatalogCategoriesListed()
    ensures forall p :: p in Products ==> p.category in Categories[1..] && p.category != "All"
  {
    var listed := Categories[1..];
    assert listed == ["Tees", "Jerseys", "Accessories", "Caps", "Shoes", "Jeans"];
    forall i | 0 <= i < |Products|
      ensures Products[i].category in listed && Products[i].category != "All"
    {
    }
  }

  /** Every catalog product has a positive price and a positive stock. */
  lemma CatalogPricesAndStocksPositive()
    ensures forall p :: p in Products ==> p.price > 0 && p.stock > 0
  {
    var prices := [6000, 6000, 8000, 13000, 13000, 13000, 13000, 3000, 2000, 5000, 10000, 10000, 50000, 50000, 15000, 15000];
    var stocks := [50, 45, 40, 30, 25, 20, 35, 100, 80, 60, 70, 55, 20, 15, 35, 40];
    forall i | 0 <= i < |Products|
      ensures Products[i].price == prices[i] && Products[i].stock == stocks[i]
    {
    }
    assert forall i :: 0 <= i < |prices| ==> prices[i] > 0 && stocks[i] > 0;
  }

  /** `ps.find(p => p.id === id)`: the first product with exactly that id, if any. */
  function FindById(ps: seq<Product>, id: string): (r: Option<Product>)
    ensures r.Some? <==> exists i :: 0 <= i < |ps| && ps[i].id == id
    ensures r.Some? ==> r.value in ps && r.value.id == id
    ensures r.Some? ==> exists i :: 0 <= i < |ps| && ps[i] == r.value && forall k :: 0 <= k < i ==> ps[k].id != id
  {
    if ps == [] then None
    else if ps[0].id == id then Some(ps[0])
    else
      var r := FindById(ps[1..], id);
      assert forall i :: 1 <= i < |ps| ==> ps[i] == ps[1..][i - 1];
      r
  }

  /** Where ids are distinct, the lookup returns the one product carrying the id. */
  lemma {:induction false} FindByIdUnique(ps: seq<Product>, i: nat)
    requires DistinctIds(ps) && i < |ps|
    ensures FindById(ps, ps[i].id) == Some(ps[i])
  {
    if i > 0 {
      assert ps[0].id != ps[i].id;
      FindByIdUnique(ps[1..], i - 1);
    }
  }
}

/** The ViewOnlyWebApp catalogue entity; `decimal` price becomes `real`. */
module Products {
  datatype Product = Product(
    id: int, name: string, description: string, price: real,
    category: string, imageUrl: string, isAvailable: bool)
}

/** The in-memory `ProductRepository`: a list with first-match get, update
    and delete, and append-only add. */
module ProductRepository {
  import opened Wrappers
  import opened Products
  import Seqs

  /** The list every repository instance starts with. */
  function InitialProducts(): (ps: seq<Product>)
    ensures |ps| == 3
    ensures forall i :: 0 <= i < 3 ==> ps[i].id == i + 1 && ps[i].isAvailable
  {
    [ Product(1, "Gerbera", "A beautiful flower", 10.99, "Flowers", "/images/gerbera.jpg", true),
      Product(2, "Rose", "A classic flower", 12.99, "Flowers", "/images/rose.jpg", true),
      Product(3, "Lotus", "A serene flower", 15.99, "Flowers", "/images/lotus.jpg", true) ]
  }

  /** Position of the first product with that id. */
  function IndexOfId(ps: seq<Product>, id: int): (r: Option<nat>)
    ensures r.Some? ==> r.value < |ps| && ps[r.value].id == id
    ensures r.Some? ==> forall j :: 0 <= j < r.value ==> ps[j].id != id
    ensures r.None? <==> forall j :: 0 <= j < |ps| ==> ps[j].id != id
  {
    Seqs.FirstIndex(ps, (p: Product) => p.id == id)
  }

  /** `GetAllProducts`: the list itself. */
  function GetAllProducts(ps: seq<Product>): (r: seq<Product>)
    ensures r == ps
  {
    ps
  }

  /** `GetProductById`: the first product with that id, or null. */
  function GetProductById(ps: seq<Product>, id: int): (r: Option<Product>)
    ensures r.None? <==> forall j :: 0 <= j < |ps| ==> ps[j].id != id
    ensures r.Some? ==> r.value.id == id && r.value in ps
    ensures r.Some? ==> exists i :: 0 <= i < |ps| && ps[i] == r.value && (forall j :: 0 <= j < i ==> ps[j].id != id)
  {
    match IndexOfId(ps, id)
    case None => None
    case Some(i) => Some(ps[i])
  }

  /** `AddProduct`: appends, with no check for a duplicate id. */
  function AddProduct(ps: seq<Product>, p: Product): (r: seq<Product>)
    ensures |r| == |ps| + 1
    ensures r[..|ps|] == ps && r[|ps|] == p
  {
    ps + [p]
  }

  /** The stored product after its mutable fields are overwritten from `p`. */
  function Overwrite(existing: Product, p: Product): Product {
    existing.(name := p.name, description := p.description, price := p.price,
              category := p.category, imageUrl := p.imageUrl, isAvailable := p.isAvailable)
  }

  /** `UpdateProduct`: the first product with `p.id` takes every field but
      the id from `p`; an absent id changes nothing. */
  function UpdateProduct(ps: seq<Product>, p: Product): (r: seq<Product>)
    ensures |r| == |ps|
    ensures IndexOfId(ps, p.id).None? ==> r == ps
    ensures IndexOfId(ps, p.id).Some? ==>
      var i := IndexOfId(ps, p.id).value;
      && r[i].id == ps[i].id
      && r[i].name == p.name && r[i].description == p.description && r[i].price == p.price
      && r[i].category == p.category && r[i].imageUrl == p.imageUrl && r[i].isAvailable == p.isAvailable
      && forall j :: 0 <= j < |ps| && j != i ==> r[j] == ps[j]
  {
    match IndexOfId(ps, p.id)
    case None => ps
    case Some(i) => ps[i := Overwrite(ps[i], p)]
  }

  /** `DeleteProduct`: the first product with that id is removed, the rest
      keep their order; an absent id changes nothing. */
  function DeleteProduct(ps: seq<Product>, id: int): (r: seq<Product>)
    ensures IndexOfId(ps, id).None? ==> r == ps
    ensures IndexOfId(ps, id).Some? ==>
      var i := IndexOfId(ps, id).value;
      && |r| == |ps| - 1
      && r == ps[..i] + ps[i + 1..]
      && multiset(r) + multiset{ps[i]} == multiset(ps)
  {
    match IndexOfId(ps, id)
    case None => ps
    case Some(i) => Seqs.RemoveAt(ps, i)
  }

  /** Deleting the id of a product just added under a fresh id undoes the add. */
  lemma DeleteUndoesAdd(ps: seq<Product>, p: Product)
    requires forall j :: 0 <= j < |ps| ==> ps[j].id != p.id
    ensures DeleteProduct(AddProduct(ps, p), p.id) == ps
  {
  }

  /** After an update of a present id, looking the id up yields a product
      equal to the argument: the fields come from `p` and the kept id is `p.id`. */
  lemma UpdateThenGet(ps: seq<Product>, p: Product)
    requires GetProductById(ps, p.id).Some?
    ensures GetProductById(UpdateProduct(ps, p), p.id) == Some(p)
  {
  }

  /** Adding never changes what an id already present looks up to. */
  lemma AddKeepsLookup(ps: seq<Product>, p: Product, id: int)
    requires GetProductById(ps, id).Some?
    ensures GetProductById(AddProduct(ps, p), id) == GetProductById(ps, id)
  {
  }
}

/** `ProductService`: each operation delegates to the repository unchanged. */
module ProductService {
  import opened Wrappers
  import opened Products
  import Repo = ProductRepository

  function AddProduct(ps: seq<Product>, p: Product): (r: seq<Product>)
    ensures r == Repo.AddProduct(ps, p)
    ensures |r| == |ps| + 1 && r[|ps|] == p
  {
    Repo.AddProduct(ps, p)
  }

  function DeleteProduct(ps: seq<Product>, id: int): (r: seq<Product>)
    ensures r == Repo.DeleteProduct(ps, id)
    ensures (forall j :: 0 <= j < |ps| ==> ps[j].id != id) <==> r == ps
  {
    var r := Repo.DeleteProduct(ps, id);
    assert Repo.IndexOfId(ps, id).Some? ==> |r| < |ps|;
    r
  }

  function GetAllProducts(ps: seq<Product>): (r: seq<Product>)
    ensures r == Repo.GetAllProducts(ps)
    ensures r == ps
  {
    Repo.GetAllProducts(ps)
  }

  function GetProductById(ps: seq<Product>, id: int): (r: Option<Product>)
    ensures r == Repo.GetProductById(ps, id)
    ensures r.Some? ==> r.value in ps && r.value.id == id
  {
    Repo.GetProductById(ps, id)
  }

  function UpdateProduct(ps: seq<Product>, p: Product): (r: seq<Product>)
    ensures r == Repo.UpdateProduct(ps, p)
    ensures |r| == |ps|
  {
    Repo.UpdateProduct(ps, p)
  }
}

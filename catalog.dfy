/**
 * The product catalog of the backend: one process-wide list of products,
 * seeded with five games, and the five request handlers that list, create,
 * find, remove and update its entries by linear scan.
 *
 * Each handler is one atomic step on the store and returns one HTTP outcome.
 * Create and find compare names ignoring case; remove and update compare
 * them exactly.
 */
module Catalog {
  import opened Wrappers
  import opened Strings

  /** A product record: name, price and quantity in stock. */
  datatype Product = Product(name: string, price: real, quantity: int)

  /** The result a handler hands back to the web framework. */
  datatype Outcome =
    | Ok(product: Product)              // 200 with one product
    | OkList(products: seq<Product>)    // 200 with the list
    | Created(product: Product)         // 201
    | BadRequest(message: string)       // 400
    | Conflict(message: string)         // 409
    | NotFound(message: string)         // 404
  {
    /** The HTTP status code the framework sends for this outcome. */
    function StatusCode(): (code: int)
      ensures 200 <= code < 300 <==> Ok? || OkList? || Created?
      ensures code >= 400 <==> BadRequest? || Conflict? || NotFound?
    {
      match this
      case Ok(_) => 200
      case OkList(_) => 200
      case Created(_) => 201
      case BadRequest(_) => 400
      case Conflict(_) => 409
      case NotFound(_) => 404
    }
  }

  // The response messages.
  const NoProducts := "Nenhum produto encontrado"
  const InvalidName := "Dados do produto inválidos. Nome é obrigatório."
  const PriceNotPositive := "Preço deve ser maior que zero."
  const NegativeQuantity := "Quantidade não pode ser negativa."
  const AlreadyRegistered := "Produto já cadastrado"
  const NameRequired := "Nome do produto é obrigatório"
  const ProductNotFound := "Produto não encontrado"

  /** The catalog every process starts with. */
  function Seed(): seq<Product> {
    [ Product("The Legend of Zelda: Breath of the Wild", 299.90, 8),
      Product("God of War Ragnarok", 349.90, 6),
      Product("Elden Ring", 279.90, 5),
      Product("Minecraft", 99.90, 15),
      Product("Red Dead Redemption 2", 199.90, 4) ]
  }

  // ---------------------------------------------------------------------------
  // Name matching and lookup (`FirstOrDefault` over the list)
  // ---------------------------------------------------------------------------

  /** The two string comparisons the handlers use. */
  datatype Comparison = Ordinal | OrdinalIgnoreCase

  predicate NameEquals(a: string, b: string, cmp: Comparison) {
    match cmp
    case Ordinal => a == b
    case OrdinalIgnoreCase => EqualsIgnoringCase(a, b)
  }

  /** Some entry of `ps` has a name equal to `name` under `cmp`. */
  predicate AnyMatch(ps: seq<Product>, name: string, cmp: Comparison) {
    exists i | 0 <= i < |ps| :: NameEquals(ps[i].name, name, cmp)
  }

  /** Entry `i` is the first entry of `ps` whose name equals `name` under `cmp`. */
  predicate IsFirstMatch(ps: seq<Product>, name: string, cmp: Comparison, i: int) {
    && 0 <= i < |ps|
    && NameEquals(ps[i].name, name, cmp)
    && forall j | 0 <= j < i :: !NameEquals(ps[j].name, name, cmp)
  }

  /** `FirstOrDefault`: the position of the first matching entry, or `None`. */
  function FirstIndex(ps: seq<Product>, name: string, cmp: Comparison): (k: Option<nat>)
    ensures k.Some? ==> IsFirstMatch(ps, name, cmp, k.value)
    ensures k.None? <==> !AnyMatch(ps, name, cmp)
    decreases |ps|
  {
    if ps == [] then None
    else if NameEquals(ps[0].name, name, cmp) then Some(0)
    else
      var rest := FirstIndex(ps[1..], name, cmp);
      assert forall i | 1 <= i < |ps| :: ps[i] == ps[1..][i - 1];
      if rest.None? then None else Some(rest.value + 1)
  }

  /** There is at most one first match. */
  lemma FirstMatchIsUnique(ps: seq<Product>, name: string, cmp: Comparison, i: int, j: int)
    requires IsFirstMatch(ps, name, cmp, i) && IsFirstMatch(ps, name, cmp, j)
    ensures i == j
  {
  }

  // ---------------------------------------------------------------------------
  // Invariants of the catalog
  // ---------------------------------------------------------------------------

  /** The checks create makes before admitting a product. */
  predicate IsValid(p: Product) {
    !IsNullOrWhiteSpace(p.name) && p.price > 0.0 && p.quantity >= 0
  }

  predicate AllValid(ps: seq<Product>) {
    forall i | 0 <= i < |ps| :: IsValid(ps[i])
  }

  /** No two entries have names that are equal ignoring case. */
  predicate Unique(ps: seq<Product>) {
    forall i, j | 0 <= i < j < |ps| :: !EqualsIgnoringCase(ps[i].name, ps[j].name)
  }

  /** The seed catalog is valid and its names are distinct ignoring case. */
  lemma SeedIsUniqueAndValid()
    ensures Unique(Seed()) && AllValid(Seed())
  {
    var s := Seed();
    assert |s[0].name| == 39 && |s[1].name| == 19 && |s[2].name| == 10;
    assert |s[3].name| == 9 && |s[4].name| == 21;
    assert !IsWhiteSpace(s[0].name[0]) && !IsWhiteSpace(s[1].name[0]) && !IsWhiteSpace(s[2].name[0]);
    assert !IsWhiteSpace(s[3].name[0]) && !IsWhiteSpace(s[4].name[0]);
  }

  /** Appending a product whose name is new ignoring case keeps names unique. */
  lemma {:induction false} AppendKeepsUnique(ps: seq<Product>, p: Product)
    requires Unique(ps)
    requires !AnyMatch(ps, p.name, OrdinalIgnoreCase)
    ensures Unique(ps + [p])
  {
    var qs := ps + [p];
    forall i, j | 0 <= i < j < |qs|
      ensures !EqualsIgnoringCase(qs[i].name, qs[j].name)
    {
      if j == |ps| {
        assert !NameEquals(ps[i].name, p.name, OrdinalIgnoreCase);
      }
    }
  }

  /** Removing one entry keeps names unique. */
  lemma {:induction false} RemoveKeepsUnique(ps: seq<Product>, k: nat)
    requires Unique(ps) && k < |ps|
    ensures Unique(ps[..k] + ps[k + 1..])
  {
    var qs := ps[..k] + ps[k + 1..];
    forall i, j | 0 <= i < j < |qs|
      ensures !EqualsIgnoringCase(qs[i].name, qs[j].name)
    {
      var i' := if i < k then i else i + 1;
      var j' := if j < k then j else j + 1;
      assert qs[i] == ps[i'] && qs[j] == ps[j'];
    }
  }

  /** In a unique catalog at most one entry matches a name ignoring case, so
      what find returns is the only entry with that name. */
  lemma UniqueMatchIsOnlyMatch(ps: seq<Product>, name: string, i: int, j: int)
    requires Unique(ps)
    requires 0 <= i < |ps| && NameEquals(ps[i].name, name, OrdinalIgnoreCase)
    requires 0 <= j < |ps| && NameEquals(ps[j].name, name, OrdinalIgnoreCase)
    ensures i == j
  {
    EqualsIgnoringCaseIsEquivalence(ps[i].name, name, ps[j].name);
    EqualsIgnoringCaseIsEquivalence(ps[j].name, name, ps[i].name);
  }

  /** In a unique catalog the entry that remove and update select by exact
      name is the same entry that find selects ignoring case. */
  lemma ExactMatchIsFoundIgnoringCase(ps: seq<Product>, name: string, i: int)
    requires Unique(ps)
    requires IsFirstMatch(ps, name, Ordinal, i)
    ensures IsFirstMatch(ps, name, OrdinalIgnoreCase, i)
  {
    EqualsIgnoringCaseIsEquivalence(name, name, name);
    forall j | 0 <= j < i
      ensures !NameEquals(ps[j].name, name, OrdinalIgnoreCase)
    {
      if NameEquals(ps[j].name, name, OrdinalIgnoreCase) {
        UniqueMatchIsOnlyMatch(ps, name, i, j);
      }
    }
  }

  /** Case matters to remove and update but not to find: on the seed catalog
      "minecraft" is found, yet no entry matches it exactly. */
  lemma LookupIsCaseAsymmetric()
    ensures FirstIndex(Seed(), "minecraft", OrdinalIgnoreCase) == Some(3)
    ensures FirstIndex(Seed(), "minecraft", Ordinal) == None
  {
    var s := Seed();
    assert EqualsIgnoringCase(s[3].name, "minecraft");
    assert |s[0].name| != 9 && |s[1].name| != 9 && |s[2].name| != 9 && |s[4].name| != 9;
    assert IsFirstMatch(s, "minecraft", OrdinalIgnoreCase, 3);
    assert s[3].name[0] != 'm';
  }

  /** Update does not keep names unique: renaming "Minecraft" to "ELDEN RING"
      leaves two entries that are equal ignoring case. */
  lemma UpdateCanBreakUniqueness()
    ensures Unique(Seed())
    ensures !Unique(Seed()[3 := Product("ELDEN RING", 59.90, 1)])
  {
    SeedIsUniqueAndValid();
    var s := Seed()[3 := Product("ELDEN RING", 59.90, 1)];
    assert EqualsIgnoringCase(s[2].name, s[3].name);
  }

  // ---------------------------------------------------------------------------
  // The store and its handlers
  // ---------------------------------------------------------------------------

  /** The process-wide product list the handlers share. */
  class Store {
    var products: seq<Product>

    /** A fresh process: the seed catalog. */
    constructor ()
      ensures products == Seed()
    {
      products := Seed();
    }

    /** GET /api/produto/listar: the whole catalog in order, or 404 when empty. */
    method List() returns (r: Outcome)
      ensures products != [] ==> r == OkList(products)
      ensures products == [] ==> r == NotFound(NoProducts)
      ensures r.StatusCode() == (if products == [] then 404 else 200)
    {
      if |products| > 0 {
        return OkList(products);
      }
      return NotFound(NoProducts);
    }

    /** POST /api/produto/cadastrar: validate the body, reject a name taken
        ignoring case, otherwise append the product at the end. */
    method Create(body: Option<Product>) returns (r: Outcome)
      modifies this
      ensures body.None? || IsNullOrWhiteSpace(body.value.name) ==>
        r == BadRequest(InvalidName) && products == old(products)
      ensures body.Some? && !IsNullOrWhiteSpace(body.value.name) && body.value.price <= 0.0 ==>
        r == BadRequest(PriceNotPositive) && products == old(products)
      ensures body.Some? && !IsNullOrWhiteSpace(body.value.name) && body.value.price > 0.0
              && body.value.quantity < 0 ==>
        r == BadRequest(NegativeQuantity) && products == old(products)
      ensures body.Some? && IsValid(body.value) && AnyMatch(old(products), body.value.name, OrdinalIgnoreCase) ==>
        r == Conflict(AlreadyRegistered) && products == old(products)
      ensures body.Some? && IsValid(body.value) && !AnyMatch(old(products), body.value.name, OrdinalIgnoreCase) ==>
        r == Created(body.value) && products == old(products) + [body.value]
      ensures Unique(old(products)) ==> Unique(products)
      ensures AllValid(old(products)) ==> AllValid(products)
    {
      if body.None? || IsNullOrWhiteSpace(body.value.name) {
        return BadRequest(InvalidName);
      }
      var produto := body.value;
      if produto.price <= 0.0 {
        return BadRequest(PriceNotPositive);
      }
      if produto.quantity < 0 {
        return BadRequest(NegativeQuantity);
      }
      var i := 0;
      while i < |products|
        invariant 0 <= i <= |products|
        invariant forall j | 0 <= j < i :: !NameEquals(products[j].name, produto.name, OrdinalIgnoreCase)
      {
        if EqualsIgnoringCase(products[i].name, produto.name) {
          assert NameEquals(products[i].name, produto.name, OrdinalIgnoreCase);
          return Conflict(AlreadyRegistered);
        }
        i := i + 1;
      }
      if Unique(products) {
        AppendKeepsUnique(products, produto);
      }
      products := products + [produto];
      return Created(produto);
    }

    /** GET /api/produto/buscar/{nome}: 400 for a blank name, otherwise the
        first entry whose name matches ignoring case, or 404. */
    method Find(name: string) returns (r: Outcome)
      ensures IsNullOrWhiteSpace(name) ==> r == BadRequest(NameRequired)
      ensures !IsNullOrWhiteSpace(name) && !AnyMatch(products, name, OrdinalIgnoreCase) ==>
        r == NotFound(ProductNotFound)
      ensures !IsNullOrWhiteSpace(name) && AnyMatch(products, name, OrdinalIgnoreCase) ==>
        r.Ok? && exists i :: IsFirstMatch(products, name, OrdinalIgnoreCase, i) && r.product == products[i]
    {
      if IsNullOrWhiteSpace(name) {
        return BadRequest(NameRequired);
      }
      var k := FirstIndex(products, name, OrdinalIgnoreCase);
      if k.None? {
        return NotFound(ProductNotFound);
      }
      return Ok(products[k.value]);
    }

    /** POST /api/produto/remover: delete the first entry whose name equals the
        body's name exactly and return it, or 404. */
    method Remove(body: Product) returns (r: Outcome)
      modifies this
      ensures !AnyMatch(old(products), body.name, Ordinal) ==>
        r == NotFound(ProductNotFound) && products == old(products)
      ensures forall i | IsFirstMatch(old(products), body.name, Ordinal, i) ::
        r == Ok(old(products)[i]) && products == old(products)[..i] + old(products)[i + 1..]
      ensures |products| == |old(products)| - (if r.Ok? then 1 else 0)
      ensures Unique(old(products)) ==> Unique(products)
      ensures AllValid(old(products)) ==> AllValid(products)
    {
      var k := FirstIndex(products, body.name, Ordinal);
      if k.None? {
        return NotFound(ProductNotFound);
      }
      var i := k.value;
      r := Ok(products[i]);
      if Unique(products) {
        RemoveKeepsUnique(products, i);
      }
      products := products[..i] + products[i + 1..];
    }

    /** POST /api/produto/alterar/{nome}: overwrite name, price and quantity of
        the first entry whose name equals `name` exactly, or 404. The new name
        is not checked. */
    method Update(name: string, body: Product) returns (r: Outcome)
      modifies this
      ensures !AnyMatch(old(products), name, Ordinal) ==>
        r == NotFound(ProductNotFound) && products == old(products)
      ensures forall i | IsFirstMatch(old(products), name, Ordinal, i) ::
        r == Ok(body) && products == old(products)[i := body]
      ensures |products| == |old(products)|
    {
      var k := FirstIndex(products, name, Ordinal);
      if k.None? {
        return NotFound(ProductNotFound);
      }
      products := products[k.value := body];
      return Ok(body);
    }
  }
}

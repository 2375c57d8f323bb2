/**
 * What a client of a fresh process observes, derived from the handlers'
 * contracts alone.
 */
module Scenarios {
  import opened Wrappers
  import opened Strings
  import opened Catalog

  /** On a fresh process "Minecraft" is already registered: creating it, in
      any case, is a conflict, and invalid bodies are rejected first. */
  method CreateOnSeedScenario() {
    var store := new Store();
    assert NameEquals(store.products[3].name, "MINECRAFT", OrdinalIgnoreCase);
    assert !IsWhiteSpace("MINECRAFT"[0]);
    var r := store.Create(Some(Product("MINECRAFT", 99.9, 15)));
    assert r == Conflict(AlreadyRegistered) && store.products == Seed();
    r := store.Create(Some(Product("", 10.0, 1)));
    assert r == BadRequest(InvalidName);
    assert !IsWhiteSpace("X"[0]);
    r := store.Create(Some(Product("X", -5.0, 1)));
    assert r == BadRequest(PriceNotPositive) && store.products == Seed();
  }

  /** Find ignores case: "minecraft" finds the seeded "Minecraft". */
  method FindOnSeedScenario() {
    var store := new Store();
    LookupIsCaseAsymmetric();
    assert !IsWhiteSpace("minecraft"[0]);
    var r := store.Find("minecraft");
    var i :| IsFirstMatch(Seed(), "minecraft", OrdinalIgnoreCase, i) && r == Ok(Seed()[i]);
    FirstMatchIsUnique(Seed(), "minecraft", OrdinalIgnoreCase, i, 3);
    assert r.Ok? && r.product.name == "Minecraft";
  }

  /** Remove does not ignore case: "minecraft" is not found, "Minecraft" is
      removed and returned. */
  method RemoveOnSeedScenario() {
    var store := new Store();
    LookupIsCaseAsymmetric();
    assert !AnyMatch(Seed(), "minecraft", Ordinal);
    assert IsFirstMatch(Seed(), "Minecraft", Ordinal, 3);
    var r := store.Remove(Product("minecraft", 1.0, 1));
    assert r == NotFound(ProductNotFound) && store.products == Seed();
    r := store.Remove(Product("Minecraft", 99.9, 15));
    assert r.Ok? && r.product.name == "Minecraft" && |store.products| == 4;
  }

  /** Update does not check the new name: renaming "Minecraft" to "ELDEN RING"
      on a fresh process leaves two names equal ignoring case. */
  method UpdateOnSeedScenario() {
    var store := new Store();
    UpdateCanBreakUniqueness();
    assert IsFirstMatch(Seed(), "Minecraft", Ordinal, 3);
    var r := store.Update("Minecraft", Product("ELDEN RING", 59.90, 1));
    assert r == Ok(Product("ELDEN RING", 59.90, 1));
    assert !Unique(store.products);
  }
}

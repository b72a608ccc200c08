/** Callers of the pallet: what follows from the dispatchables' contracts alone. */
module Scenarios {
  import opened Wrappers
  import opened Types
  import opened Genetics
  import opened Pallet

  /** The breeding failures of `can_breed` in pallets/kitties/src/tests.rs: a missing
      parent, the same parent twice, and parents that belong to someone else. */
  method BreedingFailures(rt: Runtime) {
    var p := new KittiesPallet(1, map[]);
    var r := p.CreateKitty(100, rt);
    r := p.CreateKitty(100, rt);
    assert p.OwnedBy(100, 0) && p.OwnedBy(100, 1) && !p.OwnedBy(100, 11);
    r := p.BreedKitty(100, 0, 11, rt);
    assert r == Err(KittyNotFound);
    r := p.BreedKitty(100, 0, 0, rt);
    assert r == Err(KittyPartnerMissing);
    r := p.BreedKitty(101, 0, 1, rt);
    assert r == Err(KittyNotFound);
  }

  /** A lists a kitty at 100; A's own attempt to buy it is refused without losing the
      listing, and B's purchase then moves the kitty to B and 100 to A. */
  method SaleAfterRefusedSelfPurchase(rt: Runtime) {
    var a, b := 1, 2;
    var p := new KittiesPallet(1, map[a := 5, b := 150]);
    var r := p.CreateKitty(a, rt);
    r := p.SetPrice(a, 0, Some(100));
    assert r.Ok? && p.exchange[0] == Listing(a, 100);
    r := p.BuyKitty(a, 0);
    assert r == Err(CannotBuyOwnKitty) && 0 in p.exchange;
    r := p.BuyKitty(b, 0);
    assert r.Ok?;
    assert p.OwnedBy(b, 0) && 0 !in p.exchange;
    assert p.BalanceOf(a) == 105 && p.BalanceOf(b) == 50;
  }

  /** A transfer to oneself keeps the listing and deposits no event. */
  method SelfTransferKeepsListing(rt: Runtime) {
    var a := 7;
    var p := new KittiesPallet(1, map[]);
    var r := p.CreateKitty(a, rt);
    r := p.SetPrice(a, 0, Some(3));
    var before := |p.events|;
    r := p.TransferKitty(a, a, 0);
    assert r.Ok? && p.exchange[0] == Listing(a, 3) && |p.events| == before;
  }
}

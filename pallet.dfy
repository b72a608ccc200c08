/** The kitties pallet's storage and its five dispatchables (`#[pallet::call]` in
    pallets/kitties/src/lib.rs).

    The pallet's storage is the `KittyExchange` map of listings. The token table of the NFT
    registry (orml_nft's `Tokens`, with `TokensByOwner` as its index by owner and
    `NextTokenId` as its counter), the currency's balances and the runtime's event list are
    fields of the same object, because the dispatchables change them all and must leave
    every one of them as it was when they fail. The registry and the currency are only
    called, never shown, so `NftMint`, `NftTransfer` and `CurrencyTransfer` give them the
    smallest contract the pallet relies on. */
module Pallet {
  import opened Wrappers
  import opened Types
  import opened Genetics
  import opened Ledger

  /** orml_nft's `TokenInfo` for this pallet's class (`TokenData = Kitty`, unit metadata) */
  datatype TokenInfo = TokenInfo(owner: AccountId, data: Kitty)

  /** `Listing(seller, price)` */
  datatype Listing = Listing(seller: AccountId, price: Balance)

  /** The pallet's `Event<T>` */
  datatype Event =
    | KittyCreated(kitty: Kitty, id: TokenId, owner: AccountId)
    | KittyBred(kitty: Kitty, id: TokenId, owner: AccountId)
    | KittyTransfer(id: TokenId, from: AccountId, to: AccountId)
    | KittySold(id: TokenId, price: Balance, seller: AccountId, buyer: AccountId)
    | KittyPriceUpdated(id: TokenId, newPrice: Option<Balance>, owner: AccountId)

  class KittiesPallet {
    /** orml_nft `Tokens` for the pallet's class: token id to owner and kitty */
    var tokens: map<TokenId, TokenInfo>
    /** orml_nft `NextTokenId` for the pallet's class */
    var nextTokenId: TokenId
    /** `KittyExchange`; a key that is absent reads as `None` */
    var exchange: map<TokenId, Listing>
    /** the currency's free balances */
    var balances: Balances
    /** the events deposited so far */
    var events: seq<Event>
    /** the currency's existential deposit */
    const existentialDeposit: Balance

    /** Every token id was handed out by the registry's counter. */
    ghost predicate Valid()
      reads this
    {
      forall id :: id in tokens ==> id < nextTokenId
    }

    /** Every listing is for an existing token and was put up by its current owner: the
        dispatchables clear a listing whenever its token changes hands. */
    ghost predicate ListingsMatchOwners()
      reads this
    {
      forall id :: id in exchange ==> id in tokens && exchange[id].seller == tokens[id].owner
    }

    /** `TokensByOwner::contains_key(owner, (class_id, id))` */
    predicate OwnedBy(owner: AccountId, id: TokenId): (b: bool)
      reads this
      ensures b <==> Kitties(owner, id).Some?
    {
      id in tokens && tokens[id].owner == owner
    }

    function BalanceOf(a: AccountId): nat
      reads this
    {
      BalanceIn(balances, a)
    }

    /** The state right after `genesis_build` has created the pallet's NFT class. */
    constructor (existentialDeposit: Balance, balances: Balances)
      ensures Valid() && ListingsMatchOwners()
      ensures tokens == map[] && nextTokenId == 0 && exchange == map[] && events == []
      ensures this.balances == balances && this.existentialDeposit == existentialDeposit
    {
      tokens := map[];
      nextTokenId := 0;
      exchange := map[];
      this.balances := balances;
      events := [];
      this.existentialDeposit := existentialDeposit;
    }

    /** `Pallet::kitties`: the kitty with this id, but only when `owner` owns it. */
    function Kitties(owner: AccountId, id: TokenId): (k: Option<Kitty>)
      reads this
      ensures k.Some? <==> id in tokens && tokens[id].owner == owner
      ensures k.Some? ==> k.value == tokens[id].data
    {
      if id in tokens then
        var info := tokens[id];
        if info.owner == owner then Some(info.data) else None
      else None
    }

    /** `frame_system::deposit_event` */
    method DepositEvent(e: Event)
      modifies this`events
      ensures events == old(events) + [e]
    {
      events := events + [e];
    }

    /** orml_nft `mint` (assumed contract): hands out an id that no token has yet. */
    method NftMint(owner: AccountId, data: Kitty) returns (id: TokenId)
      requires Valid()
      modifies this`tokens, this`nextTokenId
      ensures Valid()
      ensures id == old(nextTokenId) && id !in old(tokens)
      ensures tokens == old(tokens)[id := TokenInfo(owner, data)]
      ensures nextTokenId == old(nextTokenId) + 1
    {
      id := nextTokenId;
      tokens := tokens[id := TokenInfo(owner, data)];
      nextTokenId := nextTokenId + 1;
    }

    /** orml_nft `transfer` (assumed contract): fails for a missing token, then for a `from`
        that does not own it, and otherwise makes `to` the owner. */
    method NftTransfer(from: AccountId, to: AccountId, id: TokenId) returns (r: Result<(), Error>)
      modifies this`tokens
      ensures id !in old(tokens) ==> r == Err(NftTokenNotFound) && tokens == old(tokens)
      ensures id in old(tokens) && old(tokens)[id].owner != from ==>
        r == Err(NftNoPermission) && tokens == old(tokens)
      ensures id in old(tokens) && old(tokens)[id].owner == from ==>
        r.Ok? && tokens == old(tokens)[id := TokenInfo(to, old(tokens)[id].data)]
    {
      if id !in tokens {
        return Err(NftTokenNotFound);
      }
      var info := tokens[id];
      if info.owner != from {
        return Err(NftNoPermission);
      }
      tokens := tokens[id := TokenInfo(to, info.data)];
      r := Ok(());
    }

    /** `Currency::transfer` with `ExistenceRequirement::KeepAlive` (assumed contract): fails
        unless `from` keeps at least the existential deposit after paying `value`, and
        otherwise moves `value` to `to`. */
    method CurrencyTransfer(from: AccountId, to: AccountId, value: Balance) returns (r: Result<(), Error>)
      requires from != to
      modifies this`balances
      ensures old(BalanceOf(from)) < value ==> r == Err(InsufficientBalance) && balances == old(balances)
      ensures value <= old(BalanceOf(from)) < value + existentialDeposit ==>
        r == Err(KeepAlive) && balances == old(balances)
      ensures old(BalanceOf(from)) >= value + existentialDeposit ==>
        r.Ok? && balances == Moved(old(balances), from, to, value)
      ensures Total(balances) == old(Total(balances))
    {
      if BalanceOf(from) < value {
        return Err(InsufficientBalance);
      }
      if BalanceOf(from) - value < existentialDeposit {
        return Err(KeepAlive);
      }
      TotalTransfer(balances, from, to, value);
      balances := Moved(balances, from, to, value);
      r := Ok(());
    }

    /** `create_kitty`: mints a kitty with a fresh DNA to the caller under an id no token had
        before, touches no other token and no listing, and deposits one `KittyCreated`. */
    method CreateKitty(who: AccountId, rt: Runtime) returns (r: Result<(), Error>)
      requires Valid()
      modifies this
      ensures Valid() && (old(ListingsMatchOwners()) ==> ListingsMatchOwners())
      ensures r.Ok?
      ensures var id := old(nextTokenId);
              var kitty := Kitty(rt.hash(NewPayload(who, rt.random(who), rt.extrinsicIndex)));
              && id !in old(tokens)
              && tokens == old(tokens)[id := TokenInfo(who, kitty)]
              && Kitties(who, id) == Some(kitty)
              && exchange == old(exchange)
              && balances == old(balances)
              && events == old(events) + [KittyCreated(kitty, id, who)]
              && nextTokenId == id + 1
    {
      // `Kitty::new` always returns `Ok`
      var kitty := New(who, rt).value;
      var id := NftMint(who, kitty);
      DepositEvent(KittyCreated(kitty, id, who));
      r := Ok(());
    }

    /** `breed_kitty`: both parents are looked up among the caller's own kitties (a parent
        that exists but belongs to someone else is `KittyNotFound`), then `Kitty::breed`
        decides; on success the child is minted to the caller as in `create_kitty`. Every
        failure leaves the state as it was. */
    method BreedKitty(who: AccountId, first: TokenId, second: TokenId, rt: Runtime)
      returns (r: Result<(), Error>)
      requires Valid()
      modifies this
      ensures Valid() && (old(ListingsMatchOwners()) ==> ListingsMatchOwners())
      ensures old(!OwnedBy(who, first) || !OwnedBy(who, second)) ==>
        r == Err(KittyNotFound) && unchanged(this)
      ensures old(OwnedBy(who, first) && OwnedBy(who, second)) ==>
        var child := Breed(old(tokens[first].data), old(tokens[second].data), rt);
        && (child.Err? ==> r == Err(child.error) && unchanged(this))
        && (child.Ok? ==>
              var id := old(nextTokenId);
              && r.Ok?
              && id !in old(tokens)
              && tokens == old(tokens)[id := TokenInfo(who, child.value)]
              && exchange == old(exchange)
              && balances == old(balances)
              && events == old(events) + [KittyBred(child.value, id, who)]
              && nextTokenId == id + 1)
    {
      var firstParent :- Kitties(who, first).OkOr(KittyNotFound);
      var secondParent :- Kitties(who, second).OkOr(KittyNotFound);
      var kitty :- Breed(firstParent, secondParent, rt);
      var id := NftMint(who, kitty);
      DepositEvent(KittyBred(kitty, id, who));
      r := Ok(());
    }

    /** `transfer_kitty`: the registry's transfer decides; after it succeeds, a transfer to
        someone else clears the listing and deposits one `KittyTransfer`, while a transfer
        to oneself changes nothing at all. */
    method TransferKitty(who: AccountId, receiver: AccountId, id: TokenId) returns (r: Result<(), Error>)
      requires Valid()
      modifies this
      ensures Valid()
      ensures old(ListingsMatchOwners()) ==> ListingsMatchOwners()
      ensures id !in old(tokens) ==> r == Err(NftTokenNotFound) && unchanged(this)
      ensures id in old(tokens) && old(tokens[id].owner) != who ==>
        r == Err(NftNoPermission) && unchanged(this)
      ensures old(OwnedBy(who, id)) && who == receiver ==> r.Ok? && unchanged(this)
      ensures old(OwnedBy(who, id)) && who != receiver ==>
        && r.Ok?
        && tokens == old(tokens)[id := TokenInfo(receiver, old(tokens[id].data))]
        && exchange == old(exchange) - {id}
        && balances == old(balances)
        && events == old(events) + [KittyTransfer(id, who, receiver)]
      ensures nextTokenId == old(nextTokenId)
    {
      r := NftTransfer(who, receiver, id);
      if r.Err? {
        return;
      }
      if who != receiver {
        exchange := exchange - {id};
        DepositEvent(KittyTransfer(id, who, receiver));
      } else {
        assert tokens == old(tokens);
      }
    }

    /** `set_price`: only the owner may list; `Some(p)` replaces any listing with
        `(who, p)`, `None` removes it, and either way one `KittyPriceUpdated` is deposited. */
    method SetPrice(who: AccountId, id: TokenId, newPrice: Option<Balance>) returns (r: Result<(), Error>)
      requires Valid()
      modifies this
      ensures Valid()
      ensures old(ListingsMatchOwners()) ==> ListingsMatchOwners()
      ensures old(!OwnedBy(who, id)) ==> r == Err(KittyNotFound) && unchanged(this)
      ensures old(OwnedBy(who, id)) ==>
        && r.Ok?
        && exchange == (match newPrice
                        case Some(p) => old(exchange)[id := Listing(who, p)]
                        case None => old(exchange) - {id})
        && tokens == old(tokens)
        && balances == old(balances)
        && events == old(events) + [KittyPriceUpdated(id, newPrice, who)]
      ensures nextTokenId == old(nextTokenId)
    {
      if !OwnedBy(who, id) {
        return Err(KittyNotFound);
      }
      match newPrice {
        case Some(p) => exchange := exchange[id := Listing(who, p)];
        case None => exchange := exchange - {id};
      }
      DepositEvent(KittyPriceUpdated(id, newPrice, who));
      r := Ok(());
    }

    /** `buy_kitty`: takes the listing, refuses a missing listing and a purchase from
        oneself, then moves the token to the buyer and the price to the seller. It is all or
        nothing: `try_mutate` writes the taken listing back only on success, and
        `with_transaction_result` undoes the token transfer when the payment fails. */
    method BuyKitty(who: AccountId, id: TokenId) returns (r: Result<(), Error>)
      requires Valid()
      modifies this
      ensures Valid()
      ensures old(ListingsMatchOwners()) ==> ListingsMatchOwners()
      ensures Total(balances) == old(Total(balances))
      ensures id !in old(exchange) ==> r == Err(KittyNotForSale) && unchanged(this)
      ensures id in old(exchange) && old(exchange[id].seller) == who ==>
        r == Err(CannotBuyOwnKitty) && unchanged(this)
      ensures id in old(exchange) && old(exchange[id].seller) != who ==>
        var Listing(seller, price) := old(exchange[id]);
        && (id !in old(tokens) ==> r == Err(NftTokenNotFound) && unchanged(this))
        && (id in old(tokens) && old(tokens[id].owner) != seller ==>
              r == Err(NftNoPermission) && unchanged(this))
        && (old(OwnedBy(seller, id)) && old(BalanceOf(who)) < price ==>
              r == Err(InsufficientBalance) && unchanged(this))
        && (old(OwnedBy(seller, id)) && price <= old(BalanceOf(who)) < price + existentialDeposit ==>
              r == Err(KeepAlive) && unchanged(this))
        && (old(OwnedBy(seller, id)) && old(BalanceOf(who)) >= price + existentialDeposit ==>
              && r.Ok?
              && tokens == old(tokens)[id := TokenInfo(who, old(tokens[id].data))]
              && exchange == old(exchange) - {id}
              && balances == Moved(old(balances), who, seller, price)
              && events == old(events) + [KittySold(id, price, seller, who)])
      ensures nextTokenId == old(nextTokenId)
    {
      // the closure of `try_mutate` runs `take()` on a copy of the entry
      var taken := if id in exchange then Some(exchange[id]) else None;
      if taken.None? {
        return Err(KittyNotForSale);
      }
      var Listing(seller, price) := taken.value;
      if who == seller {
        return Err(CannotBuyOwnKitty);
      }
      // `with_transaction_result`: checkpoint, run both transfers, roll back on failure
      var tokens0, balances0, events0 := tokens, balances, events;
      r := NftTransfer(seller, who, id);
      if r.Ok? {
        r := CurrencyTransfer(who, seller, price);
      }
      if r.Ok? {
        DepositEvent(KittySold(id, price, seller, who));
      }
      if r.Err? {
        tokens, balances, events := tokens0, balances0, events0;
        return;
      }
      // the closure succeeded: `try_mutate` stores the emptied entry
      exchange := exchange - {id};
    }
  }
}

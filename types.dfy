/** The types the pallet shares with the runtime around it: accounts, token ids, balances,
    and the errors a dispatchable can return. */
module Types {

  type AccountId = nat
  type TokenId = nat
  type Balance = nat

  /** The pallet's `Error<T>` enumeration, followed by the failures of the NFT
      registry and of the currency that the dispatchables pass through. */
  datatype Error =
    | NoneValue
    | StorageOverflow
    | DuplicateKitty
    | KittyNotFound
    | KittyPartnerMissing
    | KittyGendersNotCompatible
    | KittyIdOverflow
    | KittyNotForSale
    | CannotBuyOwnKitty
    | CouldNotCreateKitty
    | NftTokenNotFound
    | NftNoPermission
    | InsufficientBalance
    | KeepAlive
}

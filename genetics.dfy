/** The pure part of the kitties pallet (`impl Kitty` in pallets/kitties/src/lib.rs):
    a kitty is a 16-byte DNA, its gender is computed from the DNA, and breeding
    checks that the parents differ and then that their genders differ before it
    hashes the parents into a child.

    The hash (SCALE encoding followed by blake2_128), the randomness source and
    the extrinsic index belong to the runtime; they are the fields of `Runtime`,
    passed in by the caller, about which nothing is assumed except their types. */
module Genetics {
  import opened Wrappers
  import opened Types

  newtype u8 = x: int | 0 <= x < 256

  /** `[u8; 16]` */
  type Dna = s: seq<u8> | |s| == 16 witness [0, 0, 0, 0, 0, 0, 0, 0, 0, 0, 0, 0, 0, 0, 0, 0]

  /** `H256`, the output of the randomness source */
  type H256 = s: seq<u8> | |s| == 32 witness seq(32, _ => 0 as u8)

  datatype Gender = Male | Female

  /** The tuples the pallet encodes and hashes into a DNA. */
  datatype Payload =
    | NewPayload(owner: AccountId, random: H256, extrinsicIndex: Option<nat>)
    | BreedPayload(first: Dna, second: Dna, randomSeed: H256, extrinsicIndex: Option<nat>)

  /** What the runtime supplies: `payload.using_encoded(blake2_128)` as `hash`,
      `RandomnessSource::random(&owner.encode())` as `random(owner)`,
      `RandomnessSource::random_seed()` as `randomSeed`, and
      `frame_system::extrinsic_index()` as `extrinsicIndex`. */
  datatype Runtime = Runtime(
    hash: Payload -> Dna,
    random: AccountId -> H256,
    randomSeed: H256,
    extrinsicIndex: Option<nat>)

  datatype Kitty = Kitty(dna: Dna) {
    /** `Kitty::gender` */
    function Gender(): (g: Gender)
      ensures forall m :: IsMaxByte(dna, m) ==> (g == Male <==> m % 2 == 0)
    {
      GenderFromDna(dna)
    }
  }

  /** `m` is a largest byte of `s` */
  ghost predicate IsMaxByte(s: seq<u8>, m: u8) {
    m in s && forall i :: 0 <= i < |s| ==> s[i] <= m
  }

  /** `s.iter().max()`: `None` exactly on the empty sequence, otherwise a largest byte. */
  function MaxByte(s: seq<u8>): (r: Option<u8>)
    ensures r.None? <==> s == []
    ensures r.Some? ==> IsMaxByte(s, r.value)
  {
    if s == [] then None
    else match MaxByte(s[..|s| - 1])
      case None => Some(s[|s| - 1])
      case Some(m) => Some(if s[|s| - 1] >= m then s[|s| - 1] else m)
  }

  /** `Kitty::get_gender_from_dna`: a DNA has a largest byte, so the `None` arm is never
      taken, and the gender is `Male` exactly when that byte is even. */
  function GenderFromDna(dna: Dna): (g: Gender)
    ensures MaxByte(dna).Some?
    ensures forall m :: IsMaxByte(dna, m) ==> (g == Male <==> m % 2 == 0)
  {
    match MaxByte(dna)
    case Some(total) => if total % 2 == 0 then Male else Female
    case None => Male
  }

  const ZeroDna: Dna := seq(16, _ => 0 as u8)
  const OneThenZerosDna: Dna := [1] + seq(15, _ => 0 as u8)

  /** `[0; 16]` is a male DNA. */
  lemma ZeroDnaIsMale()
    ensures Kitty(ZeroDna).Gender() == Male
  {
  }

  /** `[1, 0, ..., 0]` is a female DNA. */
  lemma OneThenZerosDnaIsFemale()
    ensures Kitty(OneThenZerosDna).Gender() == Female
  {
    assert OneThenZerosDna[0] == 1;
    assert IsMaxByte(OneThenZerosDna, 1);
  }

  /** `Kitty::ensure_different_kitty`: the derived `!=` on `[u8; 16]` compares byte by byte. */
  function EnsureDifferentKitty(first: Kitty, second: Kitty): (r: Result<(), Error>)
    ensures r.Ok? <==> exists i :: 0 <= i < 16 && first.dna[i] != second.dna[i]
    ensures r.Err? ==> r.error == KittyPartnerMissing
  {
    assert (forall i :: 0 <= i < 16 ==> first.dna[i] == second.dna[i]) ==> first.dna == second.dna;
    if first != second then Ok(()) else Err(KittyPartnerMissing)
  }

  /** `Kitty::ensure_different_gender` */
  function EnsureDifferentGender(first: Kitty, second: Kitty): (r: Result<(), Error>)
    ensures forall m1, m2 :: IsMaxByte(first.dna, m1) && IsMaxByte(second.dna, m2) ==>
      (r.Ok? <==> m1 % 2 != m2 % 2)
    ensures r.Err? ==> r.error == KittyGendersNotCompatible
  {
    if first.Gender() != second.Gender() then Ok(()) else Err(KittyGendersNotCompatible)
  }

  /** `Kitty::new`: never fails; the DNA is the hash of the owner, the randomness for the
      owner and the extrinsic index. */
  function New(owner: AccountId, rt: Runtime): (r: Result<Kitty, Error>)
    ensures r.Ok?
    ensures r.value.dna == rt.hash(NewPayload(owner, rt.random(owner), rt.extrinsicIndex))
  {
    var payload := NewPayload(owner, rt.random(owner), rt.extrinsicIndex);
    Ok(Kitty(rt.hash(payload)))
  }

  /** `Kitty::breed`: equal parents fail `KittyPartnerMissing` whatever their genders, distinct
      parents of one gender fail `KittyGendersNotCompatible`, and otherwise the child's DNA is
      the hash of both parents' DNA, the random seed and the extrinsic index. */
  function Breed(first: Kitty, second: Kitty, rt: Runtime): (r: Result<Kitty, Error>)
    ensures r.Ok? <==> first != second && first.Gender() != second.Gender()
    ensures first == second ==> r == Err(KittyPartnerMissing)
    ensures first != second && first.Gender() == second.Gender() ==>
      r == Err(KittyGendersNotCompatible)
    ensures r.Ok? ==>
      r.value.dna == rt.hash(BreedPayload(first.dna, second.dna, rt.randomSeed, rt.extrinsicIndex))
  {
    var _ :- EnsureDifferentKitty(first, second);
    var _ :- EnsureDifferentGender(first, second);
    var payload := BreedPayload(first.dna, second.dna, rt.randomSeed, rt.extrinsicIndex);
    Ok(Kitty(rt.hash(payload)))
  }

  /** Breeding stated on the DNA alone: with `m1`, `m2` the largest bytes of the parents,
      equal DNA fails `KittyPartnerMissing`, distinct DNA with `m1`, `m2` of equal parity fails
      `KittyGendersNotCompatible`, and distinct DNA with opposite parities succeeds. */
  lemma BreedByParity(first: Kitty, second: Kitty, rt: Runtime, m1: u8, m2: u8)
    requires IsMaxByte(first.dna, m1) && IsMaxByte(second.dna, m2)
    ensures first.dna == second.dna ==> Breed(first, second, rt) == Err(KittyPartnerMissing)
    ensures first.dna != second.dna && m1 % 2 == m2 % 2 ==>
      Breed(first, second, rt) == Err(KittyGendersNotCompatible)
    ensures Breed(first, second, rt).Ok? <==> first.dna != second.dna && m1 % 2 != m2 % 2
  {
  }
}

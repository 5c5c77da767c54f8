/** The address conversion of go-ethereum's `common` package. */
module EthCommon {
  import opened GoTypes

  const AddressLength: nat := 20

  /** A 20-byte Ethereum address (`common.Address`). */
  type Address = a: seq<byte> | |a| == 20 witness seq(20, _ => 0 as byte)

  /** `common.BytesToAddress`: keeps the last 20 bytes of a longer input and
      left-pads a shorter one with zero bytes. */
  function BytesToAddress(b: seq<byte>): (a: Address)
    ensures |b| >= AddressLength ==> a == b[|b| - AddressLength..]
    ensures |b| < AddressLength ==> a[AddressLength - |b|..] == b
    ensures forall i :: 0 <= i < AddressLength - |b| ==> a[i] == 0
  {
    if |b| > AddressLength then b[|b| - AddressLength..]
    else seq(AddressLength - |b|, _ => 0 as byte) + b
  }

  /** An account address of exactly 20 bytes converts to itself. */
  lemma BytesToAddressIdentity(b: seq<byte>)
    requires |b| == AddressLength
    ensures BytesToAddress(b) == b
  {
  }
}

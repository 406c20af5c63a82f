/**
 Shared vocabulary of the consensus model: fixed-width integers, account
 addresses, the validator verifier of an epoch, and the failure-carrying
 result type used for `anyhow::Result`, `bail!` and panics.
 */
module Types {

  const U64_LIMIT: int := 0x1_0000_0000_0000_0000

  /** Rust `u64`. */
  type u64 = x: int | 0 <= x < U64_LIMIT

  /** One octet of an address. */
  type byte = x: int | 0 <= x < 256

  const ADDRESS_LENGTH: nat := 32

  /** `AccountAddress` / `PeerId` / `Author`: exactly 32 bytes. */
  type PeerId = s: seq<byte> | |s| == ADDRESS_LENGTH witness seq(32, _ => 0)

  /** Rust's `u64::saturating_sub`. */
  function SaturatingSub(a: u64, b: u64): (r: u64)
    ensures a >= b ==> r == a - b
    ensures a < b ==> r == 0
  {
    if a >= b then a - b else 0
  }

  /** How an operation can go wrong: an error value returned with `bail!`,
      `ensure!` or `?`, or a panic (`expect`, `unreachable!`, an index
      out of bounds) that takes the running async task down. */
  datatype Failure = Bail(reason: string) | Panic(reason: string)

  datatype Result<+T> = Ok(value: T) | Err(failure: Failure) {
    predicate IsFailure() {
      Err?
    }

    function PropagateFailure<U>(): Result<U>
      requires Err?
    {
      Err(failure)
    }

    function Extract(): T
      requires Ok?
    {
      value
    }
  }

  datatype Option<+T> = None | Some(value: T)

  /** One entry of a `ValidatorVerifier`. */
  datatype ValidatorInfo = ValidatorInfo(address: PeerId, votingPower: u64)

  /** The validator set of one epoch, in the verifier's own order. */
  datatype ValidatorVerifier = ValidatorVerifier(validators: seq<ValidatorInfo>) {

    /** The verifier indexes validators by address, so addresses are distinct. */
    ghost predicate Valid() {
      forall i, j :: 0 <= i < j < |validators| ==>
        validators[i].address != validators[j].address
    }

    function Len(): nat {
      |validators|
    }

    /** `get_voting_power`: the voting power of `who`, if it is a validator. */
    function VotingPower(who: PeerId): (r: Option<u64>)
      ensures r.Some? <==> exists i :: 0 <= i < |validators| && validators[i].address == who
      ensures r.Some? ==> exists i :: 0 <= i < |validators| && validators[i] == ValidatorInfo(who, r.value)
    {
      PowerIn(validators, who)
    }

    /** `get_ordered_account_addresses_iter().collect()`. */
    function OrderedAddresses(): (r: seq<PeerId>)
      ensures |r| == |validators|
      ensures forall i :: 0 <= i < |r| ==> r[i] == validators[i].address
    {
      seq(|validators|, i requires 0 <= i < |validators| => validators[i].address)
    }
  }

  function PowerIn(vs: seq<ValidatorInfo>, who: PeerId): (r: Option<u64>)
    ensures r.Some? <==> exists i :: 0 <= i < |vs| && vs[i].address == who
    ensures r.Some? ==> exists i :: 0 <= i < |vs| && vs[i] == ValidatorInfo(who, r.value)
  {
    if |vs| == 0 then None
    else if vs[0].address == who then Some(vs[0].votingPower)
    else
      var r := PowerIn(vs[1..], who);
      assert forall i :: 1 <= i < |vs| ==> vs[i] == vs[1..][i - 1];
      r
  }

  /** `EpochState`: the epoch number and its validator set. */
  datatype EpochState = EpochState(epoch: u64, verifier: ValidatorVerifier)
}

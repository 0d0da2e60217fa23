/**
  The proof-of-existence pallet: a map from a byte string (the proof) to the
  account that claimed it and the block number of the claim. The signed
  origin and the current block number are explicit parameters.
*/
module ProofOfExistence {
  type AccountId = nat
  type BlockNumber = nat
  type Proof = seq<bv8>

  datatype Error = ProofAlreadyExist | ProofNotExist | NotProofOwner | ProofExceedsLengthLimit

  datatype Outcome = Ok | Err(error: Error)

  /** The value stored under a proof: its owner and the block it was recorded in. */
  datatype Claim = Claim(owner: AccountId, block: BlockNumber)

  class Pallet {
    /** ProofLimit: the longest proof accepted. */
    const proofLimit: nat
    /** Proofs: proof to claim. */
    var proofs: map<Proof, Claim>

    constructor (limit: nat)
      ensures Valid() && proofLimit == limit && proofs == map[]
    {
      proofLimit := limit;
      proofs := map[];
    }

    /** No stored proof is longer than the limit. */
    ghost predicate Valid()
      reads this
    {
      forall p :: p in proofs ==> |p| <= proofLimit
    }

    /** `create_proof`: refuses a proof over the length limit, then one that is
        already claimed; otherwise records (caller, now) under it. */
    method CreateProof(caller: AccountId, proof: Proof, now: BlockNumber) returns (r: Outcome)
      modifies this
      ensures |proof| > proofLimit ==> r == Err(ProofExceedsLengthLimit) && unchanged(this)
      ensures |proof| <= proofLimit && proof in old(proofs) ==> r == Err(ProofAlreadyExist) && unchanged(this)
      ensures |proof| <= proofLimit && proof !in old(proofs) ==>
        r == Ok && proofs == old(proofs)[proof := Claim(caller, now)]
      ensures old(Valid()) ==> Valid()
    {
      if |proof| > proofLimit {
        return Err(ProofExceedsLengthLimit);
      }
      if proof in proofs {
        return Err(ProofAlreadyExist);
      }
      proofs := proofs[proof := Claim(caller, now)];
      r := Ok;
    }

    /** `revoke_proof`: the proof must be claimed, by the caller; it is then removed. */
    method RevokeProof(caller: AccountId, proof: Proof) returns (r: Outcome)
      modifies this
      ensures proof !in old(proofs) ==> r == Err(ProofNotExist) && unchanged(this)
      ensures proof in old(proofs) && old(proofs)[proof].owner != caller ==>
        r == Err(NotProofOwner) && unchanged(this)
      ensures proof in old(proofs) && old(proofs)[proof].owner == caller ==>
        r == Ok && proofs == old(proofs) - {proof}
      ensures old(Valid()) ==> Valid()
    {
      if proof !in proofs {
        return Err(ProofNotExist);
      }
      if proofs[proof].owner != caller {
        return Err(NotProofOwner);
      }
      proofs := proofs - {proof};
      r := Ok;
    }

    /** `transfer_proof`: the proof must be claimed, by the caller; it is then
        recorded as (to, now), so the block number is refreshed too. */
    method TransferProof(caller: AccountId, to: AccountId, proof: Proof, now: BlockNumber) returns (r: Outcome)
      modifies this
      ensures proof !in old(proofs) ==> r == Err(ProofNotExist) && unchanged(this)
      ensures proof in old(proofs) && old(proofs)[proof].owner != caller ==>
        r == Err(NotProofOwner) && unchanged(this)
      ensures proof in old(proofs) && old(proofs)[proof].owner == caller ==>
        r == Ok && proofs == old(proofs)[proof := Claim(to, now)]
      ensures old(Valid()) ==> Valid()
    {
      if proof !in proofs {
        return Err(ProofNotExist);
      }
      if proofs[proof].owner != caller {
        return Err(NotProofOwner);
      }
      proofs := proofs[proof := Claim(to, now)];
      r := Ok;
    }
  }
}

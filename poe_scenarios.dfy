/**
  Client scenarios of the proof-of-existence pallet. The first method holds for
  every state and input; the others follow the pallet's unit tests (caller 1,
  the claim [0, 1], a limit below 256).
*/
module PoeScenarios {
  import opened ProofOfExistence

  /** Claiming a fresh proof and revoking it as the same caller restores the map. */
  method CreateThenRevokeRestores(p: Pallet, caller: AccountId, proof: Proof, now: BlockNumber)
    requires |proof| <= p.proofLimit && proof !in p.proofs
    modifies p
    ensures p.proofs == old(p.proofs)
  {
    var c := p.CreateProof(caller, proof, now);
    assert c == Ok;
    var r := p.RevokeProof(caller, proof);
    assert r == Ok;
    assert p.proofs == old(p.proofs)[proof := Claim(caller, now)] - {proof};
  }

  method CreateProofWorks(now: BlockNumber) {
    var p := new Pallet(255);
    var r := p.CreateProof(1, [0, 1], now);
    assert r == Ok && p.proofs[[0, 1]] == Claim(1, now);
  }

  method CreateProofFailsWhenAlreadyClaimed(now: BlockNumber, later: BlockNumber) {
    var p := new Pallet(255);
    var c := p.CreateProof(1, [0, 1], now);
    var r := p.CreateProof(1, [0, 1], later);
    assert r == Err(ProofAlreadyExist) && p.proofs[[0, 1]] == Claim(1, now);
  }

  method CreateProofFailsWhenTooLong(now: BlockNumber) {
    var p := new Pallet(255);
    var r := p.CreateProof(1, seq(256, _ => 0), now);
    assert r == Err(ProofExceedsLengthLimit) && p.proofs == map[];
  }

  method RevokeProofWorks(now: BlockNumber) {
    var p := new Pallet(255);
    var c := p.CreateProof(1, [0, 1], now);
    var r := p.RevokeProof(1, [0, 1]);
    assert r == Ok && [0, 1] !in p.proofs;
  }

  method RevokeProofFailsWhenMissing() {
    var p := new Pallet(255);
    var r := p.RevokeProof(1, [0, 1]);
    assert r == Err(ProofNotExist);
  }

  method RevokeProofFailsWhenCallerIsNotOwner(now: BlockNumber) {
    var p := new Pallet(255);
    var c := p.CreateProof(1, [0, 1], now);
    var r := p.RevokeProof(2, [0, 1]);
    assert r == Err(NotProofOwner) && p.proofs[[0, 1]] == Claim(1, now);
  }

  method TransferProofWorks(now: BlockNumber, later: BlockNumber) {
    var p := new Pallet(255);
    var c := p.CreateProof(1, [0, 1], now);
    var r := p.TransferProof(1, 2, [0, 1], later);
    assert r == Ok && p.proofs[[0, 1]] == Claim(2, later);
  }

  method TransferProofFailsWhenCallerIsNotOwner(now: BlockNumber, later: BlockNumber) {
    var p := new Pallet(255);
    var c := p.CreateProof(1, [0, 1], now);
    var r := p.TransferProof(2, 3, [0, 1], later);
    assert r == Err(NotProofOwner) && p.proofs[[0, 1]] == Claim(1, now);
  }

  method TransferProofFailsWhenMissing(now: BlockNumber) {
    var p := new Pallet(255);
    var r := p.TransferProof(1, 2, [0, 1], now);
    assert r == Err(ProofNotExist) && p.proofs == map[];
  }
}

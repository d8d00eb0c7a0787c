/**
 The proof server, idealised. A sender proof binds the transferred amount, the receiver and the
 ordered list of auditors; a verification succeeds exactly when the key stands at the position
 it claims and the amount it was given, if any, is the bound one.
 */
module ProofServer {
  import opened Wrappers

  datatype SenderInfo = SenderInfo(amount: int, auditors: seq<string>, receiver: string, encryptedBalance: string)

  datatype Proof = Proof(sender: string, info: SenderInfo)

  datatype Verification = Verification(isValid: bool, amount: Option<int>, errMsg: Option<string>)

  function GenerateSenderProof(sender: string, info: SenderInfo): Proof {
    Proof(sender, info)
  }

  function VerifySenderProofAsReceiver(key: string, proof: Proof, amount: Option<int>): Verification {
    Judge(proof.info.receiver == key, proof, amount)
  }

  function VerifySenderProofAsAuditor(key: string, proof: Proof, auditorId: nat, amount: Option<int>): Verification {
    Judge(auditorId < |proof.info.auditors| && proof.info.auditors[auditorId] == key, proof, amount)
  }

  function Judge(opens: bool, proof: Proof, amount: Option<int>): Verification {
    if !opens then Verification(false, None, Some("not decryptable"))
    else if amount.Some? && amount.value != proof.info.amount then
      Verification(false, Some(proof.info.amount), Some("amount mismatch"))
    else Verification(true, Some(proof.info.amount), None)
  }
}

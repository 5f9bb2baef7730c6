/**
 What the zk crate uses of the risc0 zkVM: receipts, the image ids of the four
 guest programs, receipt verification and the journal codec.  The cryptography
 and the codec are not modelled; they are the fields of a `Zkvm` value that
 every check receives, so that everything proved about the checks holds for
 every verifier and every decoder.
 */
module Risc0 {
  import opened Game

  /** A 32-bit word of the seal. */
  type Word = w: int | 0 <= w < 0x1_0000_0000

  /** A receipt: the journal (the guest's public output, as bytes) and the
      seal that proves it. */
  datatype Receipt = Receipt(journal: seq<Byte>, seal: seq<Word>)

  /** The image ids `INIT_ID`, `TURN_ID`, `SCOUT_ID` and `CLUSTER_ID` of the
      four guest programs.  Their digest values are generated when the guests
      are built; here they are four distinct constants. */
  datatype MethodId = InitId | TurnId | ScoutId | ClusterId

  /** The error value carried by risc0's `Result`. */
  datatype ZkError = ZkError(message: string)

  datatype Option<+T> = None | Some(value: T)

  /** The result of `receipt.verify(&id)`. */
  datatype Status = Verified | Rejected(error: ZkError)

  /** The result of `prover.run()`. */
  datatype Proving = Proved(receipt: Receipt) | ProvingFailed(error: ZkError)

  /** The opaque services of the zkVM: `verify(r, id)` is `r.verify(&id)`,
      and each decoder is `serde::from_slice` at one commitment type, `None`
      standing for the `Err` that `unwrap` turns into a panic. */
  datatype Zkvm = Zkvm(
    verify: (Receipt, MethodId) -> Status,
    decodeShotCommit: seq<Byte> -> Option<ShotCommit>,
    decodeScoutResult: seq<Byte> -> Option<ScoutResult>,
    decodeClusterCommit: seq<Byte> -> Option<ClusterCommit>)

  /** The seal of a receipt names the one image it was produced for, so a
      receipt verifies against at most one image id.  This is the
      cryptographic guarantee the checks rely on; it is assumed, never proved. */
  ghost predicate OneImagePerReceipt(zk: Zkvm) {
    forall r: Receipt, a: MethodId, b: MethodId ::
      zk.verify(r, a).Verified? && zk.verify(r, b).Verified? ==> a == b
  }
}

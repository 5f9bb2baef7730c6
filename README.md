# Sagittarius receipt checks, modelled in Dafny

Sagittarius is a hidden-board shot game. Each player's board stays secret, and each
action comes with a risc0 zkVM receipt. The receipt proves that one of four guest
programs (init, turn, scout, cluster bomb) computed the action's public result
from the secret board. The `zk` crate checks those receipts. This project models
that checking side.

`check_init_proof` only verifies the receipt against `INIT_ID` and returns that
verdict. It decodes no journal and asserts nothing.

Each of the turn, scout and cluster checks does three things in order:

1. It verifies the receipt against the image id of its own guest program
   (`TURN_ID`, `SCOUT_ID`, `CLUSTER_ID`). A verification error is returned
   through `?`.
2. It decodes the journal into that program's commitment. An undecodable journal
   makes `unwrap` panic.
3. It asserts that the commitment's public fields are the ones the caller asked
   about. A mismatch makes `assert!` panic. Otherwise it returns fields of the
   commitment.

This third step is the anti-substitution check. Without it, a receipt that verifies
but was made for some other request would be accepted.

Files and modules:

- `game.dfy`, module `Game`: the public game values that the receipts commit to.
  `Position`, `Digest` and `HitType` are opaque equality types. Positions and
  digests are compared by the checks, and hit outcomes are only passed through.
  The module also holds the records `ShotCommit`, `ScoutResult`, `ClusterConfig` and `ClusterCommit`.
- `risc0.dfy`, module `Risc0`: receipts and the four image ids. The opaque services
  of the zkVM are bundled in `Zkvm`: `receipt.verify` and `serde::from_slice` at
  each commitment type, as total functions. Every check takes a `Zkvm`. So the
  check contracts and the universal lemmas hold for all verifiers and all
  decoders.
  `OneImagePerReceipt` states the cryptographic guarantee that a receipt verifies
  against at most one image id. Only `ReceiptServesOneProgram` assumes it.
  The three scenario lemmas (`TurnScenario`, `ClusterScenario`,
  `ClusterAcceptsUnequalLengths`) are different: each builds one chosen witness
  verifier and decoder. They only show that each outcome can be reached. They say
  nothing about which journals the guest programs can actually commit.
- `zk.dfy`, module `Zk`: the four checks and the tail of `create_cluster_proof`.
  Each returns an `Outcome`, which is one of:
  - `Ok(payload)`;
  - `Err(e)`, the error passed on by `?`;
  - `Panic(reason)`, either `JournalUndecodable` or `AssertionFailed(field)`,
    where `field` names the comparison that failed.

  The bodies follow the source line by line, with `:-` in the place of `?`,
  `unwrap` and `assert!`.
- `zk_properties.dfy`, module `ZkProperties`: lemmas that relate several calls.

The protocol intends three things that this code does not do. The model follows
the code:

- The protocol intends a typed mismatch error that names the offending field. The
  code panics on a mismatch instead. The model records the panic and the field
  its failed assertion compared.
- The protocol intends a per-game chain of state digests that advances by
  compare-and-swap. This file holds no such state. A check only compares the old
  digest the caller passes in, and it returns the new digest without storing it.
- The protocol intends a cluster commitment's `shots` and `hits` to have equal
  lengths. `check_cluster_proof` never compares them.
  `ClusterAcceptsUnequalLengths` shows that the check would accept such a
  commitment. So the equal-length invariant rests entirely on the cluster guest
  program, which is not modelled.

## Model

| member | source | states |
|---|---|---|
| `Zk.CheckInitProof` | sagittarius/zk/src/lib.rs:14-16 | Returns Ok exactly when the receipt verifies against INIT_ID. Otherwise it returns the verifier's own error. It never panics, because the journal is never decoded. |
| `Zk.CheckTurnProof` | sagittarius/zk/src/lib.rs:27-37 | Returns Err exactly when verification against TURN_ID fails, and then it returns that error. It panics on an undecodable journal of a verified receipt. Otherwise it panics on the digest assertion when the committed old digest differs from `oldState`, and on the shot assertion when only the shot differs. It returns Ok exactly when the receipt verifies and the commitment is bound to both the old digest and the shot. The payload is then exactly the committed hit and new digest. |
| `Zk.CheckScoutProof` | sagittarius/zk/src/lib.rs:47-54 | Returns Err exactly when verification against SCOUT_ID fails. It panics on an undecodable journal, and on the shot assertion when the committed shot differs. It returns Ok exactly when the committed shot is the requested one. The payload is then the committed cells, with the same length and order. No digest is checked or returned. |
| `Zk.CreateClusterProof` | sagittarius/zk/src/lib.rs:62-67 | Takes the result of `prover.run()`. A proving error is returned as that error. A receipt with an undecodable journal panics. Otherwise it returns that very receipt together with the `shots` field of the receipt's own decoded journal. |
| `Zk.CheckClusterProof` | sagittarius/zk/src/lib.rs:70-82 | Returns Err exactly when verification against CLUSTER_ID fails. It panics on an undecodable journal. The four assertions are checked in source order: old digest, upper-left corner, down-right corner, seed. The first mismatching one panics, and it is named. It returns Ok exactly when all four match. The payload is then exactly the committed shots, hits and new digest. |
| `ZkProperties.InitOutcomeIsTheVerdict` | sagittarius/zk/src/lib.rs:14-16 | Two receipts that get the same INIT_ID verdict get the same outcome, whatever their journals and decoders. The check never inspects the journal. |
| `ZkProperties.TurnOutcomeIsDeterminedByVerdictAndJournal` | sagittarius/zk/src/lib.rs:27-30 | The outcome depends only on three things: the TURN_ID verdict, the decoded journal (and only when the verdict is positive), and the arguments. So the check is stateless and repeatable, and a rejected receipt's journal is never decoded. |
| `ZkProperties.ScoutOutcomeIsDeterminedByVerdictAndJournal` | sagittarius/zk/src/lib.rs:47-50 | The same for the scout check and SCOUT_ID. |
| `ZkProperties.ClusterOutcomeIsDeterminedByVerdictAndJournal` | sagittarius/zk/src/lib.rs:70-73 | The same for the cluster check and CLUSTER_ID. |
| `ZkProperties.TurnReceiptAnswersOneRequest` | sagittarius/zk/src/lib.rs:31-36 | If one receipt is accepted for two turn requests, they have the same shot and the same old digest, and both get the same result. |
| `ZkProperties.ScoutReceiptAnswersOneRequest` | sagittarius/zk/src/lib.rs:52-53 | If one receipt is accepted for two scout requests, they scouted the same position. |
| `ZkProperties.ClusterReceiptAnswersOneRequest` | sagittarius/zk/src/lib.rs:74-81 | If one receipt is accepted for two cluster requests, they have the same corners, seed and old digest. |
| `ZkProperties.ReceiptServesOneProgram` | sagittarius/zk/src/lib.rs:15-71 | Assume a receipt verifies against at most one image id. Then a receipt that gets past the verification step of any one of the four checks gets the verification error from each of the other three. |
| `ZkProperties.CreatedShotsAreCheckedShots` | sagittarius/zk/src/lib.rs:62-81 | Checking a receipt returned by `create_cluster_proof` never panics on its journal. A successful check returns exactly the shots that creation handed back. |
| `ZkProperties.TurnScenario` | sagittarius/zk/src/lib.rs:27-36 | Under a chosen witness verifier, a verified commitment of a shot at `shot` with `hit`, on digest `d0` with new digest `d1`, is accepted for its own request with `(hit, d1)`. The same receipt is rejected by the shot assertion for every other shot, and by the digest assertion for every other old digest. Whether the turn guest can commit such a journal is outside the model. |
| `ZkProperties.ClusterScenario` | sagittarius/zk/src/lib.rs:70-81 | Under a chosen witness verifier, a verified cluster commitment is accepted for its own rectangle, seed and old digest, with the committed shots, hits and new digest as the result. The same receipt is rejected by the seed assertion for every other seed. Whether the cluster guest can commit such a journal is outside the model. |
| `ZkProperties.ClusterAcceptsUnequalLengths` | sagittarius/zk/src/lib.rs:73-81 | The check would accept a verified commitment with one shot and no hit, because it never compares the two lengths. Whether the cluster guest can commit such a journal is outside the model. |

## Left out

- Proof generation is not modelled: `create_init_proof`, `create_turn_proof`, `create_scout_proof` and the prover half of `create_cluster_proof`. That covers `Prover::new`, `serde::to_vec`, `add_input_u32_slice` and `run`, at sagittarius/zk/src/lib.rs lines 7-12, 20-25, 40-45 and 58-61. They are calls into the risc0 prover. `CreateClusterProof` instead takes the result of `prover.run()` as a parameter.
- Receipt verification and the journal codec are not modelled. They are opaque fields of `Zkvm`, so the cryptography and the serde wire format are outside the model.
- The value of each image id is not modelled, and neither are the guest ELF images. The ids are four distinct constants compared only for equality.
- `get_journal_bytes` is the receipt's `journal` field, taken as bytes. Reading the journal as 32-bit words and reinterpreting it as bytes is not modelled.
- The game rules are not modelled: the board (`GameState`), how a hit is decided, and how the cluster cells come from the rectangle and the seed. They live in the `sagittarius_game` crate and the guest programs, which are not part of this model.
- The digest chain and its serialisation are not modelled. No per-game chain of digests, compare-and-swap or concurrency exists in this crate.
- A panic is modelled as an outcome of the call. Unwinding and process abort are not modelled.

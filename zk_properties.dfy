/**
 Properties of the receipt checks that relate several calls: what an accepted
 receipt binds the caller to, what an outcome can depend on, that a receipt of
 one guest program is refused by the checks of the others, that the shots
 `create_cluster_proof` hands back are the ones `check_cluster_proof` returns,
 and scenarios showing that the binding assertions reject receipts that
 verify.
 */
module ZkProperties {
  import opened Game
  import opened Risc0
  import opened Zk

  // ----- Statelessness: what an outcome can depend on -----

  /** `check_init_proof` depends on the verdict for INIT_ID and on nothing
      else: neither the journal nor the decoders are consulted. */
  lemma InitOutcomeIsTheVerdict(zk: Zkvm, zk': Zkvm, receipt: Receipt, receipt': Receipt)
    requires zk.verify(receipt, InitId) == zk'.verify(receipt', InitId)
    ensures CheckInitProof(zk, receipt) == CheckInitProof(zk', receipt')
  {
  }

  /** `check_turn_proof` depends only on the verdict for TURN_ID, on the
      decoded journal when (and only when) that verdict is positive, and on
      its arguments.  So it keeps no state, repeating it gives the same
      outcome, and a rejected receipt's journal is never looked at. */
  lemma TurnOutcomeIsDeterminedByVerdictAndJournal(
    zk: Zkvm, zk': Zkvm, receipt: Receipt, receipt': Receipt, shot: Position, oldState: Digest)
    requires zk.verify(receipt, TurnId) == zk'.verify(receipt', TurnId)
    requires zk.verify(receipt, TurnId).Verified? ==>
      zk.decodeShotCommit(receipt.journal) == zk'.decodeShotCommit(receipt'.journal)
    ensures CheckTurnProof(zk, receipt, shot, oldState) == CheckTurnProof(zk', receipt', shot, oldState)
  {
  }

  /** The same for `check_scout_proof` and SCOUT_ID. */
  lemma ScoutOutcomeIsDeterminedByVerdictAndJournal(
    zk: Zkvm, zk': Zkvm, receipt: Receipt, receipt': Receipt, shot: Position)
    requires zk.verify(receipt, ScoutId) == zk'.verify(receipt', ScoutId)
    requires zk.verify(receipt, ScoutId).Verified? ==>
      zk.decodeScoutResult(receipt.journal) == zk'.decodeScoutResult(receipt'.journal)
    ensures CheckScoutProof(zk, receipt, shot) == CheckScoutProof(zk', receipt', shot)
  {
  }

  /** The same for `check_cluster_proof` and CLUSTER_ID. */
  lemma ClusterOutcomeIsDeterminedByVerdictAndJournal(
    zk: Zkvm, zk': Zkvm, receipt: Receipt, receipt': Receipt,
    ul: Position, dr: Position, seed: Byte, oldState: Digest)
    requires zk.verify(receipt, ClusterId) == zk'.verify(receipt', ClusterId)
    requires zk.verify(receipt, ClusterId).Verified? ==>
      zk.decodeClusterCommit(receipt.journal) == zk'.decodeClusterCommit(receipt'.journal)
    ensures CheckClusterProof(zk, receipt, ul, dr, seed, oldState)
         == CheckClusterProof(zk', receipt', ul, dr, seed, oldState)
  {
  }

  // ----- Anti-substitution: one receipt answers one request -----

  /** A turn receipt is accepted for at most one (shot, old digest) request,
      and every request that accepts it gets the same hit and new digest. */
  lemma TurnReceiptAnswersOneRequest(
    zk: Zkvm, receipt: Receipt, shot1: Position, old1: Digest, shot2: Position, old2: Digest)
    requires CheckTurnProof(zk, receipt, shot1, old1).Ok?
    requires CheckTurnProof(zk, receipt, shot2, old2).Ok?
    ensures shot1 == shot2 && old1 == old2
    ensures CheckTurnProof(zk, receipt, shot1, old1) == CheckTurnProof(zk, receipt, shot2, old2)
  {
  }

  /** A scout receipt is accepted for at most one scouted position. */
  lemma ScoutReceiptAnswersOneRequest(zk: Zkvm, receipt: Receipt, shot1: Position, shot2: Position)
    requires CheckScoutProof(zk, receipt, shot1).Ok?
    requires CheckScoutProof(zk, receipt, shot2).Ok?
    ensures shot1 == shot2
  {
  }

  /** A cluster receipt is accepted for at most one (rectangle, seed, old
      digest) request. */
  lemma ClusterReceiptAnswersOneRequest(
    zk: Zkvm, receipt: Receipt,
    ul1: Position, dr1: Position, seed1: Byte, old1: Digest,
    ul2: Position, dr2: Position, seed2: Byte, old2: Digest)
    requires CheckClusterProof(zk, receipt, ul1, dr1, seed1, old1).Ok?
    requires CheckClusterProof(zk, receipt, ul2, dr2, seed2, old2).Ok?
    ensures ul1 == ul2 && dr1 == dr2 && seed1 == seed2 && old1 == old2
  {
  }

  /** When a receipt verifies against at most one image id, a receipt that
      gets past the verification step of one check is refused with the
      verification error by each of the other three: a proof of one action
      cannot be passed off as a proof of another. */
  lemma ReceiptServesOneProgram(
    zk: Zkvm, receipt: Receipt, shot: Position, oldState: Digest, scouted: Position,
    ul: Position, dr: Position, seed: Byte, clusterState: Digest)
    requires OneImagePerReceipt(zk)
    ensures CheckInitProof(zk, receipt).Ok? ==>
      && CheckTurnProof(zk, receipt, shot, oldState).Err?
      && CheckScoutProof(zk, receipt, scouted).Err?
      && CheckClusterProof(zk, receipt, ul, dr, seed, clusterState).Err?
    ensures !CheckTurnProof(zk, receipt, shot, oldState).Err? ==>
      && CheckInitProof(zk, receipt).Err?
      && CheckScoutProof(zk, receipt, scouted).Err?
      && CheckClusterProof(zk, receipt, ul, dr, seed, clusterState).Err?
    ensures !CheckScoutProof(zk, receipt, scouted).Err? ==>
      && CheckInitProof(zk, receipt).Err?
      && CheckTurnProof(zk, receipt, shot, oldState).Err?
      && CheckClusterProof(zk, receipt, ul, dr, seed, clusterState).Err?
    ensures !CheckClusterProof(zk, receipt, ul, dr, seed, clusterState).Err? ==>
      && CheckInitProof(zk, receipt).Err?
      && CheckTurnProof(zk, receipt, shot, oldState).Err?
      && CheckScoutProof(zk, receipt, scouted).Err?
  {
  }

  // ----- create_cluster_proof and check_cluster_proof agree -----

  /** The shots `create_cluster_proof` returns are read from the journal of
      the receipt it returns; so checking that receipt never fails to decode
      its journal, and a successful check returns those same shots. */
  lemma CreatedShotsAreCheckedShots(
    zk: Zkvm, run: Proving, ul: Position, dr: Position, seed: Byte, oldState: Digest)
    requires CreateClusterProof(zk, run).Ok?
    ensures var (receipt, shots) := CreateClusterProof(zk, run).value;
      var r := CheckClusterProof(zk, receipt, ul, dr, seed, oldState);
      r != Panic(JournalUndecodable) && (r.Ok? ==> r.value.0 == shots)
  {
  }

  // ----- Scenarios: the binding assertions reject receipts that verify -----

  /** A verifier that accepts every receipt for `id` alone, and decoders that
      all read every journal as the given commitments. */
  function SingleImageZkvm(id: MethodId, shot: Option<ShotCommit>, scout: Option<ScoutResult>, cluster: Option<ClusterCommit>)
    : (zk: Zkvm)
    ensures OneImagePerReceipt(zk)
    ensures forall r: Receipt :: zk.verify(r, id).Verified?
  {
    Zkvm(
      (r: Receipt, m: MethodId) => if m == id then Verified else Rejected(ZkError("image id mismatch")),
      (j: seq<Byte>) => shot,
      (j: seq<Byte>) => scout,
      (j: seq<Byte>) => cluster)
  }

  /** A turn: on digest `d0`, the receipt of a shot at `shot` that committed
      `hit` and `d1` is accepted for exactly that request with result
      `(hit, d1)`, while the same valid receipt is rejected by the shot
      assertion for any other shot and by the digest assertion for any other
      prior digest. */
  lemma TurnScenario(d0: Digest, d1: Digest, shot: Position, hit: HitType)
    ensures exists zk: Zkvm, receipt: Receipt ::
      && OneImagePerReceipt(zk)
      && CheckTurnProof(zk, receipt, shot, d0) == Ok((hit, d1))
      && (forall other: Position :: other != shot ==>
            CheckTurnProof(zk, receipt, other, d0) == Panic(AssertionFailed(Shot)))
      && (forall stale: Digest :: stale != d0 ==>
            CheckTurnProof(zk, receipt, shot, stale) == Panic(AssertionFailed(OldStateDigest)))
  {
    var zk := SingleImageZkvm(TurnId, Some(ShotCommit(d0, d1, shot, hit)), None, None);
    var receipt := Receipt([], []);
    assert CheckTurnProof(zk, receipt, shot, d0) == Ok((hit, d1));
    forall other: Position | other != shot
      ensures CheckTurnProof(zk, receipt, other, d0) == Panic(AssertionFailed(Shot))
    {
    }
    forall stale: Digest | stale != d0
      ensures CheckTurnProof(zk, receipt, shot, stale) == Panic(AssertionFailed(OldStateDigest))
    {
    }
  }

  /** A cluster bomb fired at the rectangle `ul`..`dr` with `seed` on digest
      `d0`: its receipt is accepted for exactly that request and returns the
      committed shots, hits and new digest, while the same valid receipt is
      rejected by the seed assertion for any other seed. */
  lemma ClusterScenario(
    ul: Position, dr: Position, seed: Byte, d0: Digest, d1: Digest, shots: seq<Position>, hits: seq<HitType>)
    ensures exists zk: Zkvm, receipt: Receipt ::
      && OneImagePerReceipt(zk)
      && CheckClusterProof(zk, receipt, ul, dr, seed, d0) == Ok((shots, hits, d1))
      && (forall other: Byte :: other != seed ==>
            CheckClusterProof(zk, receipt, ul, dr, other, d0) == Panic(AssertionFailed(Seed)))
  {
    var c := ClusterCommit(d0, d1, ClusterConfig(ul, dr, seed), shots, hits);
    var zk := SingleImageZkvm(ClusterId, None, None, Some(c));
    var receipt := Receipt([], []);
    assert CheckClusterProof(zk, receipt, ul, dr, seed, d0) == Ok((shots, hits, d1));
    forall other: Byte | other != seed
      ensures CheckClusterProof(zk, receipt, ul, dr, other, d0) == Panic(AssertionFailed(Seed))
    {
    }
  }

  /** `check_cluster_proof` does not compare the lengths of the shots and
      hits it returns: a valid receipt whose commitment lists one shot and no
      hit is accepted. */
  lemma ClusterAcceptsUnequalLengths(ul: Position, dr: Position, seed: Byte, d0: Digest, d1: Digest)
    ensures exists zk: Zkvm, receipt: Receipt ::
      && OneImagePerReceipt(zk)
      && CheckClusterProof(zk, receipt, ul, dr, seed, d0).Ok?
      && |CheckClusterProof(zk, receipt, ul, dr, seed, d0).value.0|
         != |CheckClusterProof(zk, receipt, ul, dr, seed, d0).value.1|
  {
    var c := ClusterCommit(d0, d1, ClusterConfig(ul, dr, seed), [ul], []);
    var zk := SingleImageZkvm(ClusterId, None, None, Some(c));
    var receipt := Receipt([], []);
    assert CheckClusterProof(zk, receipt, ul, dr, seed, d0) == Ok(([ul], [], d1));
  }
}

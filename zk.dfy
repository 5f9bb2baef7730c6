/**
 The receipt checks of the sagittarius zk crate.  `check_init_proof` only
 verifies the receipt against the image id of the init program.  Each of the
 turn, scout and cluster checks first verifies the receipt against the image id
 of its own guest program, then decodes the journal into that program's
 commitment and asserts that the commitment's public fields are the ones the
 caller asked about.  The outcome is one of three: the verification error
 (through `?`), a panic (an `unwrap` on an undecodable journal or a failed
 `assert!`), or the payload taken from the commitment.
 */
module Zk {
  import opened Game
  import opened Risc0

  /** The public field that a failed `assert!` compared. */
  datatype Field = OldStateDigest | Shot | UpperLeft | DownRight | Seed

  /** Why a check panicked instead of returning. */
  datatype PanicReason =
    | JournalUndecodable          // `serde::from_slice(..).unwrap()` on an `Err`
    | AssertionFailed(field: Field)

  /** How a call ends: it returns `Ok`, it returns `Err`, or it panics. */
  datatype Outcome<+T> = Ok(value: T) | Err(error: ZkError) | Panic(reason: PanicReason)
  {
    predicate IsFailure() { !Ok? }

    function PropagateFailure<U>(): Outcome<U>
      requires IsFailure()
    {
      if Err? then Err(error) else Panic(reason)
    }

    function Extract(): T
      requires Ok?
    {
      value
    }
  }

  /** `receipt.verify(&id)?` */
  function Verify(zk: Zkvm, receipt: Receipt, id: MethodId): Outcome<()> {
    match zk.verify(receipt, id)
    case Verified => Ok(())
    case Rejected(e) => Err(e)
  }

  /** `.unwrap()` on the result of decoding a journal. */
  function Unwrap<T>(decoded: Option<T>): Outcome<T> {
    match decoded
    case Some(v) => Ok(v)
    case None => Panic(JournalUndecodable)
  }

  /** `assert!(holds)` on the comparison of `field`. */
  function Assert(holds: bool, field: Field): Outcome<()> {
    if holds then Ok(()) else Panic(AssertionFailed(field))
  }

  /** A turn commitment answers the request for `shot` on the state `oldState`. */
  predicate TurnBound(c: ShotCommit, shot: Position, oldState: Digest) {
    c.oldStateDigest == oldState && c.shot == shot
  }

  /** A scout result answers the request to scout `shot`. */
  predicate ScoutBound(c: ScoutResult, shot: Position) {
    c.shot == shot
  }

  /** A cluster commitment answers the request for the rectangle `ul`..`dr`
      with `seed` on the state `oldState`. */
  predicate ClusterBound(c: ClusterCommit, ul: Position, dr: Position, seed: Byte, oldState: Digest) {
    && c.oldStateDigest == oldState
    && c.config.upperLeftCoordinates == ul
    && c.config.downRightCoordinates == dr
    && c.config.seed == seed
  }

  /** `check_init_proof`: the receipt is accepted exactly when it verifies
      against INIT_ID; the journal is never decoded, so it never panics. */
  function CheckInitProof(zk: Zkvm, receipt: Receipt): (r: Outcome<()>)
    ensures r.Ok? <==> zk.verify(receipt, InitId).Verified?
    ensures r.Err? ==> r.error == zk.verify(receipt, InitId).error
    ensures !r.Panic?
  {
    Verify(zk, receipt, InitId)
  }

  /** `check_turn_proof`: accepted exactly when the receipt verifies against
      TURN_ID and its commitment is for `oldState` and `shot`; the result is
      then the committed hit and new state digest. */
  function CheckTurnProof(zk: Zkvm, receipt: Receipt, shot: Position, oldState: Digest)
    : (r: Outcome<(HitType, Digest)>)
    ensures r.Err? <==> zk.verify(receipt, TurnId).Rejected?
    ensures r.Err? ==> r.error == zk.verify(receipt, TurnId).error
    ensures var d := zk.decodeShotCommit(receipt.journal);
      r.Ok? <==> zk.verify(receipt, TurnId).Verified? && d.Some? && TurnBound(d.value, shot, oldState)
    ensures var d := zk.decodeShotCommit(receipt.journal);
      r.Ok? ==> r.value == (d.value.hit, d.value.newStateDigest)
    ensures r == Panic(JournalUndecodable) <==>
      zk.verify(receipt, TurnId).Verified? && zk.decodeShotCommit(receipt.journal).None?
    // the two assertions are checked in order: the digest first, then the shot
    ensures var d := zk.decodeShotCommit(receipt.journal);
      r == Panic(AssertionFailed(OldStateDigest)) <==>
        zk.verify(receipt, TurnId).Verified? && d.Some? && d.value.oldStateDigest != oldState
    ensures var d := zk.decodeShotCommit(receipt.journal);
      r == Panic(AssertionFailed(Shot)) <==>
        zk.verify(receipt, TurnId).Verified? && d.Some? && d.value.oldStateDigest == oldState && d.value.shot != shot
  {
    var _ :- Verify(zk, receipt, TurnId);
    var commit :- Unwrap(zk.decodeShotCommit(receipt.journal));
    var _ :- Assert(oldState == commit.oldStateDigest, OldStateDigest);
    var _ :- Assert(commit.shot == shot, Shot);
    Ok((commit.hit, commit.newStateDigest))
  }

  /** `check_scout_proof`: accepted exactly when the receipt verifies against
      SCOUT_ID and its result is for `shot`; the result is then the committed
      cells, same length and same order.  No digest is involved. */
  function CheckScoutProof(zk: Zkvm, receipt: Receipt, shot: Position): (r: Outcome<seq<HitType>>)
    ensures r.Err? <==> zk.verify(receipt, ScoutId).Rejected?
    ensures r.Err? ==> r.error == zk.verify(receipt, ScoutId).error
    ensures var d := zk.decodeScoutResult(receipt.journal);
      r.Ok? <==> zk.verify(receipt, ScoutId).Verified? && d.Some? && ScoutBound(d.value, shot)
    ensures var d := zk.decodeScoutResult(receipt.journal);
      r.Ok? ==> r.value == d.value.cells
    ensures r == Panic(JournalUndecodable) <==>
      zk.verify(receipt, ScoutId).Verified? && zk.decodeScoutResult(receipt.journal).None?
    ensures var d := zk.decodeScoutResult(receipt.journal);
      r == Panic(AssertionFailed(Shot)) <==>
        zk.verify(receipt, ScoutId).Verified? && d.Some? && d.value.shot != shot
  {
    var _ :- Verify(zk, receipt, ScoutId);
    var results :- Unwrap(zk.decodeScoutResult(receipt.journal));
    var _ :- Assert(results.shot == shot, Shot);
    Ok(results.cells)
  }

  /** The tail of `create_cluster_proof`, given what `prover.run()` produced:
      a proving error is passed through; otherwise the journal is decoded and
      the receipt is returned with the cells the commitment says were hit. */
  function CreateClusterProof(zk: Zkvm, run: Proving): (r: Outcome<(Receipt, seq<Position>)>)
    ensures r.Err? <==> run.ProvingFailed?
    ensures r.Err? ==> r.error == run.error
    ensures r.Panic? <==> run.Proved? && zk.decodeClusterCommit(run.receipt.journal).None?
    ensures r.Panic? ==> r.reason == JournalUndecodable
    ensures r.Ok? ==> r.value.0 == run.receipt
    ensures r.Ok? ==> r.value.1 == zk.decodeClusterCommit(r.value.0.journal).value.shots
  {
    var receipt :- match run
      case Proved(receipt) => Ok(receipt)
      case ProvingFailed(e) => Err(e);
    var commit :- Unwrap(zk.decodeClusterCommit(receipt.journal));
    Ok((receipt, commit.shots))
  }

  /** `check_cluster_proof`: accepted exactly when the receipt verifies
      against CLUSTER_ID and its commitment is for `oldState`, `ul`, `dr` and
      `seed`; the result is then the committed shots, hits and new state
      digest.  The lengths of shots and hits are not compared. */
  function CheckClusterProof(zk: Zkvm, receipt: Receipt, ul: Position, dr: Position, seed: Byte, oldState: Digest)
    : (r: Outcome<(seq<Position>, seq<HitType>, Digest)>)
    ensures r.Err? <==> zk.verify(receipt, ClusterId).Rejected?
    ensures r.Err? ==> r.error == zk.verify(receipt, ClusterId).error
    ensures var d := zk.decodeClusterCommit(receipt.journal);
      r.Ok? <==> zk.verify(receipt, ClusterId).Verified? && d.Some? && ClusterBound(d.value, ul, dr, seed, oldState)
    ensures var d := zk.decodeClusterCommit(receipt.journal);
      r.Ok? ==> r.value == (d.value.shots, d.value.hits, d.value.newStateDigest)
    ensures r == Panic(JournalUndecodable) <==>
      zk.verify(receipt, ClusterId).Verified? && zk.decodeClusterCommit(receipt.journal).None?
    // the four assertions are checked in order: digest, upper left, down right, seed
    ensures var d := zk.decodeClusterCommit(receipt.journal);
      r == Panic(AssertionFailed(OldStateDigest)) <==>
        zk.verify(receipt, ClusterId).Verified? && d.Some? && d.value.oldStateDigest != oldState
    ensures var d := zk.decodeClusterCommit(receipt.journal);
      r == Panic(AssertionFailed(UpperLeft)) <==>
        zk.verify(receipt, ClusterId).Verified? && d.Some? && d.value.oldStateDigest == oldState
        && d.value.config.upperLeftCoordinates != ul
    ensures var d := zk.decodeClusterCommit(receipt.journal);
      r == Panic(AssertionFailed(DownRight)) <==>
        zk.verify(receipt, ClusterId).Verified? && d.Some? && d.value.oldStateDigest == oldState
        && d.value.config.upperLeftCoordinates == ul && d.value.config.downRightCoordinates != dr
    ensures var d := zk.decodeClusterCommit(receipt.journal);
      r == Panic(AssertionFailed(Seed)) <==>
        zk.verify(receipt, ClusterId).Verified? && d.Some? && d.value.oldStateDigest == oldState
        && d.value.config.upperLeftCoordinates == ul && d.value.config.downRightCoordinates == dr
        && d.value.config.seed != seed
  {
    var _ :- Verify(zk, receipt, ClusterId);
    var commit :- Unwrap(zk.decodeClusterCommit(receipt.journal));
    var _ :- Assert(oldState == commit.oldStateDigest, OldStateDigest);
    var _ :- Assert(commit.config.upperLeftCoordinates == ul, UpperLeft);
    var _ :- Assert(commit.config.downRightCoordinates == dr, DownRight);
    var _ :- Assert(commit.config.seed == seed, Seed);
    Ok((commit.shots, commit.hits, commit.newStateDigest))
  }
}

/**
 The public values of the game that the receipts commit to: the types of
 sagittarius_game's `types` module (positions, state digests, hit outcomes) and
 the commitment records of its `abilities` module.  The board itself
 (`GameState`) and the private parameters of each ability only ever reach the
 guest programs and are not part of this model.
 */
module Game {

  /** Rust's `u8`: the cluster bomb's seed and the bytes of a journal. */
  type Byte = b: int | 0 <= b < 0x100

  /** A board coordinate; only ever compared for equality here. */
  type Position(==)

  /** A digest committing to a whole (secret) board state; compared for equality only. */
  type Digest(==)

  /** The outcome for one cell (a miss, a hit, ...); the checks pass it through
      without comparing it. */
  type HitType(==)

  /** Public result of a single shot: the state digests before and after it,
      the cell that was shot at and what the shot hit. */
  datatype ShotCommit = ShotCommit(
    oldStateDigest: Digest,
    newStateDigest: Digest,
    shot: Position,
    hit: HitType)

  /** Public result of scouting around a cell: the scouted position and the
      outcomes of the cells it reveals, in order. */
  datatype ScoutResult = ScoutResult(shot: Position, cells: seq<HitType>)

  /** The rectangle and seed that choose the cells a cluster bomb hits. */
  datatype ClusterConfig = ClusterConfig(
    upperLeftCoordinates: Position,
    downRightCoordinates: Position,
    seed: Byte)

  /** Public result of a cluster bomb: the state digests before and after it,
      the configuration it was fired with, the cells it hit and what it hit
      there. */
  datatype ClusterCommit = ClusterCommit(
    oldStateDigest: Digest,
    newStateDigest: Digest,
    config: ClusterConfig,
    shots: seq<Position>,
    hits: seq<HitType>)
}

/**
 * The values the bisection-game solver works with: positions in the game tree,
 * claims, the trace provider it consults, and the errors it returns.
 *
 * The position arithmetic (depth, root test, attack and defend children, the
 * trace index a position stands for) is not re-derived here: `Position` is an
 * abstract type and those operations are the fields of a `Geometry` value, so
 * everything proved about the solver holds for every convention.
 */
module FaultTypes {
  import opened Wrappers
  import opened Primitives

  /** A node of the fixed-depth bisection tree. */
  type Position(==)

  /** The operations on positions the solver relies on. */
  datatype Geometry = Geometry(
    depth: Position -> int,
    isRoot: Position -> bool,
    attack: Position -> Position,
    defend: Position -> Position,
    traceIndex: (Position, int) -> nat)

  /** "The execution state at `position`'s trace index is `value`." */
  datatype ClaimData = ClaimData(value: Hash, position: Position)

  /** A claim of the on-chain game together with the claim it responds to. */
  datatype Claim = Claim(
    data: ClaimData,
    parent: Option<ClaimData>,
    parentContractIndex: int,
    contractIndex: int)

  /** The two moves whose lookup failures the solver tags. */
  datatype Branch = AttackClaim | DefendClaim

  /**
   * Errors, with the wrapping of `fmt.Errorf("...: %w", err)` kept as structure:
   * `Wrapped` carries the branch tag and the underlying cause.
   */
  datatype Error =
    | GameDepthReached
    | StepNonLeafNode
    | StepAgreedClaim
    | Upstream(code: nat)
    | Wrapped(branch: Branch, cause: Error)

  /** Go's `errors.Is(e, target)`: `target` is `e` or one of the causes it wraps. */
  predicate Is(e: Error, target: Error)
  {
    e == target || (e.Wrapped? && Is(e.cause, target))
  }

  /** A pre-state together with the proof for one step. */
  datatype Preimage = Preimage(preState: Bytes, proof: Bytes)

  /** A preimage-oracle key together with its data, as `types.NewPreimageOracleData(key, data)` builds it. */
  datatype PreimageOracleData = PreimageOracleData(oracleKey: Bytes, oracleData: Bytes)

  /**
   * The trace provider capability: every query is addressed by trace index and
   * answers a value or an error; the absolute pre-state cannot fail.
   */
  datatype TraceProvider = TraceProvider(
    get: nat -> Result<Hash, Error>,
    absolutePreState: Bytes,
    getPreimage: nat -> Result<Preimage, Error>,
    getOracleData: nat -> Result<PreimageOracleData, Error>)

  /** The inputs for the on-chain single-step verifier. */
  datatype StepData = StepData(leafClaim: Claim, isAttack: bool, preState: Bytes, proofData: Bytes)

  /** Wrapping keeps the cause's identity, and every error it already matched. */
  lemma {:induction false} WrappedIsCause(b: Branch, e: Error, target: Error)
    requires Is(e, target)
    ensures Is(Wrapped(b, e), target)
    ensures Is(Wrapped(b, e), e)
  {
  }

  /** The innermost error a chain of wrappings carries. */
  function Cause(e: Error): (c: Error)
    ensures !c.Wrapped?
  {
    if e.Wrapped? then Cause(e.cause) else e
  }

  /** However deeply an error is wrapped, it still matches the error it started as. */
  lemma {:induction false} IsCause(e: Error)
    ensures Is(e, Cause(e))
  {
    if e.Wrapped? {
      IsCause(e.cause);
    }
  }
}

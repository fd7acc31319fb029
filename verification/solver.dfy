/**
 * The bisection-game move solver: given a claim and a trace provider it decides
 * whether to attack, defend or make no move, and at a leaf it chooses the
 * pre-state and proof to hand the on-chain single-step verifier.
 *
 * Every operation is a function of the solver's fixed trace provider, game depth
 * and position geometry; nothing is updated after the solver is built.
 */
module FaultSolver {
  import opened Wrappers
  import opened Primitives
  import opened FaultTypes

  /** `Solver{trace, gameDepth}`, together with the position arithmetic it uses. */
  datatype Solver = Solver(trace: TraceProvider, gameDepth: int, geometry: Geometry)

  /** `claim.Depth()` */
  function Depth(s: Solver, claim: Claim): (d: int)
  {
    s.geometry.depth(claim.data.position)
  }

  /** `claim.TraceIndex(s.gameDepth)` */
  function ClaimIndex(s: Solver, claim: Claim): (i: nat)
  {
    s.geometry.traceIndex(claim.data.position, s.gameDepth)
  }

  /** `traceAtPosition`: our trace value at the trace index of `p`. */
  function TraceAtPosition(s: Solver, p: Position): (r: Result<Hash, Error>)
  {
    s.trace.get(s.geometry.traceIndex(p, s.gameDepth))
  }

  /** Whether our trace agrees with `c`: its value is the one we compute at its position. */
  function AgreeWithClaim(s: Solver, c: ClaimData): (r: Result<bool, Error>)
    ensures r.Success? <==> s.trace.get(s.geometry.traceIndex(c.position, s.gameDepth)).Success?
    ensures r.Success? ==> (r.value <==> s.trace.get(s.geometry.traceIndex(c.position, s.gameDepth)).value == c.value)
    ensures r.Failure? ==> r.error == s.trace.get(s.geometry.traceIndex(c.position, s.gameDepth)).error
  {
    match TraceAtPosition(s, c.position)
    case Failure(e) => Failure(e)
    case Success(ours) => Success(ours == c.value)
  }

  /**
   * `move` is a correct response to `claim` placed at `p`: it carries our trace
   * value at `p` and points back at `claim`. A fresh move is not yet on chain, so
   * its own contract index is Go's zero value.
   */
  ghost predicate RespondsAt(s: Solver, claim: Claim, p: Position, move: Claim)
  {
    && move.data.position == p
    && TraceAtPosition(s, p).Success?
    && move.data.value == TraceAtPosition(s, p).value
    && move.parent == Some(claim.data)
    && move.parentContractIndex == claim.contractIndex
    && move.contractIndex == 0
  }

  /** The response built by `attack` and `defend` once the child's value is known. */
  function Response(claim: Claim, p: Position, value: Hash): (move: Claim)
  {
    Claim(ClaimData(value, p), Some(claim.data), claim.contractIndex, 0)
  }

  /** `attack`: respond at the attack child; a failed lookup is tagged "attack claim". */
  function Attack(s: Solver, claim: Claim): (r: Result<Claim, Error>)
    ensures r.Success? ==> RespondsAt(s, claim, s.geometry.attack(claim.data.position), r.value)
    ensures r.Success? <==> TraceAtPosition(s, s.geometry.attack(claim.data.position)).Success?
    ensures r.Failure? ==> r.error == Wrapped(AttackClaim, TraceAtPosition(s, s.geometry.attack(claim.data.position)).error)
  {
    var position := s.geometry.attack(claim.data.position);
    match TraceAtPosition(s, position)
    case Failure(e) => Failure(Wrapped(AttackClaim, e))
    case Success(value) => Success(Response(claim, position, value))
  }

  /** `defend`: no move at the root, else respond at the defend child; a failed lookup is tagged "defend claim". */
  function Defend(s: Solver, claim: Claim): (r: Result<Option<Claim>, Error>)
    ensures s.geometry.isRoot(claim.data.position) ==> r == Success(None)
    ensures r.Success? && r.value.Some? ==> RespondsAt(s, claim, s.geometry.defend(claim.data.position), r.value.value)
    ensures !s.geometry.isRoot(claim.data.position) ==>
      (r.Success? <==> TraceAtPosition(s, s.geometry.defend(claim.data.position)).Success?) && (r.Success? ==> r.value.Some?)
    ensures r.Failure? ==> r.error == Wrapped(DefendClaim, TraceAtPosition(s, s.geometry.defend(claim.data.position)).error)
  {
    if s.geometry.isRoot(claim.data.position) then
      Success(None)
    else
      var position := s.geometry.defend(claim.data.position);
      match TraceAtPosition(s, position)
      case Failure(e) => Failure(Wrapped(DefendClaim, e))
      case Success(value) => Success(Some(Response(claim, position, value)))
  }

  /**
   * `NextMove`: no move when we agree with the claim's whole level; an error at
   * the maximum depth; otherwise attack a claim we disagree with and defend one
   * we agree with.
   */
  function NextMove(s: Solver, claim: Claim, agreeWithClaimLevel: bool): (r: Result<Option<Claim>, Error>)
    ensures agreeWithClaimLevel ==> r == Success(None)
    ensures !agreeWithClaimLevel && Depth(s, claim) == s.gameDepth ==> r == Failure(GameDepthReached)
    ensures r.Success? && r.value.Some? ==>
      && !agreeWithClaimLevel
      && Depth(s, claim) != s.gameDepth
      && AgreeWithClaim(s, claim.data).Success?
      && var p := if AgreeWithClaim(s, claim.data).value
                  then s.geometry.defend(claim.data.position)
                  else s.geometry.attack(claim.data.position);
         RespondsAt(s, claim, p, r.value.value)
    ensures r == Success(None) ==>
      agreeWithClaimLevel || (AgreeWithClaim(s, claim.data) == Success(true) && s.geometry.isRoot(claim.data.position))
  {
    if agreeWithClaimLevel then
      Success(None)
    else if Depth(s, claim) == s.gameDepth then
      Failure(GameDepthReached)
    else
      match AgreeWithClaim(s, claim.data)
      case Failure(e) => Failure(e)
      case Success(agree) =>
        if agree then
          Defend(s, claim)
        else
          match Attack(s, claim)
          case Failure(e) => Failure(e)
          case Success(move) => Success(Some(move))
  }

  /** `OracleData`: the oracle key and data at exactly the claim's trace index. */
  function OracleData(s: Solver, claim: Claim): (r: Result<PreimageOracleData, Error>)
    ensures r.Success? <==> s.trace.getOracleData(ClaimIndex(s, claim)).Success?
    ensures r.Failure? ==> r.error == s.trace.getOracleData(ClaimIndex(s, claim)).error
    ensures r.Success? ==>
      var kd := s.trace.getOracleData(ClaimIndex(s, claim)).value;
      r.value.oracleKey == kd.oracleKey && r.value.oracleData == kd.oracleData
  {
    match s.trace.getOracleData(ClaimIndex(s, claim))
    case Failure(e) => Failure(e)
    case Success(kd) => Success(PreimageOracleData(kd.oracleKey, kd.oracleData))
  }

  /**
   * The trace index whose preimage a step on a leaf claim needs: the step into
   * the claimed state when we attack (one before), the claimed step itself when
   * we agree. `None` when attacking index 0, where the absolute pre-state is used.
   */
  function StepIndex(index: nat, claimCorrect: bool): (r: Option<nat>)
    ensures r == None <==> index == 0 && !claimCorrect
    ensures r.Some? ==> r.value + (if claimCorrect then 0 else 1) == index
  {
    if index == 0 && !claimCorrect then None
    else if !claimCorrect then Some(index - 1)
    else Some(index)
  }

  /**
   * `AttemptStep`: only leaf claims we do not agree with at the level may be
   * stepped on; the step data carries the claim, whether it is an attack, and the
   * pre-state and proof at the index `StepIndex` chooses.
   */
  function AttemptStep(s: Solver, claim: Claim, agreeWithClaimLevel: bool): (r: Result<StepData, Error>)
    ensures Depth(s, claim) != s.gameDepth ==> r == Failure(StepNonLeafNode)
    ensures Depth(s, claim) == s.gameDepth && agreeWithClaimLevel ==> r == Failure(StepAgreedClaim)
    ensures r.Success? ==>
      && Depth(s, claim) == s.gameDepth
      && !agreeWithClaimLevel
      && AgreeWithClaim(s, claim.data).Success?
      && r.value.leafClaim == claim
      && r.value.isAttack == !AgreeWithClaim(s, claim.data).value
    ensures Depth(s, claim) == s.gameDepth && !agreeWithClaimLevel && AgreeWithClaim(s, claim.data).Failure? ==>
      r == Failure(AgreeWithClaim(s, claim.data).error)
    ensures r.Success? ==>
      match StepIndex(ClaimIndex(s, claim), !r.value.isAttack)
      case None => r.value.preState == s.trace.absolutePreState && r.value.proofData == []
      case Some(i) =>
        && s.trace.getPreimage(i).Success?
        && r.value.preState == s.trace.getPreimage(i).value.preState
        && r.value.proofData == s.trace.getPreimage(i).value.proof
  {
    if Depth(s, claim) != s.gameDepth then
      Failure(StepNonLeafNode)
    else if agreeWithClaimLevel then
      Failure(StepAgreedClaim)
    else
      match AgreeWithClaim(s, claim.data)
      case Failure(e) => Failure(e)
      case Success(claimCorrect) =>
        var index := ClaimIndex(s, claim);
        if index == 0 && !claimCorrect then
          Success(StepData(claim, true, s.trace.absolutePreState, []))
        else
          var i := if !claimCorrect then index - 1 else index;
          match s.trace.getPreimage(i)
          case Failure(e) => Failure(e)
          case Success(p) => Success(StepData(claim, !claimCorrect, p.preState, p.proof))
  }
}

/**
 * What the solver promises its driver, one case at a time, for every trace
 * provider and every position geometry.
 */
module SolverProperties {
  import opened Wrappers
  import opened FaultTypes
  import opened FaultSolver

  /** Our trace has a value at `claim`'s position and it differs from the claimed one. */
  ghost predicate Disagrees(s: Solver, claim: Claim)
  {
    TraceAtPosition(s, claim.data.position).Success? && TraceAtPosition(s, claim.data.position).value != claim.data.value
  }

  /** Our trace has a value at `claim`'s position and it is the claimed one. */
  ghost predicate Agrees(s: Solver, claim: Claim)
  {
    TraceAtPosition(s, claim.data.position) == Success(claim.data.value)
  }

  /** At the maximum depth `NextMove` fails before consulting the trace: any provider gives the same answer. */
  lemma DepthReachedNeedsNoLookup(s: Solver, other: TraceProvider, claim: Claim)
    requires Depth(s, claim) == s.gameDepth
    ensures NextMove(s, claim, false) == Failure(GameDepthReached)
    ensures NextMove(s.(trace := other), claim, false) == NextMove(s, claim, false)
  {
  }

  /** Agreeing with the whole level means no move, whatever the depth or the provider. */
  lemma AgreedLevelNeedsNoLookup(s: Solver, other: TraceProvider, claim: Claim)
    ensures NextMove(s, claim, true) == Success(None)
    ensures NextMove(s.(trace := other), claim, true) == NextMove(s, claim, true)
  {
  }

  /** A claim we disagree with is attacked, with our value at the attack child. */
  lemma DisagreeAttacks(s: Solver, claim: Claim)
    requires Depth(s, claim) != s.gameDepth
    requires Disagrees(s, claim)
    requires TraceAtPosition(s, s.geometry.attack(claim.data.position)).Success?
    ensures var p := s.geometry.attack(claim.data.position);
      NextMove(s, claim, false) ==
        Success(Some(Claim(ClaimData(TraceAtPosition(s, p).value, p), Some(claim.data), claim.contractIndex, 0)))
  {
  }

  /** A non-root claim we agree with is defended, with our value at the defend child. */
  lemma AgreeDefends(s: Solver, claim: Claim)
    requires Depth(s, claim) != s.gameDepth
    requires Agrees(s, claim)
    requires !s.geometry.isRoot(claim.data.position)
    requires TraceAtPosition(s, s.geometry.defend(claim.data.position)).Success?
    ensures var p := s.geometry.defend(claim.data.position);
      NextMove(s, claim, false) ==
        Success(Some(Claim(ClaimData(TraceAtPosition(s, p).value, p), Some(claim.data), claim.contractIndex, 0)))
  {
  }

  /** There is nothing to defend against at the root. */
  lemma AgreedRootNoMove(s: Solver, claim: Claim)
    requires Depth(s, claim) != s.gameDepth
    requires Agrees(s, claim)
    requires s.geometry.isRoot(claim.data.position)
    ensures NextMove(s, claim, false) == Success(None)
  {
  }

  /** A failed agreement lookup is returned as it is. */
  lemma AgreementErrorUnchanged(s: Solver, claim: Claim, e: Error)
    requires Depth(s, claim) != s.gameDepth
    requires TraceAtPosition(s, claim.data.position) == Failure(e)
    ensures NextMove(s, claim, false) == Failure(e)
  {
  }

  /** A failed lookup at the attack child is tagged "attack claim" and still matches its cause. */
  lemma AttackErrorWrapped(s: Solver, claim: Claim, e: Error)
    requires Depth(s, claim) != s.gameDepth
    requires Disagrees(s, claim)
    requires TraceAtPosition(s, s.geometry.attack(claim.data.position)) == Failure(e)
    ensures NextMove(s, claim, false) == Failure(Wrapped(AttackClaim, e))
    ensures Is(NextMove(s, claim, false).error, e)
  {
  }

  /** A failed lookup at the defend child is tagged "defend claim" and still matches its cause. */
  lemma DefendErrorWrapped(s: Solver, claim: Claim, e: Error)
    requires Depth(s, claim) != s.gameDepth
    requires Agrees(s, claim)
    requires !s.geometry.isRoot(claim.data.position)
    requires TraceAtPosition(s, s.geometry.defend(claim.data.position)) == Failure(e)
    ensures NextMove(s, claim, false) == Failure(Wrapped(DefendClaim, e))
    ensures Is(NextMove(s, claim, false).error, e)
  {
  }

  /** A step is refused on a non-leaf claim before the agree flag is looked at. */
  lemma NonLeafStepRefused(s: Solver, claim: Claim, agreeWithClaimLevel: bool)
    requires Depth(s, claim) != s.gameDepth
    ensures AttemptStep(s, claim, agreeWithClaimLevel) == Failure(StepNonLeafNode)
  {
  }

  /**
   * Attacking the leaf at trace index 0 uses the absolute pre-state and an empty
   * proof, and never asks for a preimage: any preimage source gives the same step.
   */
  lemma StepAtIndexZero(s: Solver, claim: Claim, preimages: nat -> Result<Preimage, Error>)
    requires Depth(s, claim) == s.gameDepth
    requires Disagrees(s, claim)
    requires ClaimIndex(s, claim) == 0
    ensures AttemptStep(s, claim, false) == Success(StepData(claim, true, s.trace.absolutePreState, []))
    ensures AttemptStep(s.(trace := s.trace.(getPreimage := preimages)), claim, false) == AttemptStep(s, claim, false)
  {
  }

  /** Attacking the leaf at trace index k > 0 proves the step into k, from the preimage at k - 1. */
  lemma AttackStepUsesPriorIndex(s: Solver, claim: Claim, k: nat)
    requires Depth(s, claim) == s.gameDepth
    requires Disagrees(s, claim)
    requires ClaimIndex(s, claim) == k && k > 0
    ensures s.trace.getPreimage(k - 1).Success? ==>
      var p := s.trace.getPreimage(k - 1).value;
      AttemptStep(s, claim, false) == Success(StepData(claim, true, p.preState, p.proof))
    ensures s.trace.getPreimage(k - 1).Failure? ==>
      AttemptStep(s, claim, false) == Failure(s.trace.getPreimage(k - 1).error)
  {
  }

  /** Stepping on a leaf we agree with proves the claimed step itself, from the preimage at k. */
  lemma DefendStepUsesSameIndex(s: Solver, claim: Claim, k: nat)
    requires Depth(s, claim) == s.gameDepth
    requires Agrees(s, claim)
    requires ClaimIndex(s, claim) == k
    ensures s.trace.getPreimage(k).Success? ==>
      var p := s.trace.getPreimage(k).value;
      AttemptStep(s, claim, false) == Success(StepData(claim, false, p.preState, p.proof))
    ensures s.trace.getPreimage(k).Failure? ==>
      AttemptStep(s, claim, false) == Failure(s.trace.getPreimage(k).error)
  {
  }

  /** A failed agreement lookup at a leaf is returned by the step as it is. */
  lemma StepAgreementErrorUnchanged(s: Solver, claim: Claim, e: Error)
    requires Depth(s, claim) == s.gameDepth
    requires TraceAtPosition(s, claim.data.position) == Failure(e)
    ensures AttemptStep(s, claim, false) == Failure(e)
  {
  }

  /**
   * A step asks for a preimage at no index but the one `StepIndex` names, and
   * asks for none when attacking index 0: any preimage source that agrees with
   * the provider there gives the same step, so the index never goes below 0.
   */
  lemma StepFetchesOnlyAtStepIndex(s: Solver, claim: Claim, agreeWithClaimLevel: bool,
                                   preimages: nat -> Result<Preimage, Error>)
    requires AgreeWithClaim(s, claim.data).Success? ==>
      var i := StepIndex(ClaimIndex(s, claim), AgreeWithClaim(s, claim.data).value);
      i.Some? ==> preimages(i.value) == s.trace.getPreimage(i.value)
    ensures AttemptStep(s.(trace := s.trace.(getPreimage := preimages)), claim, agreeWithClaimLevel)
         == AttemptStep(s, claim, agreeWithClaimLevel)
  {
  }
}

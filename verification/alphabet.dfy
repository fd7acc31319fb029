/**
 * The test trace provider that decorates an alphabet provider: its proofs are
 * the single byte of the index they were fetched for, and its oracle lookups
 * can be made to fail with a chosen error. The inner alphabet provider is any
 * trace provider here.
 */
module AlphabetWithProof {
  import opened Wrappers
  import opened Primitives
  import opened FaultTypes
  import opened FaultSolver

  /** `GetPreimage(i)`: the inner preimage, with the proof replaced by the byte `byte(i)`. */
  function GetPreimage(inner: TraceProvider, i: nat): (r: Result<Preimage, Error>)
    ensures r.Success? <==> inner.getPreimage(i).Success?
    ensures r.Failure? ==> r.error == inner.getPreimage(i).error
    ensures r.Success? ==> r.value.preState == inner.getPreimage(i).value.preState
    ensures r.Success? ==> |r.value.proof| == 1 && r.value.proof[0] as int == i % 256
  {
    match inner.getPreimage(i)
    case Failure(e) => Failure(e)
    case Success(p) => Success(Preimage(p.preState, [ByteOf(i)]))
  }

  /** `GetOracleData(i)`: the configured error if there is one, else key and data both the byte `byte(i)`. */
  function GetOracleData(oracleError: Option<Error>, i: nat): (r: Result<PreimageOracleData, Error>)
    ensures r.Failure? <==> oracleError.Some?
    ensures oracleError.Some? ==> r.error == oracleError.value
    ensures r.Success? ==> r.value.oracleKey == r.value.oracleData && |r.value.oracleKey| == 1 && r.value.oracleKey[0] as int == i % 256
  {
    match oracleError
    case Some(e) => Failure(e)
    case None => Success(PreimageOracleData([ByteOf(i)], [ByteOf(i)]))
  }

  /**
   * `NewAlphabetWithProofProvider`: values and the absolute pre-state come from
   * the inner provider, preimages and oracle data from the decorator.
   */
  function NewAlphabetWithProofProvider(inner: TraceProvider, oracleError: Option<Error>): (p: TraceProvider)
    ensures p.get == inner.get && p.absolutePreState == inner.absolutePreState
    ensures forall i: nat :: p.getPreimage(i) == GetPreimage(inner, i)
    ensures forall i: nat :: p.getOracleData(i) == GetOracleData(oracleError, i)
  {
    TraceProvider(inner.get, inner.absolutePreState, (i: nat) => GetPreimage(inner, i), (i: nat) => GetOracleData(oracleError, i))
  }

  /** The provider `NewAlphabetClaimBuilder` uses: no oracle error, so oracle lookups never fail. */
  function ClaimBuilderProvider(inner: TraceProvider): (p: TraceProvider)
    ensures forall i: nat :: p.getOracleData(i).Success?
  {
    NewAlphabetWithProofProvider(inner, None)
  }

  /**
   * Through the decorator the step's proof names the index it was fetched at:
   * one below the leaf's trace index when attacking, the index itself when the
   * claim is correct. Attacking index 0 fetches nothing and the proof is empty.
   */
  lemma StepProofNamesFetchedIndex(inner: TraceProvider, oracleError: Option<Error>, gameDepth: int,
                                   geometry: Geometry, claim: Claim)
    requires var s := Solver(NewAlphabetWithProofProvider(inner, oracleError), gameDepth, geometry);
      AttemptStep(s, claim, false).Success?
    ensures var s := Solver(NewAlphabetWithProofProvider(inner, oracleError), gameDepth, geometry);
      var step := AttemptStep(s, claim, false).value;
      if step.isAttack && ClaimIndex(s, claim) == 0 then step.proofData == []
      else
        && |step.proofData| == 1
        && step.proofData[0] as int == (if step.isAttack then ClaimIndex(s, claim) - 1 else ClaimIndex(s, claim)) % 256
  {
  }

  /** The solver's oracle data through the decorator is the claim's trace index as a byte, or the configured error. */
  lemma OracleDataNamesIndex(inner: TraceProvider, oracleError: Option<Error>, gameDepth: int,
                             geometry: Geometry, claim: Claim)
    ensures var s := Solver(NewAlphabetWithProofProvider(inner, oracleError), gameDepth, geometry);
      var r := OracleData(s, claim);
      && (oracleError.Some? ==> r == Failure(oracleError.value))
      && (oracleError.None? ==> r == Success(PreimageOracleData([ByteOf(ClaimIndex(s, claim))], [ByteOf(ClaimIndex(s, claim))])))
  {
  }
}

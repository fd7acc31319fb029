# Fault-dispute challenger core, modelled in Dafny

This project models the off-chain side of Optimism's interactive fault-dispute
game (a bisection game over an execution trace), and the airdrop onion builder
script that ships in the same repository.

- **Move solver** (`solver.dfy`, `fault_types.dfy`, `solver_properties.dfy`).
  Given a claim and a trace provider, the solver decides one of three things.
  It attacks the claim, defends it, or makes no move. At a leaf it instead picks
  the pre-state and proof for the on-chain single-step verifier. The solver is
  a value, `Solver(trace, gameDepth, geometry)`, and every operation is a
  function of it.
  - `Position` is an abstract type.
  - Depth, root test, attack child, defend child and trace index are the fields
    of a `Geometry` value.
  - The trace provider is a record of functions from trace index to value or
    error.
  - Every lemma therefore holds for every position convention and every provider.
  - Go's `fmt.Errorf("attack claim: %w", err)` becomes the structured error
    `Wrapped(AttackClaim, err)`. `Is` plays the part of `errors.Is`.
- **Test trace provider** (`alphabet.dfy`). This decorator replaces each proof
  with the byte of the index it was fetched at, and can make oracle lookups
  fail. It makes the solver's index choice observable in the step's proof bytes.
- **Game monitor tick** (`monitor.dfy`). This is the contract the monitor's
  tests fix:
  - the saturating `minGameTimestamp`;
  - the allow-list filter;
  - the single batched `Schedule` call of `progressGames`;
  - the recording stub scheduler and the block-number counter, as classes
    whose fields their methods update in place;
  - the stub game source, a class whose fixed game list only its constructor sets.
- **Onion builder** (`onion.dfy`). This covers:
  - `onionize`, a hash chain built in a loop and then reversed;
  - `chunk`;
  - the line parsing and sanctions filter of `load`;
  - the `approval` total;
  - the index where `peel` resumes.

  The layer hash `keccak256(abi.encode(recipient, amount, shell))` is a
  parameter `h`.

## Model

| member | source | states |
|---|---|---|
| FaultTypes.WrappedIsCause | op-challenger/fault/solver/solver.go:108-111 | a tagged lookup error still matches its cause, and everything the cause matched |
| FaultTypes.IsCause | op-challenger/fault/solver/solver.go:125-128 | however many tags wrap an error, `errors.Is` still finds the innermost cause |
| FaultSolver.AgreeWithClaim | op-challenger/fault/solver/solver.go:136-147 | we agree exactly when our trace value at the claim's trace index equals the claimed value; a lookup error is passed on unchanged; this covers `traceAtPosition` too, which asks the provider at the position's trace index for the game depth (the `Attack` and `Defend` contracts state the same lookup at the child positions) |
| FaultSolver.Attack | op-challenger/fault/solver/solver.go:105-117 | on success the move sits at the attack child, carries our value there, and has the claim as parent and the claim's contract index as parent index; a failed lookup is tagged "attack claim" |
| FaultSolver.Defend | op-challenger/fault/solver/solver.go:119-134 | no move at the root; otherwise the move sits at the defend child and carries our value there, with the same parent links; a failed lookup is tagged "defend claim" |
| FaultSolver.NextMove | op-challenger/fault/solver/solver.go:30-47 | agreeing with the level gives no move and no error; otherwise maximum depth gives `GameDepthReached`; a returned move responds at the defend child when we agree and at the attack child when we do not; "no move" only happens for an agreed level or an agreed root |
| FaultSolver.OracleData | op-challenger/fault/solver/solver.go:49-58 | the oracle is asked at exactly the claim's trace index for the game depth; its error is returned as is, and otherwise its key and data are returned |
| FaultSolver.StepIndex | op-challenger/fault/solver/solver.go:83-90 | no preimage index only when attacking index 0; otherwise the index is one below the claim's index when attacking and the index itself when agreeing |
| FaultSolver.AttemptStep | op-challenger/fault/solver/solver.go:67-103 | a non-leaf claim gives `StepNonLeafNode` whatever the flag; a leaf with the flag set gives `StepAgreedClaim`; at a leaf with the flag clear, a failed agreement lookup is returned unchanged; a successful step carries the claim, attacks exactly when we disagree, and uses the absolute pre-state with an empty proof or the preimage at `StepIndex` |
| SolverProperties.AgreedLevelNeedsNoLookup | op-challenger/fault/solver/solver.go:32-34 | with the agree flag set, `NextMove` gives no move and no error, the same for every provider |
| SolverProperties.DepthReachedNeedsNoLookup | op-challenger/fault/solver/solver.go:35-37 | at the maximum depth `NextMove` fails with `GameDepthReached`, the same for every provider, so no lookup was made |
| SolverProperties.AgreementErrorUnchanged | op-challenger/fault/solver/solver.go:38-41 | a failed lookup at the claim's own position is returned unchanged |
| SolverProperties.DisagreeAttacks | op-challenger/fault/solver/solver.go:42-46 | a claim we disagree with gets the claim at `Attack()` with our value there, parent = the claim's data, parent index = its contract index |
| SolverProperties.AgreeDefends | op-challenger/fault/solver/solver.go:124-133 | a non-root claim we agree with gets the analogous claim at `Defend()` |
| SolverProperties.AgreedRootNoMove | op-challenger/fault/solver/solver.go:121-123 | an agreed root gives no move and no error |
| SolverProperties.AttackErrorWrapped | op-challenger/fault/solver/solver.go:106-111 | a lookup error at the attack child comes back tagged "attack claim" and still matches the underlying error |
| SolverProperties.DefendErrorWrapped | op-challenger/fault/solver/solver.go:124-128 | a lookup error at the defend child comes back tagged "defend claim" and still matches the underlying error |
| SolverProperties.NonLeafStepRefused | op-challenger/fault/solver/solver.go:70-72 | a step on a non-leaf claim fails with `StepNonLeafNode` for either value of the agree flag |
| SolverProperties.StepAtIndexZero | op-challenger/fault/solver/solver.go:83-85 | attacking the leaf at index 0 gives the absolute pre-state, an empty proof and `IsAttack`, and is the same for every preimage source, so `GetPreimage` is never called |
| SolverProperties.AttackStepUsesPriorIndex | op-challenger/fault/solver/solver.go:86-94 | attacking the leaf at index k > 0 uses the preimage at k - 1, or returns its error unchanged |
| SolverProperties.DefendStepUsesSameIndex | op-challenger/fault/solver/solver.go:86-94 | stepping on a leaf we agree with uses the preimage at k, or returns its error unchanged, with `IsAttack` false |
| SolverProperties.StepAgreementErrorUnchanged | op-challenger/fault/solver/solver.go:76-79 | at a leaf with the agree flag clear, a failed lookup at the claim's own position is the step's error, unchanged |
| SolverProperties.StepFetchesOnlyAtStepIndex | op-challenger/fault/solver/solver.go:80-94 | any preimage source that agrees with the provider at the index `StepIndex` names gives the same step, so no other preimage (and none below index 0) is ever fetched |
| AlphabetWithProof.GetPreimage | op-challenger/fault/test/alphabet.go:26-32 | the inner provider's error comes back unchanged; otherwise the inner pre-state is kept and the proof is the one byte `i mod 256` |
| AlphabetWithProof.GetOracleData | op-challenger/fault/test/alphabet.go:34-39 | a configured oracle error is returned exactly; otherwise key and data are both the one byte `i mod 256` |
| AlphabetWithProof.NewAlphabetWithProofProvider | op-challenger/fault/test/alphabet.go:9-24 | values and the absolute pre-state come from the inner provider; preimages and oracle data come from the decorator |
| AlphabetWithProof.ClaimBuilderProvider | op-challenger/fault/test/alphabet.go:16-19 | the claim builder's provider has no oracle error, so its oracle lookups never fail |
| AlphabetWithProof.StepProofNamesFetchedIndex | op-challenger/fault/test/alphabet.go:31 | through the decorator a step's proof is the byte of the index fetched: (k - 1) mod 256 when attacking, k mod 256 when the claim is correct (index 0 included); attacking index 0 fetches nothing and the proof is empty |
| AlphabetWithProof.OracleDataNamesIndex | op-challenger/fault/test/alphabet.go:34-39 | the solver's oracle data through the decorator is the claim's trace index as a byte, or exactly the configured error |
| GameMonitor.MinGameTimestamp | op-challenger/game/monitor_test.go:20-44 | a zero window gives 0; a window at least the clock's time saturates to 0; otherwise the result is `now - window` |
| GameMonitor.AllowedProxies | op-challenger/game/monitor_test.go:112-122 | an address is scheduled exactly when it was discovered and the allow-list is empty or names it; never more entries than games |
| GameMonitor.EmptyAllowListKeepsAll | op-challenger/game/monitor_test.go:99-110 | with an empty allow-list the batch is every discovered address, in discovery order |
| GameMonitor.AllowedProxiesAppend | op-challenger/game/monitor_test.go:118-121 | the filter keeps discovery order: filtering a concatenation concatenates the filtered parts |
| GameMonitor.StubScheduler.Schedule | op-challenger/game/monitor_test.go:178-181 | exactly one batch is appended, earlier batches are unchanged, and there is no error |
| GameMonitor.StubGameSource.FetchAllGamesAtBlock | op-challenger/game/monitor_test.go:170-172 | the stub answers its fixed game list whatever the timestamp and block |
| GameMonitor.BlockNumberCounter.FetchBlockNum | op-challenger/game/monitor_test.go:134-138 | the captured counter goes up by one and the new value is returned |
| GameMonitor.Monitor.ProgressGames | op-challenger/game/monitor_test.go:106-109 | one `Schedule` call, whose batch is the allowed addresses of the discovered games; no error |
| GameMonitor.ProgressWithEmptyAllowList | op-challenger/game/monitor_test.go:99-110 | two discovered games and no allow-list give exactly `[[addr1, addr2]]` |
| GameMonitor.ProgressWithAllowList | op-challenger/game/monitor_test.go:112-122 | two discovered games and the allow-list `[addr2]` give exactly `[[addr2]]` |
| GameMonitor.FirstBlockNumbers | op-challenger/game/monitor_test.go:134-138 | the fetcher answers 2, then 3 |
| Onion.Onionize | packages/airdrop-onion-transfer/script/onion-cli.ts:56-83 | the returned onion is the pushed layers reversed, and the shell is the hash chain over all inputs |
| Onion.PushedAt | packages/airdrop-onion-transfer/script/onion-cli.ts:64-77 | the k-th pushed layer is input k wrapped around the shell of the inputs before it |
| Onion.OnionLayers | packages/airdrop-onion-transfer/script/onion-cli.ts:62-80 | one layer per input, in reverse input order; input 0's layer carries `HashZero`; input k's layer carries `H(input[k-1], shell of layer k-1)` |
| Onion.PeelChain | packages/airdrop-onion-transfer/script/onion-cli.ts:71-81 | hashing any layer gives the shell of the layer outside it; hashing the outermost layer gives the returned shell |
| Onion.EmptyOnion | packages/airdrop-onion-transfer/script/onion-cli.ts:62-63 | no inputs give an empty onion and the shell `HashZero` |
| Onion.ReversedIndex | packages/airdrop-onion-transfer/script/onion-cli.ts:80 | position j of the reversed list holds element n-1-j |
| Onion.Chunk | packages/airdrop-onion-transfer/script/onion-cli.ts:85-91 | the loop with `i += size` pushes exactly the slices `Chunks` describes, clamping the last slice at the end |
| Onion.ChunksPartition | packages/airdrop-onion-transfer/script/onion-cli.ts:85-91 | the chunks concatenate back to the array; each is non-empty and at most `size` long; all but the last are exactly `size` long |
| Onion.Split | packages/airdrop-onion-transfer/script/onion-cli.ts:31 | at least one piece; no piece contains the separator; the first piece is the text before the first separator |
| Onion.JoinSplit | packages/airdrop-onion-transfer/script/onion-cli.ts:31 | joining the pieces with the separator gives the line back |
| Onion.ParseLine | packages/airdrop-onion-transfer/script/onion-cli.ts:30-36 | parsing succeeds exactly when there is a third field and `parseUnits` accepts it; the recipient is the text before the first comma |
| Onion.ParseFailureStays | packages/airdrop-onion-transfer/script/onion-cli.ts:46-47 | once a line fails to parse, later lines do not change the error `load` throws |
| Onion.Load | packages/airdrop-onion-transfer/script/onion-cli.ts:38-54 | skips the header line, then gives the first parse error or the parsed lines without sanctioned recipients, in order |
| Onion.UnsanctionedMembers | packages/airdrop-onion-transfer/script/onion-cli.ts:46-52 | an input is kept exactly when it was parsed and its recipient is not sanctioned |
| Onion.UnsanctionedAppend | packages/airdrop-onion-transfer/script/onion-cli.ts:46-52 | the filter keeps order: filtering a concatenation concatenates the filtered parts |
| Onion.Approval | packages/airdrop-onion-transfer/script/onion-cli.ts:126-131 | the total starts at 0 and is the sum of all the loaded amounts |
| Onion.TotalAppend | packages/airdrop-onion-transfer/script/onion-cli.ts:128-130 | the total of a concatenation is the sum of the totals |
| Onion.UnsanctionedTotal | packages/airdrop-onion-transfer/script/onion-cli.ts:126-129 | removing sanctioned recipients never raises the approval total |
| Onion.FindShell | packages/airdrop-onion-transfer/script/onion-cli.ts:198 | `findIndex` gives the first layer with the shell, or -1 when no layer has it |
| Onion.PeelStart | packages/airdrop-onion-transfer/script/onion-cli.ts:197-198 | the start is one past the first layer whose shell is the contract's, or 0 when none matches |
| Onion.PeelBatches | packages/airdrop-onion-transfer/script/onion-cli.ts:202 | the batches concatenate to the layers from the start index on; each is non-empty and at most 350 layers; all but the last hold exactly 350 |
| Onion.PeelResumesAfter | packages/airdrop-onion-transfer/script/onion-cli.ts:197-202 | with distinct shells, a contract at layer j's shell resumes at j + 1, and the batches are exactly the layers after j |
| Onion.PeelFromScratch | packages/airdrop-onion-transfer/script/onion-cli.ts:197-202 | a contract shell that matches no layer starts at 0, and the batches cover the whole onion |

## Left out

- Position arithmetic (`Depth`, `IsRoot`, `Attack`, `Defend`, `TraceIndex`): the `types` package that defines it is not part of this model. These operations are the fields of an arbitrary `Geometry`, so no left/right or generalized-index convention is assumed. For the same reason the scenario "four attacks from the root reach leaf index 0" is not stated: it depends on that convention.
- The alphabet provider's internals are not part of this model. The decorator wraps an arbitrary inner trace provider.
- `types.NewPreimageOracleData` is not part of this model. It is modelled as a record of the key and the data.
- Go's zero values returned next to an error (`StepData{}`, `PreimageOracleData{}`, nil slices) are modelled as the absence of a value in `Failure`. The empty `Parent` of a root claim is modelled as `None`.
- Error messages are not modelled, only error identity and the attack/defend tag.
- Is: error identity is structural. Two separately built `Wrapped(AttackClaim, e)` values are equal and match each other. In Go each `fmt.Errorf("attack claim: %w", e)` is a distinct pointer, and `errors.Is` between two of them fails.
- `gameMonitor.MonitorGames`: the head subscription, resubscribe-on-error and cancellation loop is concurrency (channels, goroutines), and `monitor.go` is not part of this model.
- GameMonitor.Monitor.ProgressGames follows the tests' stubs. Neither the game source nor the scheduler can fail there, so errors from either are not modelled.
- GameMonitor.MinGameTimestamp takes the clock and the window in whole seconds. Go's nanosecond `Duration` and sub-second truncation are not modelled.
- Logging (`testlog`, `console.log`) is not modelled.
- onion-cli.ts foreign calls are not modelled: `keccak256`/`defaultAbiCoder.encode` are the parameter `h`, and `utils.parseUnits` is a parameter that may reject its text. Amounts are naturals with no `uint256` bound.
- Onion.UnsanctionedTotal: holds only because `parseUnits` is typed `string -> Option<nat>`. ethers' `parseUnits` accepts a leading `-` and gives a negative amount, and with negative amounts dropping a recipient can raise the total. Likewise `abi.encode` throws for a negative amount or a recipient that is not an address, while the parameter `h` accepts every input.
- Reading the source file (`fs.readFileSync(...).toString().trim().split('\n')`) is I/O and is not modelled. `Load` takes the file's lines.
- `fetchSanctionedAddresses` is a network call and is not modelled. `Load` takes the sanctioned list.
- The `ethers` provider, wallet and contract calls in `validate` and `peel` (reading `shell()`, sending `peel` transactions) are RPC and transaction submission, and are not modelled. The contract's current shell is a parameter of `PeelStart`.
- The commander CLI wiring and `tsup.config.ts` are configuration only, with no logic to model.
- `NewSolver` is the datatype constructor `Solver` and has no contract of its own.

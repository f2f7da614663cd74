# tvx extract: precursor selection and the extraction pipeline

This project models the core of the `tvx extract` command of Lotus
(`cmd/tvx/extract.go`), which turns one message applied on a Filecoin chain
into a replayable test vector. Two parts are modelled.

- **Precursor selection** (`findMsgAndPrecursors`, module `Precursors` in
  `precursors.dfy`). The method `FindMsgAndPrecursors` scans the canonical
  message list of the execution tipset. It appends every entry the selection
  mode keeps and stops at the first entry whose CID is the target's. The mode
  `"all"` keeps every entry, `"sender"` keeps entries from the target's
  sender, and any other mode keeps nothing. The method is proved equal to the
  reference function `Select`. `Select` is built from `FirstIndex` (the first
  position holding the target's CID) and `Keep` (the mode's filter). The
  lemmas state what the selection is in each mode.
- **The extraction pipeline** (the decision logic of `doExtract`, module
  `Pipeline` in `extract.dfy`). The method `DoExtract` goes through the same
  steps in the same order as the source:
  - fetch the circulating supply and the canonical message list;
  - select, then abort when the target is not found;
  - split off the precursors;
  - replay them while threading the state root (`ReplayPrecursors`);
  - execute the target under the retention strategy;
  - run the receipt sanity check;
  - fetch the version and network name, then assemble the vector.

  `DoExtract` is proved equal to the function `Extract`. `Extract` returns
  the outcome (a vector or the error that ends the run) and every execution
  the driver was asked for, in order. The lemmas in `extract_properties.dfy`
  (module `ExtractProperties`) state what a run guarantees.

The node's RPC calls, the conformance driver, the tracing blockstore, the
state surgeon and the conformance receipt comparison are not interpreted.
They are the function-valued fields of `Pipeline.Env`, and the model states
what the pipeline does with their answers. Every function of the model is
deterministic. So two runs against the same `Env` with the same options give
the same vector.

Resolving the message is not part of this model. The pipeline takes the
message and both tipsets as inputs, and the message's CID stands for the
decoded `--cid` flag. A tipset always has at least one block
(`Pipeline.WellFormed`). The source relies on this when it takes the first
block of each tipset.

Where the extractor's design documentation and the code disagree, the model
follows the code:
- The design says the target is appended once it is found, even when
  the mode did not keep it. The code appends only what the mode keeps
  (cmd/tvx/extract.go:486-491).
  - With a mode other than `"all"` and `"sender"`, the target can be found
    while the related list is empty.
  - Taking all but the last element of that empty list at
    cmd/tvx/extract.go:166 panics.
  - The model keeps this case as the error `SliceBoundsPanic`
    (`ExtractProperties.UnknownModePanics`).
- The design promises that no partial output is written. The code
  creates the output file before encoding into it, and no such property is
  claimed here.
- The design asks for a separate "skipped" status for a nil chain receipt:
  it is `ReceiptCheck.SkippedNilReceipt`. As in the code, it leads to the same
  vector as a passed check.

## Model

| member | source | states |
|---|---|---|
| `Precursors.FindMsgAndPrecursors` | cmd/tvx/extract.go:482-503 | the scan reports found exactly when some entry carries the target's CID, and its related list and found flag are those of the reference selection `Select` |
| `Precursors.FirstIndex` | cmd/tvx/extract.go:493-496 | the scan stops at the first entry whose CID is the target's: none is returned only when no entry matches, otherwise a matching position with no match before it |
| `Precursors.KeepAppend` | cmd/tvx/extract.go:485-491 | selection distributes over concatenation, so selected messages keep their canonical order |
| `Precursors.KeepIsSubMultiset` | cmd/tvx/extract.go:485-491 | the selected messages are a sub-multiset of the list and never outnumber it |
| `Precursors.KeepAll` | cmd/tvx/extract.go:487-490 | `"all"` mode keeps every entry, in order |
| `Precursors.KeepSender` | cmd/tvx/extract.go:489-490 | `"sender"` mode keeps a message exactly when it is in the list and sent by the target's sender |
| `Precursors.KeepUnknownMode` | cmd/tvx/extract.go:486-491 | any other mode keeps nothing |
| `Precursors.SelectBound` | cmd/tvx/extract.go:482-503 | the related list is never longer than the canonical list, found or not, in every mode |
| `Precursors.SelectAll` | cmd/tvx/extract.go:485-502 | `"all"` mode: with the target first at k the related list is exactly entries 0..k; without it, the whole list |
| `Precursors.SelectSender` | cmd/tvx/extract.go:485-496 | `"sender"` mode: the related list is the target's sender's entries before k in order, then entry k when it carries that sender |
| `Precursors.SelectUnknownMode` | cmd/tvx/extract.go:486-491 | any other mode returns an empty related list, even when the target is found |
| `Precursors.SelectEndsWithTarget` | cmd/tvx/extract.go:485-496 | in a known mode, when the matched entry is the target's message, the related list is non-empty and ends with the target |
| `Precursors.SelectIgnoresLaterEntries` | cmd/tvx/extract.go:494-496 | entries after the first match are never inspected: replacing them changes nothing |
| `Precursors.WorkedExample` | cmd/tvx/extract.go:485-497 | the five-message case: `"sender"` yields [m0, m1, target] dropping the other sender's m2, `"all"` yields [m0, m1, m2, target] |
| `Pipeline.ReplayPrecursors` | cmd/tvx/extract.go:187-207 | the replay loop's final root (or failure) and the executions it requested are those of the reference replay `Replay` |
| `Pipeline.DoExtract` | cmd/tvx/extract.go:126-404 | the pipeline's outcome and the executions it requested are those of the reference pipeline `Extract` |
| `ExtractProperties.ReplayThreadsRoots` | cmd/tvx/extract.go:195-207 | replay executes precursor i as the i-th execution, at the run's epoch, supply and base fee; the first on the starting root, each later one on the root the previous left; it stops at the first failure with that failure, and otherwise ends on the last root |
| `ExtractProperties.NotFoundAborts` | cmd/tvx/extract.go:156-163 | a target absent from the canonical list aborts before any execution, reporting the number of messages collected (the whole list in `"all"` mode) |
| `ExtractProperties.UnknownModePanics` | cmd/tvx/extract.go:165-166 | with an unknown mode a found target leaves the related list empty and the precursor split panics, before any execution |
| `ExtractProperties.PrecursorFailureStopsBeforeTarget` | cmd/tvx/extract.go:195-207 | a failing precursor aborts the run, and every execution requested was of a precursor, in order, so the target never ran |
| `ExtractProperties.VectorFollowsReplay` | cmd/tvx/extract.go:187-275 | a produced vector follows a replay of all precursors from the inclusion tipset's parent state at the execution height and exactly one execution of the target on its preroot; the preroot is the replayed root under `"accessed-cids"` (which needs a tracing store) and the masked tree of the accessed plus protocol actors under `"accessed-actors"` |
| `ExtractProperties.VectorReproduces` | cmd/tvx/extract.go:259-379 | executing a vector's single message at its epoch on its preroot gives its postroot, its single post receipt is that local result, and a chain receipt, when there is one, passed the conformance check against it |
| `ExtractProperties.VectorFields` | cmd/tvx/extract.go:344-381 | a vector has class "message", the given id, the five provenance records, epoch = execution height, the fetched supply, the inclusion tipset's base fee, the target as its one message, and the CAR contents of its strategy |
| `ExtractProperties.ReceiptGate` | cmd/tvx/extract.go:283-311 | a chain receipt that fails the conformance check aborts the run; a nil chain receipt skips the check and the vector's receipt is the local result's |
| `ExtractProperties.RetentionDispatch` | cmd/tvx/extract.go:218-275 | `"accessed-cids"` without a tracing store fails with no execution, and otherwise executes once on the replayed root; `"accessed-actors"` retains every accessed actor plus reward, burnt-funds and init, and executes once on the masked root; any other strategy fails with no execution |

## Left out

- Flag definitions, `runExtract`, the `LOTUS_DISABLE_VM_BUF` environment toggle and the API client construction (cmd/tvx/extract.go:49-124): argument parsing and process setup.
- Decoding the `--cid` flag (cmd/tvx/extract.go:127-130): the message's own CID stands for it.
- `resolveFromChain` and `fetchThisAndPrevTipset` (cmd/tvx/extract.go:408-477): thin wrappers over remote chain lookups. The message and both tipsets are inputs.
- The conformance driver, the proxying stores, the state surgeon (accessed actors, masked state tree, CAR writers) and the tracing blockstore: foreign code, modelled as the uninterpreted fields of `Pipeline.Env`. The blocks a traced execution reads are a function of that execution's parameters. Starting and stopping the trace is not modelled as state.
- The body of `conformance.AssertMsgResult`: not part of this model. It is the boolean field `assertMsgResult` of `Pipeline.Env`.
- `msg.Serialize`, gzip and CAR writing, JSON encoding, directory and file creation, and writing to stdout (cmd/tvx/extract.go:314-331, 383-401): byte-level encoding and I/O. The vector holds the message itself and a description of the CAR contents, and the error paths of these steps are not modelled.
- Logging and coloured output throughout.
- Circulating supply and base fee: opaque big integers, copied into the vector and never computed with.
- `FindMsgAndPrecursors`: does not return the error result of `findMsgAndPrecursors`, which is nil on every path (cmd/tvx/extract.go:495, 502). The check of that error at cmd/tvx/extract.go:157-159 can never fire and is not modelled.

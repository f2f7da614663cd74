/** The extraction pipeline: from a resolved message and its execution and
    inclusion tipsets to a test vector, or to the error that aborts the run.

    The node's RPC calls, the conformance driver that executes messages, the
    tracing blockstore and the state surgeon are not interpreted: they are the
    function-valued fields of `Env`, and the pipeline is modelled as what it
    does with their answers.
 */
module Pipeline {
  import opened ChainTypes
  import opened Precursors

  /** The two state retention strategies. */
  const AccessedCids: string := "accessed-cids"
  const AccessedActors: string := "accessed-actors"

  /** The ID addresses of the actors that every execution touches: the reward
      actor (f02), the burnt-funds actor (f099) and the init actor (f01).
   */
  const RewardActor: Address := "f02"
  const BurntFundsActor: Address := "f099"
  const InitActor: Address := "f01"

  /** The vector class written into every extracted vector. */
  const ClassMessage: string := "message"

  /** What is handed to the driver for one message execution. */
  datatype ExecuteParams = ExecuteParams(preroot: Cid, epoch: ChainEpoch, message: Message, circSupply: TokenAmount, baseFee: TokenAmount)

  /** A successful execution: the engine's result and the state root it left. */
  datatype Executed = Executed(ret: ApplyRet, postroot: Cid)

  /** The collaborators of the pipeline. Each RPC answers `Err(reason)` when it fails. */
  datatype Env = Env(
    // full-node API
    stateCirculatingSupply: TipSetKey -> Result<TokenAmount, string>,
    chainGetParentMessages: Cid -> Result<seq<Message>, string>,
    stateGetReceipt: (Cid, TipSetKey) -> Result<Option<Receipt>, string>,
    version: Result<string, string>,
    stateNetworkName: Result<string, string>,
    // conformance driver: deterministic execution of one message
    executeMessage: ExecuteParams -> Result<Executed, string>,
    // proxying stores: whether the blockstore can trace reads, and the CIDs
    // a traced execution reads
    isTracingStore: bool,
    tracedReads: ExecuteParams -> set<Cid>,
    // state surgeon
    getAccessedActors: Cid -> Result<seq<Address>, string>,
    getMaskedStateTree: (Cid, seq<Address>) -> Result<Cid, string>,
    // conformance check of a chain receipt against a local result: true when it passes
    assertMsgResult: (Receipt, ApplyRet) -> bool
  )

  /** The command-line options the pipeline reads once the message is resolved. */
  datatype Options = Options(id: string, retain: string, precursor: string)

  /** Why a run was aborted. `SliceBoundsPanic` stands for the runtime panic of
      taking all but the last element of an empty related list.
   */
  datatype ExtractError =
    | CirculatingSupplyFailed(cause: string)
    | ParentMessagesFailed(cause: string)
    | MessageNotFound(precursorsFound: nat)
    | SliceBoundsPanic
    | PrecursorFailed(cause: string)
    | NoTracingBlockstore
    | TargetFailed(cause: string)
    | AccessedActorsFailed(cause: string)
    | MaskFailed(cause: string)
    | UnknownRetention(option: string)
    | ReceiptLookupFailed(cause: string)
    | SanityCheckFailed
    | VersionFailed(cause: string)
    | NetworkNameFailed(cause: string)

  /** Which blocks go into the vector's CAR archive: the traced reads plus the
      two roots, or everything reachable from the two roots.
   */
  datatype CarContents =
    | Including(accessed: set<Cid>, preroot: Cid, postroot: Cid)
    | Reachable(preroot: Cid, postroot: Cid)

  datatype GenerationData = GenerationData(source: string, version: string)
  datatype Metadata = Metadata(id: string, gen: seq<GenerationData>)
  datatype Preconditions = Preconditions(epoch: ChainEpoch, circSupply: TokenAmount, baseFee: TokenAmount, stateRoot: Cid)
  datatype Postconditions = Postconditions(stateRoot: Cid, receipts: seq<Receipt>)

  datatype TestVector = TestVector(
    vectorClass: string,
    meta: Metadata,
    car: CarContents,
    pre: Preconditions,
    applyMessages: seq<Message>,
    post: Postconditions
  )

  /** What stays fixed across every execution of one run. */
  datatype ExecContext = ExecContext(epoch: ChainEpoch, circSupply: TokenAmount, baseFee: TokenAmount)

  function Params(ctx: ExecContext, root: Cid, m: Message): ExecuteParams {
    ExecuteParams(root, ctx.epoch, m, ctx.circSupply, ctx.baseFee)
  }

  /** The result of replaying precursors, with the executions asked of the driver. */
  datatype Replayed = Replayed(root: Result<Cid, ExtractError>, calls: seq<ExecuteParams>)

  /** Replaying `precursors` from `root`: each is executed at the run's epoch
      on the root the previous one left, and the first failure ends the replay.
   */
  function Replay(execute: ExecuteParams -> Result<Executed, string>, ctx: ExecContext, root: Cid, precursors: seq<Message>): Replayed
    decreases |precursors|
  {
    if precursors == [] then Replayed(Ok(root), [])
    else
      var p := Params(ctx, root, precursors[0]);
      match execute(p)
      case Err(e) => Replayed(Err(PrecursorFailed(e)), [p])
      case Ok(x) =>
        var rest := Replay(execute, ctx, x.postroot, precursors[1..]);
        Replayed(rest.root, [p] + rest.calls)
  }

  /** The replay loop of the pipeline, threading the state root through the precursors. */
  method ReplayPrecursors(execute: ExecuteParams -> Result<Executed, string>, ctx: ExecContext, start: Cid, precursors: seq<Message>)
    returns (root: Result<Cid, ExtractError>, calls: seq<ExecuteParams>)
    ensures Replayed(root, calls) == Replay(execute, ctx, start, precursors)
  {
    var current := start;
    calls := [];
    for i := 0 to |precursors|
      invariant var rest := Replay(execute, ctx, current, precursors[i..]);
        Replay(execute, ctx, start, precursors) == Replayed(rest.root, calls + rest.calls)
    {
      assert precursors[i..][1..] == precursors[i + 1..];
      var p := Params(ctx, current, precursors[i]);
      calls := calls + [p];
      var res := execute(p);
      if res.Err? {
        return Err(PrecursorFailed(res.error)), calls;
      }
      current := res.value.postroot;
    }
    return Ok(current), calls;
  }

  /** The target's execution under a retention strategy: the roots the vector
      records, the engine's result and the CAR contents.
   */
  datatype Applied = Applied(preroot: Cid, postroot: Cid, ret: ApplyRet, car: CarContents)

  datatype Retained = Retained(applied: Result<Applied, ExtractError>, calls: seq<ExecuteParams>)

  /** The protocol actors retained on top of the ones the message accesses. */
  function RetainList(accessed: seq<Address>): seq<Address> {
    accessed + [RewardActor, BurntFundsActor, InitActor]
  }

  /** Executing the target on the replayed `root` under `retention`:
      "accessed-cids" executes on `root` itself while the store traces reads;
      "accessed-actors" executes on a masked copy of `root` that keeps only the
      accessed and protocol actors; any other strategy is refused.
   */
  function Retain(env: Env, retention: string, ctx: ExecContext, root: Cid, msg: Message): Retained {
    if retention == AccessedCids then
      if !env.isTracingStore then Retained(Err(NoTracingBlockstore), [])
      else
        var p := Params(ctx, root, msg);
        match env.executeMessage(p)
        case Err(e) => Retained(Err(TargetFailed(e)), [p])
        case Ok(x) => Retained(Ok(Applied(root, x.postroot, x.ret, Including(env.tracedReads(p), root, x.postroot))), [p])
    else if retention == AccessedActors then
      match env.getAccessedActors(msg.cid)
      case Err(e) => Retained(Err(AccessedActorsFailed(e)), [])
      case Ok(actors) =>
        match env.getMaskedStateTree(root, RetainList(actors))
        case Err(e) => Retained(Err(MaskFailed(e)), [])
        case Ok(preroot) =>
          var p := Params(ctx, preroot, msg);
          match env.executeMessage(p)
          case Err(e) => Retained(Err(TargetFailed(e)), [p])
          case Ok(x) => Retained(Ok(Applied(preroot, x.postroot, x.ret, Reachable(preroot, x.postroot))), [p])
    else Retained(Err(UnknownRetention(retention)), [])
  }

  /** How the receipt sanity check ended when it did not abort the run. */
  datatype ReceiptCheck = Verified | SkippedNilReceipt

  /** The receipt sanity check: a chain receipt must pass the conformance
      comparison with the local result; a nil chain receipt skips it.
   */
  function CheckReceipt(env: Env, msg: Message, execTs: TipSet, ret: ApplyRet): Result<ReceiptCheck, ExtractError> {
    match env.stateGetReceipt(msg.cid, execTs.key)
    case Err(e) => Err(ReceiptLookupFailed(e))
    case Ok(None) => Ok(SkippedNilReceipt)
    case Ok(Some(rec)) => if env.assertMsgResult(rec, ret) then Ok(Verified) else Err(SanityCheckFailed)
  }

  /** The provenance records of a vector, in the order they are written. */
  function Provenance(network: string, msg: Message, execTs: TipSet, incTs: TipSet, version: string): seq<GenerationData> {
    [ GenerationData("network:" + network, ""),
      GenerationData("message:" + msg.cid, ""),
      GenerationData("inclusion_tipset:" + incTs.key, ""),
      GenerationData("execution_tipset:" + execTs.key, ""),
      GenerationData("github.com/filecoin-project/lotus", version) ]
  }

  /** The vector document: the post receipt is the local result's, whatever the chain said. */
  function Assemble(opts: Options, msg: Message, execTs: TipSet, incTs: TipSet, ctx: ExecContext,
                    applied: Applied, version: string, network: string): TestVector
  {
    TestVector(
      ClassMessage,
      Metadata(opts.id, Provenance(network, msg, execTs, incTs, version)),
      applied.car,
      Preconditions(ctx.epoch, ctx.circSupply, ctx.baseFee, applied.preroot),
      [msg],
      Postconditions(applied.postroot, [ReceiptOf(applied.ret)]))
  }

  /** A run of the pipeline: its outcome and every execution asked of the driver, in order. */
  datatype Run = Run(outcome: Result<TestVector, ExtractError>, executed: seq<ExecuteParams>)

  /** A tipset has at least one block. */
  predicate WellFormed(ts: TipSet) {
    |ts.blocks| > 0
  }

  /** The execution context of a run: the execution tipset's height, and the
      circulating supply and base fee at the inclusion tipset.
   */
  function ContextOf(execTs: TipSet, incTs: TipSet, circ: TokenAmount): ExecContext
    requires WellFormed(incTs)
  {
    ExecContext(execTs.height, circ, incTs.blocks[0].parentBaseFee)
  }

  /** The precursors: the related messages without the last one. */
  function PrecursorsOf(related: seq<Message>): seq<Message>
    requires related != []
  {
    related[..|related| - 1]
  }

  /** Reference definition of the whole pipeline, stage by stage. */
  function Extract(env: Env, opts: Options, msg: Message, execTs: TipSet, incTs: TipSet): Run
    requires WellFormed(execTs) && WellFormed(incTs)
  {
    match env.stateCirculatingSupply(incTs.key)
    case Err(e) => Run(Err(CirculatingSupplyFailed(e)), [])
    case Ok(circ) =>
      match env.chainGetParentMessages(execTs.blocks[0].cid)
      case Err(e) => Run(Err(ParentMessagesFailed(e)), [])
      case Ok(msgs) =>
        var sel := Select(opts.precursor, msg, msgs);
        if !sel.found then Run(Err(MessageNotFound(|sel.related|)), [])
        else if sel.related == [] then Run(Err(SliceBoundsPanic), [])
        else
          var ctx := ContextOf(execTs, incTs, circ);
          var replayed := Replay(env.executeMessage, ctx, incTs.parentState, PrecursorsOf(sel.related));
          match replayed.root
          case Err(e) => Run(Err(e), replayed.calls)
          case Ok(root) =>
            var retained := Retain(env, opts.retain, ctx, root, msg);
            var calls := replayed.calls + retained.calls;
            match retained.applied
            case Err(e) => Run(Err(e), calls)
            case Ok(applied) =>
              match CheckReceipt(env, msg, execTs, applied.ret)
              case Err(e) => Run(Err(e), calls)
              case Ok(_) =>
                match env.version
                case Err(e) => Run(Err(VersionFailed(e)), calls)
                case Ok(version) =>
                  match env.stateNetworkName
                  case Err(e) => Run(Err(NetworkNameFailed(e)), calls)
                  case Ok(network) => Run(Ok(Assemble(opts, msg, execTs, incTs, ctx, applied, version, network)), calls)
  }

  /** The pipeline, step by step: fetch, select, split, replay, execute the
      target under the retention strategy, check the receipt, assemble.
   */
  method DoExtract(env: Env, opts: Options, msg: Message, execTs: TipSet, incTs: TipSet)
    returns (outcome: Result<TestVector, ExtractError>, executed: seq<ExecuteParams>)
    requires WellFormed(execTs) && WellFormed(incTs)
    ensures Run(outcome, executed) == Extract(env, opts, msg, execTs, incTs)
  {
    executed := [];
    var circSupply := env.stateCirculatingSupply(incTs.key);
    if circSupply.Err? {
      return Err(CirculatingSupplyFailed(circSupply.error)), executed;
    }
    var msgs := env.chainGetParentMessages(execTs.blocks[0].cid);
    if msgs.Err? {
      return Err(ParentMessagesFailed(msgs.error)), executed;
    }

    var related, found := FindMsgAndPrecursors(opts.precursor, msg, msgs.value);
    if !found {
      return Err(MessageNotFound(|related|)), executed;
    }
    if |related| == 0 {
      return Err(SliceBoundsPanic), executed;
    }
    var precursors := related[..|related| - 1];

    var ctx := ExecContext(execTs.height, circSupply.value, incTs.blocks[0].parentBaseFee);
    var root, replayCalls := ReplayPrecursors(env.executeMessage, ctx, incTs.parentState, precursors);
    executed := replayCalls;
    if root.Err? {
      return Err(root.error), executed;
    }

    var preroot: Cid, postroot: Cid, applyret: ApplyRet, car: CarContents;
    if opts.retain == AccessedCids {
      if !env.isTracingStore {
        return Err(NoTracingBlockstore), executed;
      }
      preroot := root.value;
      var p := Params(ctx, preroot, msg);
      executed := executed + [p];
      var res := env.executeMessage(p);
      if res.Err? {
        return Err(TargetFailed(res.error)), executed;
      }
      applyret, postroot := res.value.ret, res.value.postroot;
      car := Including(env.tracedReads(p), preroot, postroot);
    } else if opts.retain == AccessedActors {
      var accessed := env.getAccessedActors(msg.cid);
      if accessed.Err? {
        return Err(AccessedActorsFailed(accessed.error)), executed;
      }
      var retain := accessed.value + [RewardActor, BurntFundsActor, InitActor];
      var masked := env.getMaskedStateTree(root.value, retain);
      if masked.Err? {
        return Err(MaskFailed(masked.error)), executed;
      }
      preroot := masked.value;
      var p := Params(ctx, preroot, msg);
      executed := executed + [p];
      var res := env.executeMessage(p);
      if res.Err? {
        return Err(TargetFailed(res.error)), executed;
      }
      applyret, postroot := res.value.ret, res.value.postroot;
      car := Reachable(preroot, postroot);
    } else {
      return Err(UnknownRetention(opts.retain)), executed;
    }

    var rec := env.stateGetReceipt(msg.cid, execTs.key);
    if rec.Err? {
      return Err(ReceiptLookupFailed(rec.error)), executed;
    }
    if rec.value.Some? {
      if !env.assertMsgResult(rec.value.value, applyret) {
        return Err(SanityCheckFailed), executed;
      }
    }

    var version := env.version;
    if version.Err? {
      return Err(VersionFailed(version.error)), executed;
    }
    var network := env.stateNetworkName;
    if network.Err? {
      return Err(NetworkNameFailed(network.error)), executed;
    }
    var vector := TestVector(
      ClassMessage,
      Metadata(opts.id, Provenance(network.value, msg, execTs, incTs, version.value)),
      car,
      Preconditions(execTs.height, circSupply.value, incTs.blocks[0].parentBaseFee, preroot),
      [msg],
      Postconditions(postroot, [ReceiptOf(applyret)]));
    return Ok(vector), executed;
  }
}

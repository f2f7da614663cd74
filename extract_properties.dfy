/** What the extraction pipeline guarantees: how precursor replay threads the
    state root, when a run aborts, and what a produced vector holds.
 */
module ExtractProperties {
  import opened ChainTypes
  import opened Precursors
  import opened Pipeline

  /** Replay executes the precursors in order, each at the run's epoch and on
      the root the previous execution left, starting from `start`; it stops at
      the first failing execution, and otherwise ends on the last root.
   */
  lemma {:induction false} ReplayThreadsRoots(execute: ExecuteParams -> Result<Executed, string>, ctx: ExecContext, start: Cid, precursors: seq<Message>)
    ensures var r := Replay(execute, ctx, start, precursors);
      && |r.calls| <= |precursors|
      && (precursors != [] ==> r.calls != [] && r.calls[0].preroot == start)
      && (forall i :: 0 <= i < |r.calls| ==> r.calls[i] == Params(ctx, r.calls[i].preroot, precursors[i]))
      && (forall i :: 0 <= i < |r.calls| - 1 ==>
            execute(r.calls[i]).Ok? && execute(r.calls[i]).value.postroot == r.calls[i + 1].preroot)
      && (r.root.Err? ==>
            && r.calls != []
            && execute(r.calls[|r.calls| - 1]).Err?
            && r.root == Err(PrecursorFailed(execute(r.calls[|r.calls| - 1]).error)))
      && (r.root.Ok? ==>
            && |r.calls| == |precursors|
            && (precursors == [] ==> r.root.value == start)
            && (precursors != [] ==>
                  && execute(r.calls[|r.calls| - 1]).Ok?
                  && r.root.value == execute(r.calls[|r.calls| - 1]).value.postroot))
    decreases |precursors|
  {
    if precursors != [] {
      var p := Params(ctx, start, precursors[0]);
      match execute(p)
      case Err(e) =>
      case Ok(x) =>
        var rest := Replay(execute, ctx, x.postroot, precursors[1..]);
        ReplayThreadsRoots(execute, ctx, x.postroot, precursors[1..]);
        var r := Replay(execute, ctx, start, precursors);
        assert r.calls == [p] + rest.calls;
        forall i | 0 <= i < |r.calls|
          ensures r.calls[i] == Params(ctx, r.calls[i].preroot, precursors[i])
        {
          if i > 0 { assert r.calls[i] == rest.calls[i - 1]; }
        }
        forall i | 0 <= i < |r.calls| - 1
          ensures execute(r.calls[i]).Ok? && execute(r.calls[i]).value.postroot == r.calls[i + 1].preroot
        {
          if i > 0 { assert r.calls[i] == rest.calls[i - 1]; }
        }
    }
  }

  /** The precursors of a run whose target was found with a non-empty related list. */
  function RunPrecursors(opts: Options, msg: Message, msgs: seq<Message>): seq<Message>
    requires Select(opts.precursor, msg, msgs).related != []
  {
    PrecursorsOf(Select(opts.precursor, msg, msgs).related)
  }

  /** A target missing from the canonical list aborts the run before any
      execution, reporting how many messages the scan had collected (in "all"
      mode, the whole list).
   */
  lemma NotFoundAborts(env: Env, opts: Options, msg: Message, execTs: TipSet, incTs: TipSet, circ: TokenAmount, msgs: seq<Message>)
    requires WellFormed(execTs) && WellFormed(incTs)
    requires env.stateCirculatingSupply(incTs.key) == Ok(circ)
    requires env.chainGetParentMessages(execTs.blocks[0].cid) == Ok(msgs)
    requires forall i :: 0 <= i < |msgs| ==> msgs[i].cid != msg.cid
    ensures Extract(env, opts, msg, execTs, incTs) == Run(Err(MessageNotFound(|Keep(opts.precursor, msg, msgs)|)), [])
    ensures opts.precursor == PrecursorSelectAll ==>
      Extract(env, opts, msg, execTs, incTs).outcome == Err(MessageNotFound(|msgs|))
  {
    KeepAll(msg, msgs);
  }

  /** With a mode other than "all" and "sender", a target that is found still
      leaves the related list empty, and taking its precursors panics.
   */
  lemma UnknownModePanics(env: Env, opts: Options, msg: Message, execTs: TipSet, incTs: TipSet, circ: TokenAmount, msgs: seq<Message>, k: nat)
    requires WellFormed(execTs) && WellFormed(incTs)
    requires env.stateCirculatingSupply(incTs.key) == Ok(circ)
    requires env.chainGetParentMessages(execTs.blocks[0].cid) == Ok(msgs)
    requires opts.precursor != PrecursorSelectAll && opts.precursor != PrecursorSelectSender
    requires k < |msgs| && msgs[k].cid == msg.cid
    ensures Extract(env, opts, msg, execTs, incTs) == Run(Err(SliceBoundsPanic), [])
  {
    SelectUnknownMode(opts.precursor, msg, msgs);
  }

  /** When a precursor fails, the run aborts with that failure and the driver
      was only ever asked to execute precursors, in order: the target is not run.
   */
  lemma PrecursorFailureStopsBeforeTarget(env: Env, opts: Options, msg: Message, execTs: TipSet, incTs: TipSet, circ: TokenAmount, msgs: seq<Message>)
    requires WellFormed(execTs) && WellFormed(incTs)
    requires env.stateCirculatingSupply(incTs.key) == Ok(circ)
    requires env.chainGetParentMessages(execTs.blocks[0].cid) == Ok(msgs)
    requires Select(opts.precursor, msg, msgs).found && Select(opts.precursor, msg, msgs).related != []
    requires Replay(env.executeMessage, ContextOf(execTs, incTs, circ), incTs.parentState, RunPrecursors(opts, msg, msgs)).root.Err?
    ensures var run := Extract(env, opts, msg, execTs, incTs);
      var precursors := RunPrecursors(opts, msg, msgs);
      && run.outcome.Err? && run.outcome.error.PrecursorFailed?
      && 0 < |run.executed| <= |precursors|
      && (forall i :: 0 <= i < |run.executed| ==> run.executed[i].message == precursors[i])
  {
    ReplayThreadsRoots(env.executeMessage, ContextOf(execTs, incTs, circ), incTs.parentState, RunPrecursors(opts, msg, msgs));
  }

  /** A produced vector comes from a run that replayed every precursor from the
      inclusion tipset's parent state at the execution height, then executed
      the target exactly once on the vector's preroot. That preroot is the
      replayed root under "accessed-cids", and the masked tree of the accessed
      and protocol actors under "accessed-actors".
   */
  lemma VectorFollowsReplay(env: Env, opts: Options, msg: Message, execTs: TipSet, incTs: TipSet, circ: TokenAmount, msgs: seq<Message>, v: TestVector)
    requires WellFormed(execTs) && WellFormed(incTs)
    requires env.stateCirculatingSupply(incTs.key) == Ok(circ)
    requires env.chainGetParentMessages(execTs.blocks[0].cid) == Ok(msgs)
    requires Extract(env, opts, msg, execTs, incTs).outcome == Ok(v)
    ensures Select(opts.precursor, msg, msgs).found && Select(opts.precursor, msg, msgs).related != []
    ensures var ctx := ContextOf(execTs, incTs, circ);
      var precursors := RunPrecursors(opts, msg, msgs);
      var replayed := Replay(env.executeMessage, ctx, incTs.parentState, precursors);
      && replayed.root.Ok?
      && |replayed.calls| == |precursors|
      && (precursors != [] ==> replayed.calls[0].preroot == incTs.parentState)
      && (forall i :: 0 <= i < |precursors| ==>
            replayed.calls[i].message == precursors[i] && replayed.calls[i].epoch == execTs.height)
      && Extract(env, opts, msg, execTs, incTs).executed ==
           replayed.calls + [ExecuteParams(v.pre.stateRoot, execTs.height, msg, circ, incTs.blocks[0].parentBaseFee)]
      && (opts.retain == AccessedCids || opts.retain == AccessedActors)
      && (opts.retain == AccessedCids ==> env.isTracingStore && v.pre.stateRoot == replayed.root.value)
      && (opts.retain == AccessedActors ==>
            env.getAccessedActors(msg.cid).Ok?
            && env.getMaskedStateTree(replayed.root.value, RetainList(env.getAccessedActors(msg.cid).value)) == Ok(v.pre.stateRoot))
  {
    var sel := Select(opts.precursor, msg, msgs);
    assert sel.found && sel.related != [];
    ReplayThreadsRoots(env.executeMessage, ContextOf(execTs, incTs, circ), incTs.parentState, RunPrecursors(opts, msg, msgs));
  }

  /** A produced vector replays: executing its one message at its epoch on its
      preroot yields its postroot, and its single post receipt is that
      execution's result. When the chain had a receipt, that result passed the
      conformance check against it.
   */
  lemma VectorReproduces(env: Env, opts: Options, msg: Message, execTs: TipSet, incTs: TipSet, v: TestVector)
    requires WellFormed(execTs) && WellFormed(incTs)
    requires Extract(env, opts, msg, execTs, incTs).outcome == Ok(v)
    ensures |v.applyMessages| == 1 && |v.post.receipts| == 1
    ensures var x := env.executeMessage(ExecuteParams(v.pre.stateRoot, v.pre.epoch, v.applyMessages[0], v.pre.circSupply, v.pre.baseFee));
      && x.Ok?
      && x.value.postroot == v.post.stateRoot
      && v.post.receipts[0] == ReceiptOf(x.value.ret)
      && env.stateGetReceipt(msg.cid, execTs.key).Ok?
      && (env.stateGetReceipt(msg.cid, execTs.key).value.Some? ==>
            env.assertMsgResult(env.stateGetReceipt(msg.cid, execTs.key).value.value, x.value.ret))
  {
  }

  /** The fields of a produced vector: class, identifier and provenance,
      preconditions taken from the tipsets, the target as the only message,
      and the CAR contents chosen by the retention strategy.
   */
  lemma VectorFields(env: Env, opts: Options, msg: Message, execTs: TipSet, incTs: TipSet, circ: TokenAmount, v: TestVector)
    requires WellFormed(execTs) && WellFormed(incTs)
    requires env.stateCirculatingSupply(incTs.key) == Ok(circ)
    requires Extract(env, opts, msg, execTs, incTs).outcome == Ok(v)
    ensures v.vectorClass == ClassMessage
    ensures env.version.Ok? && env.stateNetworkName.Ok?
    ensures v.meta == Metadata(opts.id, Provenance(env.stateNetworkName.value, msg, execTs, incTs, env.version.value))
    ensures v.pre.epoch == execTs.height && v.pre.circSupply == circ && v.pre.baseFee == incTs.blocks[0].parentBaseFee
    ensures v.applyMessages == [msg]
    ensures opts.retain == AccessedCids ==>
      v.car == Including(env.tracedReads(ExecuteParams(v.pre.stateRoot, v.pre.epoch, msg, circ, v.pre.baseFee)), v.pre.stateRoot, v.post.stateRoot)
    ensures opts.retain != AccessedCids ==> v.car == Reachable(v.pre.stateRoot, v.post.stateRoot)
  {
  }

  /** Once the target has been executed, a chain receipt that fails the
      conformance check aborts the run; a nil chain receipt is never compared,
      and the run goes on to a vector whose receipt is the local result's.
   */
  lemma ReceiptGate(env: Env, opts: Options, msg: Message, execTs: TipSet, incTs: TipSet, circ: TokenAmount, msgs: seq<Message>, applied: Applied)
    requires WellFormed(execTs) && WellFormed(incTs)
    requires env.stateCirculatingSupply(incTs.key) == Ok(circ)
    requires env.chainGetParentMessages(execTs.blocks[0].cid) == Ok(msgs)
    requires Select(opts.precursor, msg, msgs).found && Select(opts.precursor, msg, msgs).related != []
    requires var ctx := ContextOf(execTs, incTs, circ);
      var replayed := Replay(env.executeMessage, ctx, incTs.parentState, RunPrecursors(opts, msg, msgs));
      replayed.root.Ok? && Retain(env, opts.retain, ctx, replayed.root.value, msg).applied == Ok(applied)
    ensures forall rec :: env.stateGetReceipt(msg.cid, execTs.key) == Ok(Some(rec)) && !env.assertMsgResult(rec, applied.ret) ==>
      Extract(env, opts, msg, execTs, incTs).outcome == Err(SanityCheckFailed)
    ensures env.stateGetReceipt(msg.cid, execTs.key) == Ok(None) && env.version.Ok? && env.stateNetworkName.Ok? ==>
      var outcome := Extract(env, opts, msg, execTs, incTs).outcome;
      outcome.Ok? && outcome.value.post.receipts == [ReceiptOf(applied.ret)]
  {
  }

  /** The retention switch: "accessed-cids" needs a tracing store and keeps the
      replayed root as the preroot; "accessed-actors" keeps every accessed
      actor plus the reward, burnt-funds and init actors and executes on the
      masked root; anything else is refused before the target is executed.
   */
  lemma RetentionDispatch(env: Env, retention: string, ctx: ExecContext, root: Cid, msg: Message)
    ensures retention == AccessedCids && !env.isTracingStore ==>
      Retain(env, retention, ctx, root, msg) == Retained(Err(NoTracingBlockstore), [])
    ensures retention == AccessedCids && Retain(env, retention, ctx, root, msg).applied.Ok? ==>
      var a := Retain(env, retention, ctx, root, msg).applied.value;
      a.preroot == root && Retain(env, retention, ctx, root, msg).calls == [Params(ctx, root, msg)]
    ensures retention == AccessedActors && Retain(env, retention, ctx, root, msg).applied.Ok? ==>
      var a := Retain(env, retention, ctx, root, msg).applied.value;
      && env.getAccessedActors(msg.cid).Ok?
      && var retain := RetainList(env.getAccessedActors(msg.cid).value);
      && (forall actor :: actor in env.getAccessedActors(msg.cid).value ==> actor in retain)
      && RewardActor in retain && BurntFundsActor in retain && InitActor in retain
      && env.getMaskedStateTree(root, retain) == Ok(a.preroot)
      && Retain(env, retention, ctx, root, msg).calls == [Params(ctx, a.preroot, msg)]
    ensures retention != AccessedCids && retention != AccessedActors ==>
      Retain(env, retention, ctx, root, msg) == Retained(Err(UnknownRetention(retention)), [])
  {
  }
}

/** Precursor selection: locating the target message in the canonical message
    list of its execution tipset and collecting, in order, the messages that
    have to be replayed before it.
 */
module Precursors {
  import opened ChainTypes

  /** The two selection modes the extractor understands. */
  const PrecursorSelectAll: string := "all"
  const PrecursorSelectSender: string := "sender"

  /** Whether `mode` keeps the canonical entry `other` when `target` is being
      extracted: "all" keeps every entry, "sender" only those sent by the
      target's sender, and any other mode keeps nothing.
   */
  predicate Selects(mode: string, target: Message, other: Message) {
    mode == PrecursorSelectAll || (mode == PrecursorSelectSender && other.from == target.from)
  }

  /** The entries of `msgs` that `mode` keeps, in their canonical order. */
  function Keep(mode: string, target: Message, msgs: seq<Message>): seq<Message>
    decreases |msgs|
  {
    if msgs == [] then []
    else
      var kept := Keep(mode, target, msgs[..|msgs| - 1]);
      if Selects(mode, target, msgs[|msgs| - 1]) then kept + [msgs[|msgs| - 1]] else kept
  }

  /** The position of the first canonical entry whose CID is `c`, if there is one. */
  function FirstIndex(msgs: seq<Message>, c: Cid): (r: Option<nat>)
    ensures r.None? <==> forall i :: 0 <= i < |msgs| ==> msgs[i].cid != c
    ensures r.Some? ==> r.value < |msgs| && msgs[r.value].cid == c
    ensures r.Some? ==> forall i :: 0 <= i < r.value ==> msgs[i].cid != c
  {
    if msgs == [] then None
    else if msgs[0].cid == c then Some(0)
    else match FirstIndex(msgs[1..], c)
      case None => None
      case Some(k) => Some(k + 1)
  }

  /** The outcome of a precursor scan: the related messages (precursors, then
      the target when the mode keeps it) and whether the target was found.
   */
  datatype Selection = Selection(related: seq<Message>, found: bool)

  /** Reference definition of the scan: everything up to and including the
      first entry carrying the target's CID, filtered by the mode; or, when no
      entry carries it, the whole list filtered by the mode.
   */
  function Select(mode: string, target: Message, msgs: seq<Message>): Selection {
    match FirstIndex(msgs, target.cid)
    case Some(k) => Selection(Keep(mode, target, msgs[..k + 1]), true)
    case None => Selection(Keep(mode, target, msgs), false)
  }

  /** The scan over the canonical message list: entries are appended while
      they are read, and the scan stops at the first entry whose CID is the
      target's. Its error result is nil on every path and is not modelled.
   */
  method FindMsgAndPrecursors(mode: string, target: Message, msgs: seq<Message>)
    returns (related: seq<Message>, found: bool)
    ensures found <==> exists i :: 0 <= i < |msgs| && msgs[i].cid == target.cid
    ensures Selection(related, found) == Select(mode, target, msgs)
  {
    related := [];
    for i := 0 to |msgs|
      invariant related == Keep(mode, target, msgs[..i])
      invariant forall j :: 0 <= j < i ==> msgs[j].cid != target.cid
    {
      var other := msgs[i];
      assert msgs[..i + 1][..i] == msgs[..i];
      if mode == PrecursorSelectAll {
        // "all" falls through to the append without looking at the sender
        related := related + [other];
      } else if mode == PrecursorSelectSender && other.from == target.from {
        related := related + [other];
      }
      if other.cid == target.cid {
        return related, true;
      }
    }
    assert msgs[..|msgs|] == msgs;
    return related, false;
  }

  /** Filtering distributes over concatenation, so the kept entries keep
      their relative order.
   */
  lemma {:induction false} KeepAppend(mode: string, target: Message, a: seq<Message>, b: seq<Message>)
    ensures Keep(mode, target, a + b) == Keep(mode, target, a) + Keep(mode, target, b)
    decreases |b|
  {
    if b == [] {
      assert a + b == a;
    } else {
      var b' := b[..|b| - 1];
      assert (a + b)[..|a + b| - 1] == a + b';
      assert (a + b)[|a + b| - 1] == b[|b| - 1];
      KeepAppend(mode, target, a, b');
    }
  }

  /** The kept entries are a sub-multiset of the list, hence never more. */
  lemma {:induction false} KeepIsSubMultiset(mode: string, target: Message, msgs: seq<Message>)
    ensures multiset(Keep(mode, target, msgs)) <= multiset(msgs)
    ensures |Keep(mode, target, msgs)| <= |msgs|
    decreases |msgs|
  {
    if msgs != [] {
      var init := msgs[..|msgs| - 1];
      KeepIsSubMultiset(mode, target, init);
      assert msgs == init + [msgs[|msgs| - 1]];
    }
  }

  /** In "all" mode nothing is filtered out. */
  lemma {:induction false} KeepAll(target: Message, msgs: seq<Message>)
    ensures Keep(PrecursorSelectAll, target, msgs) == msgs
    decreases |msgs|
  {
    if msgs != [] {
      KeepAll(target, msgs[..|msgs| - 1]);
      assert msgs == msgs[..|msgs| - 1] + [msgs[|msgs| - 1]];
    }
  }

  /** In "sender" mode an entry is kept exactly when it was sent by the target's sender. */
  lemma {:induction false} KeepSender(target: Message, msgs: seq<Message>)
    ensures forall m :: m in Keep(PrecursorSelectSender, target, msgs) <==> m in msgs && m.from == target.from
    decreases |msgs|
  {
    if msgs != [] {
      var init := msgs[..|msgs| - 1];
      KeepSender(target, init);
      assert msgs == init + [msgs[|msgs| - 1]];
    }
  }

  /** A mode other than "all" and "sender" keeps nothing. */
  lemma {:induction false} KeepUnknownMode(mode: string, target: Message, msgs: seq<Message>)
    requires mode != PrecursorSelectAll && mode != PrecursorSelectSender
    ensures Keep(mode, target, msgs) == []
    decreases |msgs|
  {
    if msgs != [] {
      KeepUnknownMode(mode, target, msgs[..|msgs| - 1]);
    }
  }

  /** The scan never returns more messages than the list holds, in any mode. */
  lemma SelectBound(mode: string, target: Message, msgs: seq<Message>)
    ensures |Select(mode, target, msgs).related| <= |msgs|
  {
    match FirstIndex(msgs, target.cid)
    case Some(k) => KeepIsSubMultiset(mode, target, msgs[..k + 1]);
    case None => KeepIsSubMultiset(mode, target, msgs);
  }

  /** "all" mode: when the target is first found at `k`, the related messages
      are exactly the entries 0..k; when it is not found, every entry.
   */
  lemma SelectAll(target: Message, msgs: seq<Message>)
    ensures FirstIndex(msgs, target.cid).Some? ==>
      Select(PrecursorSelectAll, target, msgs).related == msgs[..FirstIndex(msgs, target.cid).value + 1]
    ensures FirstIndex(msgs, target.cid).None? ==> Select(PrecursorSelectAll, target, msgs).related == msgs
  {
    match FirstIndex(msgs, target.cid)
    case Some(k) => KeepAll(target, msgs[..k + 1]);
    case None => KeepAll(target, msgs);
  }

  /** "sender" mode: when the target is first found at `k`, the related
      messages are the entries before `k` from the target's sender, in order,
      followed by entry `k` itself when it carries the target's sender.
   */
  lemma SelectSender(target: Message, msgs: seq<Message>, k: nat)
    requires FirstIndex(msgs, target.cid) == Some(k)
    ensures Select(PrecursorSelectSender, target, msgs).related ==
      Keep(PrecursorSelectSender, target, msgs[..k]) + (if msgs[k].from == target.from then [msgs[k]] else [])
    ensures forall m :: m in Keep(PrecursorSelectSender, target, msgs[..k]) <==> m in msgs[..k] && m.from == target.from
  {
    assert msgs[..k + 1][..k] == msgs[..k];
    KeepSender(target, msgs[..k]);
  }

  /** Any other mode selects nothing, whether or not the target is found. */
  lemma SelectUnknownMode(mode: string, target: Message, msgs: seq<Message>)
    requires mode != PrecursorSelectAll && mode != PrecursorSelectSender
    ensures Select(mode, target, msgs).related == []
  {
    match FirstIndex(msgs, target.cid)
    case Some(k) => KeepUnknownMode(mode, target, msgs[..k + 1]);
    case None => KeepUnknownMode(mode, target, msgs);
  }

  /** With a known mode, a found entry that is the target's own message ends
      the related list, so the precursors are everything before it.
   */
  lemma SelectEndsWithTarget(mode: string, target: Message, msgs: seq<Message>, k: nat)
    requires mode == PrecursorSelectAll || mode == PrecursorSelectSender
    requires FirstIndex(msgs, target.cid) == Some(k) && msgs[k] == target
    ensures var related := Select(mode, target, msgs).related;
      related != [] && related[|related| - 1] == target
  {
  }

  /** The scan never looks past the first entry carrying the target's CID:
      whatever follows it can be replaced without changing the outcome.
   */
  lemma SelectIgnoresLaterEntries(mode: string, target: Message, msgs: seq<Message>, k: nat, rest: seq<Message>)
    requires FirstIndex(msgs, target.cid) == Some(k)
    ensures Select(mode, target, msgs[..k + 1] + rest) == Select(mode, target, msgs)
  {
    var msgs' := msgs[..k + 1] + rest;
    assert msgs'[..k + 1] == msgs[..k + 1];
    var r := FirstIndex(msgs', target.cid);
    assert msgs'[k].cid == target.cid;
    assert r.Some? && r.value <= k;
  }

  /** A worked case: the target is fourth in a five-message list; the first
      two messages share its sender, the third does not. "sender" mode keeps
      the first two and the target, "all" mode keeps the first four.
   */
  lemma {:induction false} WorkedExample()
    ensures var s, o := "sender-s", "sender-o";
      var m0, m1, m2 := Message("c0", s, [0]), Message("c1", s, [1]), Message("c2", o, [2]);
      var target, m4 := Message("c3", s, [3]), Message("c4", s, [4]);
      var msgs := [m0, m1, m2, target, m4];
      && Select(PrecursorSelectSender, target, msgs) == Selection([m0, m1, target], true)
      && Select(PrecursorSelectAll, target, msgs) == Selection([m0, m1, m2, target], true)
  {
    var s, o := "sender-s", "sender-o";
    var m0, m1, m2 := Message("c0", s, [0]), Message("c1", s, [1]), Message("c2", o, [2]);
    var target, m4 := Message("c3", s, [3]), Message("c4", s, [4]);
    var msgs := [m0, m1, m2, target, m4];
    assert msgs[0].cid[1] != target.cid[1] && msgs[1].cid[1] != target.cid[1] && msgs[2].cid[1] != target.cid[1];
    assert msgs[3].cid == target.cid;
    assert FirstIndex(msgs, target.cid) == Some(3);
    SelectSender(target, msgs, 3);
    assert msgs[..3] == [m0, m1, m2];
    assert [m0][..0] == [];
    assert Keep(PrecursorSelectSender, target, [m0]) == [m0];
    assert [m0, m1][..1] == [m0];
    assert Keep(PrecursorSelectSender, target, [m0, m1]) == [m0, m1];
    assert [m0, m1, m2][..2] == [m0, m1];
    assert !Selects(PrecursorSelectSender, target, m2);
    assert Keep(PrecursorSelectSender, target, [m0, m1, m2]) == [m0, m1];
    SelectAll(target, msgs);
    assert msgs[..4] == [m0, m1, m2, target];
  }
}

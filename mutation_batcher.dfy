/**
 * The body of the document-wide `MutationObserver` callback up to the call of
 * `processMutations`: it turns a batch of mutation records into the flat list
 * of `(container, node)` pairs. Records with no added and no removed nodes are
 * skipped; within a record the added nodes come before the removed ones; a
 * node that is not an element, or whose tag is ignored, yields nothing; any
 * other node yields its own pair followed by one pair per `[id],[class]`
 * descendant, all with the record's target as container.
 */
module MutationBatcher {
  import opened Wrappers
  import opened Dom
  import opened Seqs

  /** `IGNORED_HTML_TAGS`. */
  const IGNORED_HTML_TAGS: set<string> := {"BR", "HEAD", "LINK", "META", "SCRIPT", "STYLE"}

  /** A node the batcher does not skip: an element whose `nodeName` is not ignored. */
  predicate Kept(doc: Document, n: Handle)
  {
    doc.Node(n).isElement && doc.Node(n).nodeName !in IGNORED_HTML_TAGS
  }

  /** The pairs `(target, h)` for every `h` of `hs`, in order. */
  function WithContainer(target: Handle, hs: seq<Handle>): (ps: seq<PendingNode>)
    ensures |ps| == |hs|
    ensures forall i :: 0 <= i < |hs| ==> ps[i] == PendingNode(Some(target), hs[i])
  {
    if hs == [] then [] else [PendingNode(Some(target), hs[0])] + WithContainer(target, hs[1..])
  }

  /** What one added or removed node contributes. */
  function NodePairs(doc: Document, target: Handle, n: Handle): (ps: seq<PendingNode>)
    ensures ps == [] <==> !Kept(doc, n)
    ensures ps != [] ==> ps[0] == PendingNode(Some(target), n)
    ensures forall i :: 0 <= i < |ps| ==> ps[i].container == Some(target)
  {
    if !Kept(doc, n) then []
    else
      var info := doc.Node(n);
      [PendingNode(Some(target), n)] + (if info.childElementCount == 0 then [] else WithContainer(target, info.idOrClassDescendants))
  }

  /** An element named by one of the six ignored tags contributes nothing, descendants included. */
  lemma IgnoredTagsYieldNothing(doc: Document, target: Handle, n: Handle)
    requires doc.Node(n).nodeName in ["BR", "HEAD", "LINK", "META", "SCRIPT", "STYLE"]
    ensures NodePairs(doc, target, n) == []
  {
  }

  function NodesPairs(doc: Document, target: Handle, ns: seq<Handle>): (ps: seq<PendingNode>)
    ensures forall i :: 0 <= i < |ps| ==> ps[i].container == Some(target)
  {
    if ns == [] then [] else NodePairs(doc, target, ns[0]) + NodesPairs(doc, target, ns[1..])
  }

  function RecordPairs(doc: Document, r: MutationRecord): (ps: seq<PendingNode>)
    ensures |r.addedNodes| == 0 && |r.removedNodes| == 0 ==> ps == []
    ensures forall i :: 0 <= i < |ps| ==> ps[i].container == Some(r.target)
  {
    if |r.addedNodes| == 0 && |r.removedNodes| == 0 then []
    else NodesPairs(doc, r.target, r.addedNodes) + NodesPairs(doc, r.target, r.removedNodes)
  }

  /** The pending list of a whole batch (the reference definition). */
  function Pending(doc: Document, records: seq<MutationRecord>): (ps: seq<PendingNode>)
  {
    if records == [] then [] else RecordPairs(doc, records[0]) + Pending(doc, records[1..])
  }

  /** The inner loop body for one added or removed node: skip it, or push its pair and then
      those of its `[id],[class]` descendants. */
  method PushNode(doc: Document, target: Handle, node: Handle, pending: seq<PendingNode>) returns (pending': seq<PendingNode>)
    ensures pending' == pending + NodePairs(doc, target, node)
  {
    pending' := pending;
    var info := doc.Node(node);
    if !info.isElement || info.nodeName in IGNORED_HTML_TAGS {
      return;
    }
    pending' := pending' + [PendingNode(Some(target), node)];
    if info.childElementCount == 0 {
      return;
    }
    var descendants := info.idOrClassDescendants;
    ConcatAssoc(pending, [PendingNode(Some(target), node)], WithContainer(target, descendants));
    var d := 0;
    while d < |descendants|
      invariant 0 <= d <= |descendants|
      invariant pending' + WithContainer(target, descendants[d..]) == pending + NodePairs(doc, target, node)
    {
      assert descendants[d..][1..] == descendants[d + 1..];
      ConcatAssoc(pending', [PendingNode(Some(target), descendants[d])], WithContainer(target, descendants[d + 1..]));
      pending' := pending' + [PendingNode(Some(target), descendants[d])];
      d := d + 1;
    }
  }

  /** One iteration of the callback's loop over the records: skip a record with no added
      and no removed nodes, else go through the added nodes and then the removed ones. */
  method PushRecord(doc: Document, r: MutationRecord, pending: seq<PendingNode>) returns (pending': seq<PendingNode>)
    ensures pending' == pending + RecordPairs(doc, r)
  {
    pending' := pending;
    if |r.addedNodes| == 0 && |r.removedNodes| == 0 {
      return;
    }
    ghost var added := NodesPairs(doc, r.target, r.addedNodes);
    ghost var removed := NodesPairs(doc, r.target, r.removedNodes);
    var i := 0;
    while i < 2
      invariant 0 <= i <= 2
      invariant i == 0 ==> pending' == pending
      invariant i == 1 ==> pending' == pending + added
      invariant i == 2 ==> pending' == pending + (added + removed)
    {
      var nodes := if i == 0 then r.addedNodes else r.removedNodes;
      ghost var start := pending';
      var j := 0;
      while j < |nodes|
        invariant 0 <= j <= |nodes|
        invariant pending' + NodesPairs(doc, r.target, nodes[j..]) == start + NodesPairs(doc, r.target, nodes)
      {
        var node := nodes[j];
        assert nodes[j..][1..] == nodes[j + 1..];
        ConcatAssoc(pending', NodePairs(doc, r.target, node), NodesPairs(doc, r.target, nodes[j + 1..]));
        pending' := PushNode(doc, r.target, node, pending');
        j := j + 1;
      }
      if i == 1 {
        ConcatAssoc(pending, added, removed);
      }
      i := i + 1;
    }
  }

  /** The callback's loop over the records, building `pendingNodes`. */
  method CollectPending(doc: Document, records: seq<MutationRecord>) returns (pending: seq<PendingNode>)
    ensures pending == Pending(doc, records)
  {
    pending := [];
    var k := 0;
    while k < |records|
      invariant 0 <= k <= |records|
      invariant pending + Pending(doc, records[k..]) == Pending(doc, records)
    {
      assert records[k..][1..] == records[k + 1..];
      ConcatAssoc(pending, RecordPairs(doc, records[k]), Pending(doc, records[k + 1..]));
      pending := PushRecord(doc, records[k], pending);
      k := k + 1;
    }
  }

  /** Node `n`, added or removed, puts `h` in the pending list: `n` is a kept element and
      `h` is `n` itself or one of its `[id],[class]` descendants. */
  ghost predicate Yields(doc: Document, n: Handle, h: Handle)
  {
    Kept(doc, n) && (h == n || (doc.Node(n).childElementCount > 0 && h in doc.Node(n).idOrClassDescendants))
  }

  lemma NodePairsMembership(doc: Document, target: Handle, n: Handle, p: PendingNode)
    ensures p in NodePairs(doc, target, n) <==> p.container == Some(target) && Yields(doc, n, p.node)
  {
    if Kept(doc, n) && doc.Node(n).childElementCount > 0 && p.container == Some(target) && p.node in doc.Node(n).idOrClassDescendants {
      var i :| 0 <= i < |doc.Node(n).idOrClassDescendants| && doc.Node(n).idOrClassDescendants[i] == p.node;
      assert WithContainer(target, doc.Node(n).idOrClassDescendants)[i] == p;
    }
  }

  lemma {:induction false} NodesPairsMembership(doc: Document, target: Handle, ns: seq<Handle>, p: PendingNode)
    ensures p in NodesPairs(doc, target, ns) <==> p.container == Some(target) && exists n :: n in ns && Yields(doc, n, p.node)
  {
    if ns != [] {
      NodePairsMembership(doc, target, ns[0], p);
      NodesPairsMembership(doc, target, ns[1..], p);
      if exists n :: n in ns && Yields(doc, n, p.node) {
        var n :| n in ns && Yields(doc, n, p.node);
        if n != ns[0] { assert n in ns[1..]; }
      }
    }
  }

  /** A pair is pending exactly when some record of the batch has it: its container is that
      record's target and it comes from one of the record's added or removed nodes. Nothing
      else is ever pending, and nothing a record yields is lost. */
  lemma {:induction false} PendingMembership(doc: Document, records: seq<MutationRecord>, p: PendingNode)
    ensures p in Pending(doc, records) <==>
      exists k :: 0 <= k < |records| && p.container == Some(records[k].target)
        && exists n :: (n in records[k].addedNodes || n in records[k].removedNodes) && Yields(doc, n, p.node)
  {
    if records != [] {
      var r := records[0];
      NodesPairsMembership(doc, r.target, r.addedNodes, p);
      NodesPairsMembership(doc, r.target, r.removedNodes, p);
      PendingMembership(doc, records[1..], p);
      if p in Pending(doc, records[1..]) {
        var k :| 0 <= k < |records[1..]| && p.container == Some(records[1..][k].target)
          && exists n :: (n in records[1..][k].addedNodes || n in records[1..][k].removedNodes) && Yields(doc, n, p.node);
        assert records[1..][k] == records[k + 1];
      }
      if exists k :: (0 <= k < |records| && p.container == Some(records[k].target)
                      && exists n :: (n in records[k].addedNodes || n in records[k].removedNodes) && Yields(doc, n, p.node)) {
        var k :| 0 <= k < |records| && p.container == Some(records[k].target)
          && exists n :: (n in records[k].addedNodes || n in records[k].removedNodes) && Yields(doc, n, p.node);
        if k > 0 {
          assert records[1..][k - 1] == records[k];
        }
      }
    }
  }

  /** Records are handled in order: a batch's list is the lists of its parts, one after another. */
  lemma {:induction false} PendingConcat(doc: Document, a: seq<MutationRecord>, b: seq<MutationRecord>)
    ensures Pending(doc, a + b) == Pending(doc, a) + Pending(doc, b)
  {
    if a != [] {
      assert (a + b)[1..] == a[1..] + b;
      PendingConcat(doc, a[1..], b);
      ConcatAssoc(RecordPairs(doc, a[0]), Pending(doc, a[1..]), Pending(doc, b));
    } else {
      assert a + b == b;
    }
  }
}

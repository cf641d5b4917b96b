/**
 * `processMutations` and `processObservedResults`: for each pending
 * `(container, node)` pair the entries under the node's trimmed id are handled
 * first, then, class by class, the entries under each trimmed class name. Each
 * entry resolves the element to report, starts or stops its attribute
 * observer, and emits `(selector, element, isConnected)`.
 *
 * The effect of this processing on the observer is the `Sink`: the
 * attribute-observer table (`attributeObservers`, keyed by the entry's
 * identity), every attribute observer ever created, and the log of `emit`
 * calls. An exception thrown on the way (a selector the browser rejects, or
 * `null.isConnected`) ends the processing with the effects so far in place:
 * `Run.ok` is false.
 */
module MatchResolver {
  import opened Wrappers
  import opened Text
  import opened Dom
  import opened SelectorIndex
  import opened Seqs

  /** The emitter's subscribers: callback identities per event key (the full selector). */
  type Callback = nat
  type Listeners = map<string, multiset<Callback>>

  function ListenersOf(ls: Listeners, selector: string): (cbs: multiset<Callback>)
  {
    if selector in ls then ls[selector] else multiset{}
  }

  /** One `emit(selector, element, isConnected)`, with the callbacks it reached. */
  datatype Event = Event(selector: string, element: Handle, isConnected: bool, delivered: multiset<Callback>)

  /** An attribute `MutationObserver` created by `startAttributeObserver`; `active` until disconnected. */
  datatype AttrObserver = AttrObserver(selector: string, element: Handle, active: bool)

  /** `table` maps an entry's uid to the index of its observer in `observers`. */
  datatype Sink = Sink(table: map<nat, nat>, observers: seq<AttrObserver>, events: seq<Event>)

  datatype Run = Run(sink: Sink, ok: bool)

  /** The table only holds live observers, and no two entries share one. */
  ghost predicate SinkValid(s: Sink)
  {
    && (forall u :: u in s.table ==> s.table[u] < |s.observers| && s.observers[s.table[u]].active)
    && (forall u, v :: u in s.table && v in s.table && u != v ==> s.table[u] != s.table[v])
  }

  /** Every slot of the table belongs to an entry created before `bound`. */
  ghost predicate TableBelow(s: Sink, bound: nat)
  {
    forall u :: u in s.table ==> u < bound
  }

  /** `startAttributeObserver(entry, el)`: always a new observer on `el`, written over the
      entry's slot; an observer already in that slot is neither disconnected nor kept. */
  function StartObserver(s: Sink, e: WatchEntry, el: Handle): (r: Sink)
    ensures e.uid in r.table && r.table[e.uid] == |s.observers| == |r.observers| - 1
    ensures r.observers[|s.observers|] == AttrObserver(e.selector, el, true)
    ensures r.observers[..|s.observers|] == s.observers && r.events == s.events
    ensures forall u :: u != e.uid ==> (u in r.table <==> u in s.table) && (u in s.table ==> r.table[u] == s.table[u])
  {
    Sink(s.table[e.uid := |s.observers|], s.observers + [AttrObserver(e.selector, el, true)], s.events)
  }

  /** `stopAttributeObserver(entry)`: disconnect and forget the entry's observer, if it has one. */
  function StopObserver(s: Sink, uid: nat): (r: Sink)
    ensures uid !in r.table && |r.observers| == |s.observers| && r.events == s.events
    ensures uid !in s.table ==> r == s
    ensures uid in s.table && s.table[uid] < |s.observers| ==> !r.observers[s.table[uid]].active
    ensures forall u :: u != uid ==> (u in r.table <==> u in s.table) && (u in s.table ==> r.table[u] == s.table[u])
    ensures forall i :: 0 <= i < |s.observers| && (uid !in s.table || i != s.table[uid]) ==> r.observers[i] == s.observers[i]
  {
    if uid !in s.table then s
    else
      var i := s.table[uid];
      var observers := if i < |s.observers| then s.observers[i := s.observers[i].(active := false)] else s.observers;
      Sink(s.table - {uid}, observers, s.events)
  }

  lemma StartPreservesValid(s: Sink, e: WatchEntry, el: Handle)
    requires SinkValid(s)
    ensures SinkValid(StartObserver(s, e, el))
  {
    var r := StartObserver(s, e, el);
    forall u | u in r.table ensures r.table[u] < |r.observers| && r.observers[r.table[u]].active {
      if u != e.uid { assert r.observers[r.table[u]] == s.observers[s.table[u]]; }
    }
  }

  lemma StopPreservesValid(s: Sink, uid: nat)
    requires SinkValid(s)
    ensures SinkValid(StopObserver(s, uid))
  {
  }

  /** Starting twice for one entry leaks the first observer: still active, but unreachable
      from the table, so no later `stopAttributeObserver` can disconnect it. */
  lemma RestartLeaksObserver(s: Sink, e: WatchEntry, el1: Handle, el2: Handle)
    requires SinkValid(s)
    ensures var r := StartObserver(StartObserver(s, e, el1), e, el2);
      && r.observers[|s.observers|] == AttrObserver(e.selector, el1, true)
      && (forall u :: u in r.table ==> r.table[u] != |s.observers|)
  {
    var r1 := StartObserver(s, e, el1);
    StartPreservesValid(s, e, el1);
  }

  /** How one entry resolves the element to report. */
  datatype Resolution = Skip | Found(target: Handle) | Thrown

  /** `processObservedResults`' choice of `foundNode` for one entry: the node itself, or the
      node's first descendant matching the FULL selector when the partial selector has a
      space; then `useParentNode` resets it to the node and `useTargetNode` sets it to the
      container. A null query result skips the entry whatever the flags say. */
  function ResolveTarget(doc: Document, container: Option<Handle>, node: Handle, e: WatchEntry): (r: Resolution)
    ensures r.Skip? <==> ' ' in e.partialSelector && QuerySelector(doc, node, e.selector).NoMatch?
    ensures ' ' in e.partialSelector && e.selector in doc.invalidSelectors ==> r.Thrown?
    ensures r.Found? && e.options.useTargetNode ==> container == Some(r.target)
    ensures r.Found? && !e.options.useTargetNode && (e.options.useParentNode || ' ' !in e.partialSelector) ==> r.target == node
    ensures r.Found? && !e.options.useTargetNode && !e.options.useParentNode && ' ' in e.partialSelector ==>
      (node, e.selector) in doc.querySelector && r.target == doc.querySelector[(node, e.selector)]
    ensures r.Thrown? && !(' ' in e.partialSelector && e.selector in doc.invalidSelectors) ==>
      e.options.useTargetNode && container.None?
  {
    var query := if ' ' in e.partialSelector then QuerySelector(doc, node, e.selector) else Match(node);
    match query
    case Throws => Thrown
    case NoMatch => Skip
    case Match(found) =>
      var chosen := if e.options.useParentNode then node else found;
      if !e.options.useTargetNode then Found(chosen)
      else if container.Some? then Found(container.value)
      else Thrown
  }

  /** One iteration of `processObservedResults`' loop. */
  function EntryStep(s: Sink, doc: Document, ls: Listeners, container: Option<Handle>, node: Handle, e: WatchEntry): (r: Run)
    ensures !r.ok ==> r.sink == s
    ensures |s.events| <= |r.sink.events| <= |s.events| + 1
    ensures |s.observers| <= |r.sink.observers| <= |s.observers| + 1
  {
    match ResolveTarget(doc, container, node, e)
    case Skip => Run(s, true)
    case Thrown => Run(s, false)
    case Found(t) =>
      var connected := doc.Node(t).isConnected;
      var s1 := if !e.options.attributes then s
                else if connected then StartObserver(s, e, t)
                else StopObserver(s, e.uid);
      Run(s1.(events := s1.events + [Event(e.selector, t, connected, ListenersOf(ls, e.selector))]), true)
  }

  /** `processObservedResults(emitter, container, node, entries)`. */
  function EntriesStep(s: Sink, doc: Document, ls: Listeners, container: Option<Handle>, node: Handle, es: seq<WatchEntry>): (r: Run)
    ensures |s.events| <= |r.sink.events| <= |s.events| + |es|
    ensures |s.observers| <= |r.sink.observers| <= |s.observers| + |es|
    decreases es
  {
    if es == [] then Run(s, true)
    else
      var r := EntryStep(s, doc, ls, container, node, es[0]);
      if !r.ok then r else EntriesStep(r.sink, doc, ls, container, node, es[1..])
  }

  /** The class half of one `processMutations` iteration: each class of `names`, trimmed, in order. */
  function ClassesStep(s: Sink, doc: Document, ls: Listeners, classes: Index, container: Option<Handle>, node: Handle, names: seq<string>): (r: Run)
    ensures |s.events| <= |r.sink.events| && |s.observers| <= |r.sink.observers|
    decreases names
  {
    if names == [] then Run(s, true)
    else
      var r := EntriesStep(s, doc, ls, container, node, Lookup(classes, Trim(names[0])));
      if !r.ok then r else ClassesStep(r.sink, doc, ls, classes, container, node, names[1..])
  }

  /** One iteration of `processMutations`: the trimmed id's entries (only if the raw id is
      non-empty), then the classes'. */
  function PairStep(s: Sink, doc: Document, ls: Listeners, ids: Index, classes: Index, p: PendingNode): (r: Run)
    ensures |s.events| <= |r.sink.events| && |s.observers| <= |r.sink.observers|
  {
    var info := doc.Node(p.node);
    var r := if |info.id| > 0 then EntriesStep(s, doc, ls, p.container, p.node, Lookup(ids, Trim(info.id))) else Run(s, true);
    if !r.ok then r else ClassesStep(r.sink, doc, ls, classes, p.container, p.node, info.classList)
  }

  /** `processMutations(emitter, pairs)`. */
  function PairsStep(s: Sink, doc: Document, ls: Listeners, ids: Index, classes: Index, ps: seq<PendingNode>): (r: Run)
    ensures |s.events| <= |r.sink.events| && |s.observers| <= |r.sink.observers|
    decreases ps
  {
    if ps == [] then Run(s, true)
    else
      var r := PairStep(s, doc, ls, ids, classes, ps[0]);
      if !r.ok then r else PairsStep(r.sink, doc, ls, ids, classes, ps[1..])
  }

  /** What one entry does, by how it resolved: nothing when skipped; on a found element, the
      attribute step first (a fresh observer in the entry's slot when connected, the slot
      emptied when not), then exactly one event for that element. */
  lemma EntryStepOutcome(s: Sink, doc: Document, ls: Listeners, container: Option<Handle>, node: Handle, e: WatchEntry)
    ensures var res := ResolveTarget(doc, container, node, e);
      var r := EntryStep(s, doc, ls, container, node, e);
      && (res.Skip? ==> r == Run(s, true))
      && (res.Thrown? ==> r == Run(s, false))
      && (res.Found? ==>
        var connected := doc.Node(res.target).isConnected;
        && r.ok
        && r.sink.events == s.events + [Event(e.selector, res.target, connected, ListenersOf(ls, e.selector))]
        && (e.options.attributes && connected ==>
              r.sink.table == s.table[e.uid := |s.observers|]
              && r.sink.observers == s.observers + [AttrObserver(e.selector, res.target, true)])
        && (e.options.attributes && !connected ==> e.uid !in r.sink.table)
        && (!e.options.attributes ==> r.sink.table == s.table && r.sink.observers == s.observers))
  {
  }

  /** `r` grows out of `s` under the listeners `ls`: the event log only gets longer, each new
      event reached exactly the callbacks registered for its selector, observers are only
      added, and an observer once disconnected stays disconnected. */
  ghost predicate Extends(s: Sink, r: Sink, ls: Listeners)
  {
    && s.events <= r.events
    && (forall i :: |s.events| <= i < |r.events| ==> r.events[i].delivered == ListenersOf(ls, r.events[i].selector))
    && |s.observers| <= |r.observers|
    && forall i :: 0 <= i < |s.observers| ==>
         && r.observers[i].selector == s.observers[i].selector
         && r.observers[i].element == s.observers[i].element
         && (r.observers[i].active ==> s.observers[i].active)
  }

  lemma ExtendsTransitive(a: Sink, b: Sink, c: Sink, ls: Listeners)
    requires Extends(a, b, ls) && Extends(b, c, ls)
    ensures Extends(a, c, ls)
  {
  }

  /** The attribute step of one entry keeps the table's invariants and adds no event. */
  lemma AttributeStepKeeps(s: Sink, ls: Listeners, e: WatchEntry, t: Handle, connected: bool, bound: nat)
    requires SinkValid(s) && TableBelow(s, bound) && e.uid < bound
    ensures var s1 := if !e.options.attributes then s
                      else if connected then StartObserver(s, e, t)
                      else StopObserver(s, e.uid);
      SinkValid(s1) && TableBelow(s1, bound) && Extends(s, s1, ls) && s1.events == s.events
  {
    if e.options.attributes {
      if connected {
        StartPreservesValid(s, e, t);
      } else {
        StopPreservesValid(s, e.uid);
      }
    }
  }

  /** Emitting an event to the selector's current listeners keeps everything else. */
  lemma EmitKeeps(s: Sink, ls: Listeners, selector: string, t: Handle, connected: bool, bound: nat)
    requires SinkValid(s) && TableBelow(s, bound)
    ensures var r := s.(events := s.events + [Event(selector, t, connected, ListenersOf(ls, selector))]);
      SinkValid(r) && TableBelow(r, bound) && Extends(s, r, ls)
  {
  }

  lemma EntryStepKeeps(s: Sink, doc: Document, ls: Listeners, container: Option<Handle>, node: Handle, e: WatchEntry, bound: nat)
    requires SinkValid(s) && TableBelow(s, bound) && e.uid < bound
    ensures SinkValid(EntryStep(s, doc, ls, container, node, e).sink)
    ensures TableBelow(EntryStep(s, doc, ls, container, node, e).sink, bound)
    ensures Extends(s, EntryStep(s, doc, ls, container, node, e).sink, ls)
  {
    match ResolveTarget(doc, container, node, e)
    case Skip =>
    case Thrown =>
    case Found(t) =>
      var connected := doc.Node(t).isConnected;
      var s1 := if !e.options.attributes then s
                else if connected then StartObserver(s, e, t)
                else StopObserver(s, e.uid);
      AttributeStepKeeps(s, ls, e, t, connected, bound);
      EmitKeeps(s1, ls, e.selector, t, connected, bound);
      ExtendsTransitive(s, s1, s1.(events := s1.events + [Event(e.selector, t, connected, ListenersOf(ls, e.selector))]), ls);
  }

  lemma {:induction false} EntriesStepKeeps(s: Sink, doc: Document, ls: Listeners, container: Option<Handle>, node: Handle, es: seq<WatchEntry>, bound: nat)
    requires SinkValid(s) && TableBelow(s, bound) && forall e :: e in es ==> e.uid < bound
    ensures SinkValid(EntriesStep(s, doc, ls, container, node, es).sink)
    ensures TableBelow(EntriesStep(s, doc, ls, container, node, es).sink, bound)
    ensures Extends(s, EntriesStep(s, doc, ls, container, node, es).sink, ls)
    decreases es
  {
    if es != [] {
      var r := EntryStep(s, doc, ls, container, node, es[0]);
      EntryStepKeeps(s, doc, ls, container, node, es[0], bound);
      if r.ok {
        EntriesStepKeeps(r.sink, doc, ls, container, node, es[1..], bound);
        ExtendsTransitive(s, r.sink, EntriesStep(r.sink, doc, ls, container, node, es[1..]).sink, ls);
      }
    }
  }

  lemma {:induction false} ClassesStepKeeps(s: Sink, doc: Document, ls: Listeners, classes: Index, container: Option<Handle>, node: Handle, names: seq<string>, bound: nat)
    requires SinkValid(s) && TableBelow(s, bound) && IndexBelow(classes, bound)
    ensures SinkValid(ClassesStep(s, doc, ls, classes, container, node, names).sink)
    ensures TableBelow(ClassesStep(s, doc, ls, classes, container, node, names).sink, bound)
    ensures Extends(s, ClassesStep(s, doc, ls, classes, container, node, names).sink, ls)
    decreases names
  {
    if names != [] {
      var r := EntriesStep(s, doc, ls, container, node, Lookup(classes, Trim(names[0])));
      EntriesStepKeeps(s, doc, ls, container, node, Lookup(classes, Trim(names[0])), bound);
      if r.ok {
        ClassesStepKeeps(r.sink, doc, ls, classes, container, node, names[1..], bound);
        ExtendsTransitive(s, r.sink, ClassesStep(r.sink, doc, ls, classes, container, node, names[1..]).sink, ls);
      }
    }
  }

  lemma PairStepKeeps(s: Sink, doc: Document, ls: Listeners, ids: Index, classes: Index, p: PendingNode, bound: nat)
    requires SinkValid(s) && TableBelow(s, bound) && IndexBelow(ids, bound) && IndexBelow(classes, bound)
    ensures SinkValid(PairStep(s, doc, ls, ids, classes, p).sink)
    ensures TableBelow(PairStep(s, doc, ls, ids, classes, p).sink, bound)
    ensures Extends(s, PairStep(s, doc, ls, ids, classes, p).sink, ls)
  {
    var info := doc.Node(p.node);
    var r := if |info.id| > 0 then EntriesStep(s, doc, ls, p.container, p.node, Lookup(ids, Trim(info.id))) else Run(s, true);
    if |info.id| > 0 {
      EntriesStepKeeps(s, doc, ls, p.container, p.node, Lookup(ids, Trim(info.id)), bound);
    }
    if r.ok {
      ClassesStepKeeps(r.sink, doc, ls, classes, p.container, p.node, info.classList, bound);
      ExtendsTransitive(s, r.sink, ClassesStep(r.sink, doc, ls, classes, p.container, p.node, info.classList).sink, ls);
    }
  }

  /** Processing a batch keeps the attribute table's invariant (slots only for entries that exist), only appends to the event log
      and never revives a disconnected observer. */
  lemma {:induction false} PairsStepKeeps(s: Sink, doc: Document, ls: Listeners, ids: Index, classes: Index, ps: seq<PendingNode>, bound: nat)
    requires SinkValid(s) && TableBelow(s, bound) && IndexBelow(ids, bound) && IndexBelow(classes, bound)
    ensures SinkValid(PairsStep(s, doc, ls, ids, classes, ps).sink)
    ensures TableBelow(PairsStep(s, doc, ls, ids, classes, ps).sink, bound)
    ensures Extends(s, PairsStep(s, doc, ls, ids, classes, ps).sink, ls)
    decreases ps
  {
    if ps != [] {
      var r := PairStep(s, doc, ls, ids, classes, ps[0]);
      PairStepKeeps(s, doc, ls, ids, classes, ps[0], bound);
      if r.ok {
        PairsStepKeeps(r.sink, doc, ls, ids, classes, ps[1..], bound);
        ExtendsTransitive(s, r.sink, PairsStep(r.sink, doc, ls, ids, classes, ps[1..]).sink, ls);
      }
    }
  }

  /** An entry that reports the mutated node itself and tracks no attributes. */
  predicate Plain(e: WatchEntry)
  {
    ' ' !in e.partialSelector && e.options == NO_OPTIONS
  }

  /** The events plain entries `es` emit for `node`, one per entry, in list order. */
  function Emissions(es: seq<WatchEntry>, node: Handle, connected: bool, ls: Listeners): (evs: seq<Event>)
    ensures |evs| == |es|
    ensures forall i :: 0 <= i < |es| ==> evs[i] == Event(es[i].selector, node, connected, ListenersOf(ls, es[i].selector))
  {
    if es == [] then [] else [Event(es[0].selector, node, connected, ListenersOf(ls, es[0].selector))] + Emissions(es[1..], node, connected, ls)
  }

  /** A plain entry emits one event for the node itself and changes nothing else. */
  lemma PlainEntryEmits(s: Sink, doc: Document, ls: Listeners, container: Option<Handle>, node: Handle, e: WatchEntry)
    requires Plain(e)
    ensures EntryStep(s, doc, ls, container, node, e)
         == Run(s.(events := s.events + [Event(e.selector, node, doc.Node(node).isConnected, ListenersOf(ls, e.selector))]), true)
  {
    assert ResolveTarget(doc, container, node, e) == Found(node);
  }

  /** Plain entries each emit once for the node, in registration order, and touch nothing else. */
  lemma {:induction false} PlainEntriesEmit(s: Sink, doc: Document, ls: Listeners, container: Option<Handle>, node: Handle, es: seq<WatchEntry>)
    requires forall e :: e in es ==> Plain(e)
    ensures EntriesStep(s, doc, ls, container, node, es)
         == Run(s.(events := s.events + Emissions(es, node, doc.Node(node).isConnected, ls)), true)
    decreases es
  {
    if es != [] {
      var c := doc.Node(node).isConnected;
      var ev := Event(es[0].selector, node, c, ListenersOf(ls, es[0].selector));
      PlainEntryEmits(s, doc, ls, container, node, es[0]);
      var s1 := s.(events := s.events + [ev]);
      PlainEntriesEmit(s1, doc, ls, container, node, es[1..]);
      ConcatAssoc(s.events, [ev], Emissions(es[1..], node, c, ls));
    }
  }

  /** Every entry of an index is plain. */
  ghost predicate AllPlain(idx: Index)
  {
    forall k, e :: k in idx && e in idx[k] ==> Plain(e)
  }

  lemma LookupPlain(idx: Index, key: string)
    requires AllPlain(idx)
    ensures forall e :: e in Lookup(idx, key) ==> Plain(e)
  {
  }

  /** The events of the class lookups, class by class, duplicates included. */
  function ClassEmissions(classes: Index, names: seq<string>, node: Handle, connected: bool, ls: Listeners): (evs: seq<Event>)
  {
    if names == [] then []
    else Emissions(Lookup(classes, Trim(names[0])), node, connected, ls) + ClassEmissions(classes, names[1..], node, connected, ls)
  }

  /** With plain subscriptions, one pending node emits the id entries' events first (only if
      its raw id is non-empty), then those of each class in `classList` order, with no
      deduplication across the id and the classes or between repeated classes. */
  lemma PairStepOrder(s: Sink, doc: Document, ls: Listeners, ids: Index, classes: Index, p: PendingNode)
    requires AllPlain(ids) && AllPlain(classes)
    ensures var info := doc.Node(p.node);
      var c := info.isConnected;
      PairStep(s, doc, ls, ids, classes, p)
        == Run(s.(events := s.events
                 + (if |info.id| > 0 then Emissions(Lookup(ids, Trim(info.id)), p.node, c, ls) else [])
                 + ClassEmissions(classes, info.classList, p.node, c, ls)), true)
  {
    var info := doc.Node(p.node);
    var c := info.isConnected;
    var idEvents := if |info.id| > 0 then Emissions(Lookup(ids, Trim(info.id)), p.node, c, ls) else [];
    var s1 := s.(events := s.events + idEvents);
    if |info.id| > 0 {
      var es := Lookup(ids, Trim(info.id));
      LookupPlain(ids, Trim(info.id));
      PlainEntriesEmit(s, doc, ls, p.container, p.node, es);
    } else {
      assert s1 == s;
    }
    PlainClassesEmit(s1, doc, ls, classes, p.container, p.node, info.classList);
  }

  lemma {:induction false} PlainClassesEmit(s: Sink, doc: Document, ls: Listeners, classes: Index, container: Option<Handle>, node: Handle, names: seq<string>)
    requires AllPlain(classes)
    ensures ClassesStep(s, doc, ls, classes, container, node, names)
         == Run(s.(events := s.events + ClassEmissions(classes, names, node, doc.Node(node).isConnected, ls)), true)
    decreases names
  {
    if names != [] {
      var c := doc.Node(node).isConnected;
      var key := Trim(names[0]);
      var es := Lookup(classes, key);
      LookupPlain(classes, key);
      PlainEntriesEmit(s, doc, ls, container, node, es);
      var s1 := s.(events := s.events + Emissions(es, node, c, ls));
      assert EntriesStep(s, doc, ls, container, node, es) == Run(s1, true);
      assert ClassesStep(s, doc, ls, classes, container, node, names) == ClassesStep(s1, doc, ls, classes, container, node, names[1..]);
      PlainClassesEmit(s1, doc, ls, classes, container, node, names[1..]);
      var rest := ClassEmissions(classes, names[1..], node, c, ls);
      assert ClassEmissions(classes, names, node, c, ls) == Emissions(es, node, c, ls) + rest;
      ConcatAssoc(s.events, Emissions(es, node, c, ls), rest);
    }
  }

  /** A node whose trimmed id and trimmed classes index nothing changes nothing. */
  lemma UnmatchedPairIsNoOp(s: Sink, doc: Document, ls: Listeners, ids: Index, classes: Index, p: PendingNode)
    requires |doc.Node(p.node).id| == 0 || Trim(doc.Node(p.node).id) !in ids
    requires forall c :: c in doc.Node(p.node).classList ==> Trim(c) !in classes
    ensures PairStep(s, doc, ls, ids, classes, p) == Run(s, true)
  {
    NoClassesIsNoOp(s, doc, ls, classes, p.container, p.node, doc.Node(p.node).classList);
  }

  lemma {:induction false} NoClassesIsNoOp(s: Sink, doc: Document, ls: Listeners, classes: Index, container: Option<Handle>, node: Handle, names: seq<string>)
    requires forall c :: c in names ==> Trim(c) !in classes
    ensures ClassesStep(s, doc, ls, classes, container, node, names) == Run(s, true)
    decreases names
  {
    if names != [] {
      NoClassesIsNoOp(s, doc, ls, classes, container, node, names[1..]);
    }
  }
}

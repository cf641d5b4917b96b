/**
 * The `DOMObserver` class: the two selector indexes, the attribute-observer
 * table and, since the class extends the emitter, the emitter's listeners and
 * the log of its `emit` calls. `On` and `Off` are the public `on`/`off`;
 * `HandleMutations` is the body of the document-wide `MutationObserver`
 * callback; `OnAttributeMutation` is the body of an attribute observer's
 * callback. `ObserveElement` and `Dispose` are the exported
 * `observeElement` and the function it returns.
 */
module Observer {
  import opened Wrappers
  import opened Text
  import opened Dom
  import opened SelectorParser
  import opened SelectorIndex
  import opened MatchResolver
  import opened MutationBatcher

  /** What `on`'s loop over the results of one kind leaves: the index, the next entry
      identity, the elements for the seed pass, and whether `querySelectorAll` threw. */
  datatype Registration = Registration(idx: Index, next: nat, seeds: seq<Handle>, ok: bool)

  /** `on`'s loop over one kind: each result appends a new entry under its key, then the
      elements the seed pass will classify are collected: `querySelectorAll('#' + key)` for
      ids (which throws on a key that is no valid selector), `getElementsByClassName(key)` for
      classes. A throw ends `on` with the entries appended so far in place. */
  function RegisterKind(idx: Index, next: nat, rs: seq<ParsedResult>, selector: string, options: Options, doc: Document, isId: bool): (r: Registration)
    decreases rs
  {
    if rs == [] then Registration(idx, next, [], true)
    else
      var idx' := Register(idx, rs[0].key, WatchEntry(next, rs[0].partialSelector, selector, options));
      var found := if isId then QueryAll(doc, [ID_SIGIL] + rs[0].key) else Some(ElementsByClassName(doc, rs[0].key));
      if found.None? then Registration(idx', next + 1, [], false)
      else
        var rest := RegisterKind(idx', next + 1, rs[1..], selector, options, doc, isId);
        Registration(rest.idx, rest.next, found.value + rest.seeds, rest.ok)
  }

  /** The new entries `on` appends under `key`, with identities counted from `next`. */
  function NewEntries(rs: seq<ParsedResult>, key: string, selector: string, options: Options, next: nat): (es: seq<WatchEntry>)
    decreases rs
  {
    if rs == [] then []
    else (if rs[0].key == key then [WatchEntry(next, rs[0].partialSelector, selector, options)] else [])
         + NewEntries(rs[1..], key, selector, options, next + 1)
  }

  /** When nothing throws, `on` appends exactly one entry per parsed result to its key's list,
      in order, and leaves every other entry and key as it was; each result uses one identity. */
  lemma {:induction false} RegisterKindAppends(idx: Index, next: nat, rs: seq<ParsedResult>, selector: string, options: Options, doc: Document, isId: bool)
    requires RegisterKind(idx, next, rs, selector, options, doc, isId).ok
    ensures var r := RegisterKind(idx, next, rs, selector, options, doc, isId);
      && r.next == next + |rs|
      && forall k :: Lookup(r.idx, k) == Lookup(idx, k) + NewEntries(rs, k, selector, options, next)
    decreases rs
  {
    if rs != [] {
      var idx' := Register(idx, rs[0].key, WatchEntry(next, rs[0].partialSelector, selector, options));
      RegisterKindAppends(idx', next + 1, rs[1..], selector, options, doc, isId);
      var r := RegisterKind(idx, next, rs, selector, options, doc, isId);
      forall k ensures Lookup(r.idx, k) == Lookup(idx, k) + NewEntries(rs, k, selector, options, next) {
        var mine := if rs[0].key == k then [WatchEntry(next, rs[0].partialSelector, selector, options)] else [];
        assert Lookup(idx', k) == Lookup(idx, k) + mine;
        Seqs.ConcatAssoc(Lookup(idx, k), mine, NewEntries(rs[1..], k, selector, options, next + 1));
      }
    }
  }

  /** `getElementsByClassName` never throws, so the class loop always completes. */
  lemma {:induction false} ClassKindCompletes(idx: Index, next: nat, rs: seq<ParsedResult>, selector: string, options: Options, doc: Document)
    ensures RegisterKind(idx, next, rs, selector, options, doc, false).ok
    decreases rs
  {
    if rs != [] {
      var idx' := Register(idx, rs[0].key, WatchEntry(next, rs[0].partialSelector, selector, options));
      ClassKindCompletes(idx', next + 1, rs[1..], selector, options, doc);
    }
  }

  /** A new entry numbered `e.uid`, above every entry of the index, moves the bound of the index up by one. */
  lemma RegisterKeepsBelow(idx: Index, key: string, e: WatchEntry)
    requires IndexBelow(idx, e.uid)
    ensures IndexBelow(Register(idx, key, e), e.uid + 1)
  {
    var r := Register(idx, key, e);
    forall k: string, x: WatchEntry | k in r && x in r[k] ensures x.uid < e.uid + 1 {
      if k != key || x != e { assert x in Lookup(idx, k); }
    }
  }

  /** Registration keeps the index invariant, and every entry it creates is newer than all
      identities issued before. */
  lemma RegisterKindKeeps(idx: Index, next: nat, rs: seq<ParsedResult>, selector: string, options: Options, doc: Document, isId: bool, sigil: char)
    requires sigil == (if isId then ID_SIGIL else CLASS_SIGIL)
    requires IndexValid(idx, sigil) && IndexBelow(idx, next)
    requires forall r :: r in rs ==> r in Results(ParseSelector(selector), sigil)
    ensures var r := RegisterKind(idx, next, rs, selector, options, doc, isId);
      IndexValid(r.idx, sigil) && IndexBelow(r.idx, r.next) && next <= r.next
  {
    RegisterKindValid(idx, next, rs, selector, options, doc, isId, sigil);
    RegisterKindBelow(idx, next, rs, selector, options, doc, isId);
  }

  /** Every entry `on` adds sits under a key its own selector parses to. */
  lemma {:induction false} RegisterKindValid(idx: Index, next: nat, rs: seq<ParsedResult>, selector: string, options: Options, doc: Document, isId: bool, sigil: char)
    requires sigil == (if isId then ID_SIGIL else CLASS_SIGIL)
    requires IndexValid(idx, sigil)
    requires forall r :: r in rs ==> r in Results(ParseSelector(selector), sigil)
    ensures IndexValid(RegisterKind(idx, next, rs, selector, options, doc, isId).idx, sigil)
    decreases rs
  {
    if rs != [] {
      var e := WatchEntry(next, rs[0].partialSelector, selector, options);
      assert EntryUnder(e, rs[0].key, sigil) by { assert rs[0] in rs; }
      RegisterPreservesValid(idx, rs[0].key, e, sigil);
      assert forall r :: r in rs[1..] ==> r in rs;
      RegisterKindValid(Register(idx, rs[0].key, e), next + 1, rs[1..], selector, options, doc, isId, sigil);
    }
  }

  /** Entries are numbered in order, so `next` stays above every entry of the index. */
  lemma {:induction false} RegisterKindBelow(idx: Index, next: nat, rs: seq<ParsedResult>, selector: string, options: Options, doc: Document, isId: bool)
    requires IndexBelow(idx, next)
    ensures var r := RegisterKind(idx, next, rs, selector, options, doc, isId);
      IndexBelow(r.idx, r.next) && next <= r.next
    decreases rs
  {
    if rs != [] {
      var e := WatchEntry(next, rs[0].partialSelector, selector, options);
      var idx' := Register(idx, rs[0].key, e);
      RegisterKeepsBelow(idx, rs[0].key, e);
      RegisterKindBelow(idx', next + 1, rs[1..], selector, options, doc, isId);
      var rest := RegisterKind(idx', next + 1, rs[1..], selector, options, doc, isId);
      var r := RegisterKind(idx, next, rs, selector, options, doc, isId);
      assert (r.idx, r.next) == (idx', next + 1) || (r.idx, r.next) == (rest.idx, rest.next);
    }
  }

  lemma IndexBelowRaised(idx: Index, bound: nat, bound': nat)
    requires IndexBelow(idx, bound) && bound <= bound'
    ensures IndexBelow(idx, bound')
  {
  }

  lemma TableBelowRaised(s: Sink, bound: nat, bound': nat)
    requires TableBelow(s, bound) && bound <= bound'
    ensures TableBelow(s, bound')
  {
  }

  /** What `off`'s loop over the results of one kind leaves. */
  datatype Unregistration = Unregistration(idx: Index, sink: Sink)

  /** `off`'s loop over one kind: cut each key's list at the selector's first entry, after
      stopping that entry's attribute observer. */
  function UnregisterKind(idx: Index, s: Sink, rs: seq<ParsedResult>, selector: string): (u: Unregistration)
    ensures |u.sink.observers| == |s.observers| && u.sink.events == s.events
    ensures forall k :: k !in Keys(rs) ==> Lookup(u.idx, k) == Lookup(idx, k)
    decreases rs
  {
    if rs == [] then Unregistration(idx, s)
    else
      var u := Unregister(idx, rs[0].key, selector);
      var s' := if u.stopped.Some? then StopObserver(s, u.stopped.value.uid) else s;
      UnregisterKind(u.idx, s', rs[1..], selector)
  }

  /** `off` stops only the observer of the entry it cuts at: an entry of any selector registered
      later under the same key leaves the index, but its attribute observer stays live in the
      table, where no later `off` can reach it through the index. */
  lemma OffLeaksDroppedObservers(idx: Index, s: Sink, key: string, partial: string, selector: string, j: nat)
    requires key in idx && FindFirst(idx[key], selector).Some?
    requires FindFirst(idx[key], selector).value < j < |idx[key]|
    requires idx[key][j].uid != idx[key][FindFirst(idx[key], selector).value].uid
    requires SinkValid(s) && idx[key][j].uid in s.table
    ensures var u := UnregisterKind(idx, s, [ParsedResult(key, partial)], selector);
      var uid := idx[key][j].uid;
      && |Lookup(u.idx, key)| <= j
      && uid in u.sink.table && u.sink.table[uid] == s.table[uid]
      && u.sink.table[uid] < |u.sink.observers| && u.sink.observers[u.sink.table[uid]].active
  {
    var rs := [ParsedResult(key, partial)];
    var r := Unregister(idx, key, selector);
    assert rs[1..] == [];
    StopPreservesValid(s, r.stopped.value.uid);
  }

  /** Every list of `small` is a prefix of the same key's list in `big`. */
  ghost predicate Shrunk(small: Index, big: Index)
  {
    forall k :: k in small ==> k in big && small[k] <= big[k]
  }

  /** `off`'s loop keeps the invariants and touches no event. */
  lemma {:induction false} UnregisterKindKeeps(idx: Index, s: Sink, rs: seq<ParsedResult>, selector: string, sigil: char, bound: nat)
    requires sigil == ID_SIGIL || sigil == CLASS_SIGIL
    requires IndexValid(idx, sigil) && SinkValid(s) && IndexBelow(idx, bound) && TableBelow(s, bound)
    ensures var u := UnregisterKind(idx, s, rs, selector);
      && IndexValid(u.idx, sigil) && SinkValid(u.sink) && IndexBelow(u.idx, bound) && TableBelow(u.sink, bound)
      && u.sink.events == s.events
    decreases rs
  {
    if rs != [] {
      var u := Unregister(idx, rs[0].key, selector);
      var s' := if u.stopped.Some? then StopObserver(s, u.stopped.value.uid) else s;
      UnregisterClearsSelector(idx, rs[0].key, selector, sigil);
      if u.stopped.Some? { StopPreservesValid(s, u.stopped.value.uid); }
      UnregisterKindKeeps(u.idx, s', rs[1..], selector, sigil, bound);
    }
  }

  /** `off`'s loop only ever cuts lists, and leaves no entry of the selector under any key it
      handled. */
  lemma {:induction false} UnregisterKindClears(idx: Index, s: Sink, rs: seq<ParsedResult>, selector: string, sigil: char)
    requires sigil == ID_SIGIL || sigil == CLASS_SIGIL
    requires IndexValid(idx, sigil)
    ensures var u := UnregisterKind(idx, s, rs, selector).idx;
      && Shrunk(u, idx)
      && forall r, e :: r in rs && e in Lookup(u, r.key) ==> e.selector != selector
    decreases rs
  {
    if rs != [] {
      var u := Unregister(idx, rs[0].key, selector);
      var s' := if u.stopped.Some? then StopObserver(s, u.stopped.value.uid) else s;
      UnregisterClearsSelector(idx, rs[0].key, selector, sigil);
      assert Shrunk(u.idx, idx);
      UnregisterKindClears(u.idx, s', rs[1..], selector, sigil);
      var w := UnregisterKind(u.idx, s', rs[1..], selector).idx;
      forall r, e | r in rs && e in Lookup(w, r.key) ensures e.selector != selector {
        if r !in rs[1..] {
          assert r == rs[0];
          assert e in Lookup(u.idx, r.key);
        }
      }
    }
  }

  /** The keys of a list of parsed results. */
  function Keys(rs: seq<ParsedResult>): (ks: set<string>)
  {
    set r | r in rs :: r.key
  }

  lemma KeysCons(rs: seq<ParsedResult>)
    requires rs != []
    ensures Keys(rs) == {rs[0].key} + Keys(rs[1..])
  {
    forall k | k in Keys(rs) ensures k in {rs[0].key} + Keys(rs[1..]) {
      var r :| r in rs && r.key == k;
      if r != rs[0] { assert r in rs[1..]; }
    }
  }

  /** No entry of the index belongs to `selector`. */
  ghost predicate Unwatched(idx: Index, selector: string)
  {
    forall k, e :: k in idx && e in idx[k] ==> e.selector != selector
  }

  /** `big` is `small` with entries of `selector` appended under some keys. */
  ghost predicate GrownBy(small: Index, big: Index, selector: string)
  {
    forall k :: Lookup(small, k) <= Lookup(big, k)
      && forall e :: e in Lookup(big, k)[|Lookup(small, k)|..] ==> e.selector == selector
  }

  /** The entries `on` appends belong to its selector, and only the keys it parsed get any. */
  lemma {:induction false} NewEntriesShape(rs: seq<ParsedResult>, key: string, selector: string, options: Options, next: nat)
    ensures forall e :: e in NewEntries(rs, key, selector, options, next) ==> e.selector == selector
    ensures key !in Keys(rs) ==> NewEntries(rs, key, selector, options, next) == []
    decreases rs
  {
    if rs != [] {
      NewEntriesShape(rs[1..], key, selector, options, next + 1);
      assert Keys(rs[1..]) <= Keys(rs) by {
        forall k | k in Keys(rs[1..]) ensures k in Keys(rs) {
          var r :| r in rs[1..] && r.key == k;
        }
      }
      assert rs[0].key in Keys(rs);
    }
  }

  /** One key of `off`'s loop, after `on` grew the index by the selector's entries: the key's
      list is back to what it was before `on`. */
  lemma UnregisterRestoresKey(idx: Index, j: Index, key: string, selector: string, sigil: char)
    requires sigil == ID_SIGIL || sigil == CLASS_SIGIL
    requires IndexValid(idx, sigil) && IndexValid(j, sigil)
    requires Unwatched(idx, selector) && GrownBy(idx, j, selector)
    ensures var u := Unregister(j, key, selector).idx;
      Lookup(u, key) == Lookup(idx, key) && (key in u <==> key in idx)
  {
    var old_ := Lookup(idx, key);
    var cur := Lookup(j, key);
    assert old_ <= cur;
    assert forall i :: 0 <= i < |old_| ==> cur[i] == old_[i] && cur[i].selector != selector;
    if |cur| == |old_| {
      assert cur == old_;
    } else {
      assert cur[|old_|] in cur[|old_|..];
      assert FindFirst(cur, selector) == Some(|old_|);
      assert cur[..|old_|] == old_;
    }
  }

  /** The rest of one key's step: other keys are untouched, and the index is still `idx`
      grown by the selector's entries. */
  lemma UnregisterKeepsGrown(idx: Index, j: Index, key: string, selector: string, sigil: char)
    requires sigil == ID_SIGIL || sigil == CLASS_SIGIL
    requires IndexValid(idx, sigil) && IndexValid(j, sigil)
    requires Unwatched(idx, selector) && GrownBy(idx, j, selector)
    ensures GrownBy(idx, Unregister(j, key, selector).idx, selector)
  {
    var u := Unregister(j, key, selector).idx;
    UnregisterRestoresKey(idx, j, key, selector, sigil);
    forall k ensures Lookup(idx, k) <= Lookup(u, k)
      && forall e :: e in Lookup(u, k)[|Lookup(idx, k)|..] ==> e.selector == selector
    {
      if k == key {
        assert Lookup(u, k)[|Lookup(idx, k)|..] == [];
      }
    }
  }

  /** `off`'s loop after `on`'s, over the same results: every key they name is back to its
      list from before `on`; the other keys keep the list `on` left. */
  lemma {:induction false} UnregisterKindRestores(idx: Index, j: Index, s: Sink, rs: seq<ParsedResult>, selector: string, sigil: char)
    requires sigil == ID_SIGIL || sigil == CLASS_SIGIL
    requires IndexValid(idx, sigil) && IndexValid(j, sigil)
    requires Unwatched(idx, selector) && GrownBy(idx, j, selector)
    ensures var u := UnregisterKind(j, s, rs, selector).idx;
      forall k :: Lookup(u, k) == (if k in Keys(rs) then Lookup(idx, k) else Lookup(j, k))
             && (k in u <==> if k in Keys(rs) then k in idx else k in j)
    decreases rs
  {
    if rs != [] {
      var step := Unregister(j, rs[0].key, selector);
      var s' := if step.stopped.Some? then StopObserver(s, step.stopped.value.uid) else s;
      UnregisterRestoresKey(idx, j, rs[0].key, selector, sigil);
      UnregisterKeepsGrown(idx, j, rs[0].key, selector, sigil);
      UnregisterClearsSelector(j, rs[0].key, selector, sigil);
      UnregisterKindRestores(idx, step.idx, s', rs[1..], selector, sigil);
      KeysCons(rs);
    }
  }

  /** `on` grows the index by entries of its selector, under the keys it parsed only. */
  lemma RegisterKindGrows(idx: Index, next: nat, rs: seq<ParsedResult>, selector: string, options: Options, doc: Document, isId: bool, sigil: char)
    requires sigil == (if isId then ID_SIGIL else CLASS_SIGIL)
    requires IndexValid(idx, sigil) && IndexBelow(idx, next)
    requires forall r :: r in rs ==> r in Results(ParseSelector(selector), sigil)
    requires RegisterKind(idx, next, rs, selector, options, doc, isId).ok
    ensures var j := RegisterKind(idx, next, rs, selector, options, doc, isId).idx;
      && GrownBy(idx, j, selector)
      && forall k :: k !in Keys(rs) ==> Lookup(j, k) == Lookup(idx, k) && (k in j <==> k in idx)
  {
    var j := RegisterKind(idx, next, rs, selector, options, doc, isId).idx;
    RegisterKindKeeps(idx, next, rs, selector, options, doc, isId, sigil);
    RegisterKindAppends(idx, next, rs, selector, options, doc, isId);
    forall k ensures Lookup(idx, k) <= Lookup(j, k)
      && forall e :: e in Lookup(j, k)[|Lookup(idx, k)|..] ==> e.selector == selector
    {
      NewEntriesShape(rs, k, selector, options, next);
      assert Lookup(j, k)[|Lookup(idx, k)|..] == NewEntries(rs, k, selector, options, next);
    }
    forall k | k !in Keys(rs) ensures Lookup(j, k) == Lookup(idx, k) && (k in j <==> k in idx) {
      NewEntriesShape(rs, k, selector, options, next);
    }
  }

  /** `off` undoes `on`: registering a selector nothing watched yet and then, with its last
      listener gone, unregistering it gives back the index as it was, for either kind. */
  lemma OffUndoesOn(idx: Index, next: nat, rs: seq<ParsedResult>, selector: string, options: Options, doc: Document, isId: bool, s: Sink)
    requires IndexValid(idx, if isId then ID_SIGIL else CLASS_SIGIL) && IndexBelow(idx, next)
    requires Unwatched(idx, selector)
    requires forall r :: r in rs ==> r in Results(ParseSelector(selector), if isId then ID_SIGIL else CLASS_SIGIL)
    requires RegisterKind(idx, next, rs, selector, options, doc, isId).ok
    ensures UnregisterKind(RegisterKind(idx, next, rs, selector, options, doc, isId).idx, s, rs, selector).idx == idx
  {
    var sigil := if isId then ID_SIGIL else CLASS_SIGIL;
    var j := RegisterKind(idx, next, rs, selector, options, doc, isId).idx;
    RegisterKindValid(idx, next, rs, selector, options, doc, isId, sigil);
    RegisterKindGrows(idx, next, rs, selector, options, doc, isId, sigil);
    UnregisterKindRestores(idx, j, s, rs, selector, sigil);
    SameLookups(UnregisterKind(j, s, rs, selector).idx, idx);
  }

  /** Two indexes with the same keys and the same lists are equal. */
  lemma SameLookups(a: Index, b: Index)
    requires forall k :: Lookup(a, k) == Lookup(b, k) && (k in a <==> k in b)
    ensures a == b
  {
    forall k | k in a ensures a[k] == b[k] {
      assert Lookup(a, k) == Lookup(b, k);
    }
  }

  /** With its last listener gone, `off` leaves no entry of the selector in the index of either
      kind: every entry under a key came from a segment of its own selector, so the keys `off`
      handles are all the keys the selector can be under. */
  lemma OffClearsSelector(idx: Index, s: Sink, selector: string, sigil: char)
    requires sigil == ID_SIGIL || sigil == CLASS_SIGIL
    requires IndexValid(idx, sigil)
    ensures Unwatched(UnregisterKind(idx, s, Results(ParseSelector(selector), sigil), selector).idx, selector)
  {
    var rs := Results(ParseSelector(selector), sigil);
    UnregisterKindClears(idx, s, rs, selector, sigil);
    var u := UnregisterKind(idx, s, rs, selector).idx;
    forall k: string, e: WatchEntry | k in u && e in u[k] ensures e.selector != selector {
      assert u[k] <= idx[k];
      var i :| 0 <= i < |u[k]| && u[k][i] == e;
      assert e in idx[k] && EntryUnder(e, k, sigil);
      assert e.selector == selector ==> ParsedResult(k, e.partialSelector) in rs;
    }
  }

  /** The `(parentElement, node)` pairs of the seed pass. */
  function SeedPairs(doc: Document, hs: seq<Handle>): (ps: seq<PendingNode>)
    ensures |ps| == |hs|
    ensures forall i :: 0 <= i < |hs| ==> ps[i] == PendingNode(doc.Node(hs[i]).parentElement, hs[i])
  {
    seq(|hs|, i requires 0 <= i < |hs| => PendingNode(doc.Node(hs[i]).parentElement, hs[i]))
  }

  /** The emitter's `on(key, callback)`. */
  function AddListener(ls: Listeners, key: string, cb: Callback): (r: Listeners)
    ensures ListenersOf(r, key) == ListenersOf(ls, key) + multiset{cb}
    ensures forall k :: k != key ==> ListenersOf(r, k) == ListenersOf(ls, k)
  {
    ls[key := ListenersOf(ls, key) + multiset{cb}]
  }

  /** The emitter's `off(key, callback)`: one registration of `cb` goes, if there is one. */
  function RemoveListener(ls: Listeners, key: string, cb: Callback): (r: Listeners)
    ensures ListenersOf(r, key) == ListenersOf(ls, key) - multiset{cb}
    ensures forall k :: k != key ==> ListenersOf(r, k) == ListenersOf(ls, k)
  {
    if key in ls then ls[key := ls[key] - multiset{cb}] else ls
  }

  class DOMObserver {
    var observedIds: Index
    var observedClassNames: Index
    /** `attributeObservers`: entry identity to the index of its observer in `observers`. */
    var attributeObservers: map<nat, nat>
    /** Every attribute `MutationObserver` created so far, by creation order. */
    var observers: seq<AttrObserver>
    /** Every `emit` so far. */
    var events: seq<Event>
    var listeners: Listeners
    /** The identity the next watch entry object gets. */
    var nextEntry: nat

    function SinkState(): (s: Sink)
      reads this
    {
      Sink(attributeObservers, observers, events)
    }

    ghost predicate Valid()
      reads this
    {
      && IndexValid(observedIds, ID_SIGIL) && IndexValid(observedClassNames, CLASS_SIGIL)
      && IndexBelow(observedIds, nextEntry) && IndexBelow(observedClassNames, nextEntry)
      && SinkValid(SinkState()) && TableBelow(SinkState(), nextEntry)
    }

    /** `emitter.listenerCount(key)`. */
    function ListenerCount(key: string): (n: nat)
      reads this
      ensures n == 0 <==> forall cb :: ListenersOf(listeners, key)[cb] == 0
    {
      |ListenersOf(listeners, key)|
    }

    constructor ()
      ensures Valid()
      ensures observedIds == map[] && observedClassNames == map[] && attributeObservers == map[]
      ensures observers == [] && events == [] && listeners == map[] && nextEntry == 0
    {
      observedIds := map[];
      observedClassNames := map[];
      attributeObservers := map[];
      observers := [];
      events := [];
      listeners := map[];
      nextEntry := 0;
    }

    /** The emitter's `emit(key, element, isConnected)`, as seen by the listeners of `key`. */
    method Emit(key: string, element: Handle, isConnected: bool)
      modifies this`events
      ensures events == old(events) + [Event(key, element, isConnected, ListenersOf(listeners, key))]
    {
      events := events + [Event(key, element, isConnected, ListenersOf(listeners, key))];
    }

    /** `stopAttributeObserver(observedType)`. */
    method StopAttributeObserver(e: WatchEntry)
      modifies this`attributeObservers, this`observers
      ensures SinkState() == StopObserver(old(SinkState()), e.uid)
    {
      if e.uid !in attributeObservers {
        return;
      }
      var i := attributeObservers[e.uid];
      if i < |observers| {
        observers := observers[i := observers[i].(active := false)];
      }
      attributeObservers := attributeObservers - {e.uid};
    }

    /** `startAttributeObserver(observedType, emitter, el)`. */
    method StartAttributeObserver(e: WatchEntry, el: Handle)
      modifies this`attributeObservers, this`observers
      ensures SinkState() == StartObserver(old(SinkState()), e, el)
    {
      var handle := |observers|;
      observers := observers + [AttrObserver(e.selector, el, true)];
      attributeObservers := attributeObservers[e.uid := handle];
    }

    /** An attribute observer's callback: `emit(selector, el, el.isConnected)`. A disconnected
        observer receives no more records, so it does nothing. */
    method OnAttributeMutation(doc: Document, handle: nat)
      requires handle < |observers|
      modifies this`events
      ensures var o := observers[handle];
        events == old(events) + (if o.active then [Event(o.selector, o.element, doc.Node(o.element).isConnected, ListenersOf(listeners, o.selector))] else [])
    {
      var o := observers[handle];
      if o.active {
        Emit(o.selector, o.element, doc.Node(o.element).isConnected);
      }
    }

    /** `processObservedResults(emitter, target, node, results)`. */
    method ProcessObservedResults(doc: Document, container: Option<Handle>, node: Handle, results: seq<WatchEntry>) returns (ok: bool)
      modifies this`attributeObservers, this`observers, this`events
      ensures Run(SinkState(), ok) == EntriesStep(old(SinkState()), doc, listeners, container, node, results)
    {
      var i := 0;
      while i < |results|
        invariant 0 <= i <= |results|
        invariant EntriesStep(old(SinkState()), doc, listeners, container, node, results)
               == EntriesStep(SinkState(), doc, listeners, container, node, results[i..])
      {
        assert results[i..][1..] == results[i + 1..];
        ok := ProcessEntry(doc, container, node, results[i]);
        if !ok {
          return false;
        }
        i := i + 1;
      }
      return true;
    }

    /** One iteration of `processObservedResults`' loop: resolve the element to report, start
        or stop the entry's attribute observer, emit. A skipped entry (`continue`) changes
        nothing; `ok` is false when `querySelector` or `null.isConnected` threw. */
    method ProcessEntry(doc: Document, container: Option<Handle>, node: Handle, e: WatchEntry) returns (ok: bool)
      modifies this`attributeObservers, this`observers, this`events
      ensures Run(SinkState(), ok) == EntryStep(old(SinkState()), doc, listeners, container, node, e)
    {
      var found := node;
      if ' ' in e.partialSelector {
        var q := QuerySelector(doc, node, e.selector);
        if q.Throws? {
          return false;
        }
        if q.NoMatch? {
          return true;
        }
        found := q.found;
      }
      if e.options.useParentNode {
        found := node;
      }
      if e.options.useTargetNode {
        if container.None? {
          return false;
        }
        found := container.value;
      }
      var isConnected := doc.Node(found).isConnected;
      if e.options.attributes {
        if isConnected {
          StartAttributeObserver(e, found);
        } else {
          StopAttributeObserver(e);
        }
      }
      Emit(e.selector, found, isConnected);
      return true;
    }

    /** The class loop of one `processMutations` iteration. */
    method ProcessClasses(doc: Document, container: Option<Handle>, node: Handle, classList: seq<string>) returns (ok: bool)
      modifies this`attributeObservers, this`observers, this`events
      ensures Run(SinkState(), ok) == ClassesStep(old(SinkState()), doc, listeners, observedClassNames, container, node, classList)
    {
      var j := 0;
      while j < |classList|
        invariant 0 <= j <= |classList|
        invariant ClassesStep(old(SinkState()), doc, listeners, observedClassNames, container, node, classList)
               == ClassesStep(SinkState(), doc, listeners, observedClassNames, container, node, classList[j..])
      {
        assert classList[j..][1..] == classList[j + 1..];
        var className := Trim(classList[j]);
        ok := ProcessObservedResults(doc, container, node, Lookup(observedClassNames, className));
        if !ok {
          return;
        }
        j := j + 1;
      }
      return true;
    }

    /** One iteration of `processMutations`' loop. */
    method ProcessPair(doc: Document, p: PendingNode) returns (ok: bool)
      modifies this`attributeObservers, this`observers, this`events
      ensures Run(SinkState(), ok) == PairStep(old(SinkState()), doc, listeners, observedIds, observedClassNames, p)
    {
      var info := doc.Node(p.node);
      if |info.id| > 0 {
        var nodeId := Trim(info.id);
        ok := ProcessObservedResults(doc, p.container, p.node, Lookup(observedIds, nodeId));
        if !ok {
          return;
        }
      }
      ok := ProcessClasses(doc, p.container, p.node, info.classList);
    }

    /** `processMutations(emitter, nodes)`. */
    method ProcessMutations(doc: Document, nodes: seq<PendingNode>) returns (ok: bool)
      requires Valid()
      modifies this`attributeObservers, this`observers, this`events
      ensures Valid() && Extends(old(SinkState()), SinkState(), listeners)
      ensures Run(SinkState(), ok) == PairsStep(old(SinkState()), doc, listeners, observedIds, observedClassNames, nodes)
    {
      PairsStepKeeps(SinkState(), doc, listeners, observedIds, observedClassNames, nodes, nextEntry);
      var k := 0;
      while k < |nodes|
        invariant 0 <= k <= |nodes|
        invariant PairsStep(old(SinkState()), doc, listeners, observedIds, observedClassNames, nodes)
               == PairsStep(SinkState(), doc, listeners, observedIds, observedClassNames, nodes[k..])
      {
        assert nodes[k..][1..] == nodes[k + 1..];
        ok := ProcessPair(doc, nodes[k]);
        if !ok {
          return;
        }
        k := k + 1;
      }
      return true;
    }

    /** The document-wide `MutationObserver` callback: batch, then classify unless the batch
        produced nothing. */
    method HandleMutations(doc: Document, records: seq<MutationRecord>) returns (ok: bool)
      requires Valid()
      modifies this`attributeObservers, this`observers, this`events
      ensures Valid() && Extends(old(SinkState()), SinkState(), listeners)
      ensures Run(SinkState(), ok) == PairsStep(old(SinkState()), doc, listeners, observedIds, observedClassNames, Pending(doc, records))
    {
      var pendingNodes := CollectPending(doc, records);
      if |pendingNodes| == 0 {
        return true;
      }
      ok := ProcessMutations(doc, pendingNodes);
    }

    /** The index of one kind: `observedIds` or `observedClassNames`. */
    function Observed(isId: bool): (idx: Index)
      reads this
    {
      if isId then observedIds else observedClassNames
    }

    /** Replace the index of one kind. */
    method SetObserved(isId: bool, idx: Index)
      modifies this`observedIds, this`observedClassNames
      ensures Observed(isId) == idx && Observed(!isId) == old(Observed(!isId))
    {
      if isId {
        observedIds := idx;
      } else {
        observedClassNames := idx;
      }
    }

    /** One iteration of `on`'s loop: append the entry under its key, then collect the
        elements the seed pass will classify; `None` when `querySelectorAll` threw. */
    method RegisterOne(doc: Document, isId: bool, r: ParsedResult, selector: string, options: Options) returns (found: Option<seq<Handle>>)
      modifies this`observedIds, this`observedClassNames, this`nextEntry
      ensures Observed(isId) == Register(old(Observed(isId)), r.key, WatchEntry(old(nextEntry), r.partialSelector, selector, options))
      ensures Observed(!isId) == old(Observed(!isId)) && nextEntry == old(nextEntry) + 1
      ensures found == if isId then QueryAll(doc, [ID_SIGIL] + r.key) else Some(ElementsByClassName(doc, r.key))
    {
      var entry := WatchEntry(nextEntry, r.partialSelector, selector, options);
      nextEntry := nextEntry + 1;
      SetObserved(isId, Register(Observed(isId), r.key, entry));
      if isId {
        found := QueryAll(doc, [ID_SIGIL] + r.key);
      } else {
        found := Some(ElementsByClassName(doc, r.key));
      }
    }

    /** `on`'s loop over the results of one kind. */
    method RegisterResults(doc: Document, isId: bool, rs: seq<ParsedResult>, selector: string, options: Options) returns (seeds: seq<Handle>, ok: bool)
      modifies this`observedIds, this`observedClassNames, this`nextEntry
      ensures var r := RegisterKind(old(Observed(isId)), old(nextEntry), rs, selector, options, doc, isId);
        && Observed(isId) == r.idx && Observed(!isId) == old(Observed(!isId))
        && nextEntry == r.next && seeds == r.seeds && ok == r.ok
    {
      ghost var goal := RegisterKind(Observed(isId), nextEntry, rs, selector, options, doc, isId);
      seeds := [];
      var i := 0;
      while i < |rs|
        invariant 0 <= i <= |rs|
        invariant Observed(!isId) == old(Observed(!isId))
        invariant var rest := RegisterKind(Observed(isId), nextEntry, rs[i..], selector, options, doc, isId);
          goal == Registration(rest.idx, rest.next, seeds + rest.seeds, rest.ok)
      {
        assert rs[i..][1..] == rs[i + 1..];
        var found := RegisterOne(doc, isId, rs[i], selector, options);
        if found.None? {
          return seeds, false;
        }
        ghost var rest := RegisterKind(Observed(isId), nextEntry, rs[i + 1..], selector, options, doc, isId);
        Seqs.ConcatAssoc(seeds, found.value, rest.seeds);
        seeds := seeds + found.value;
        i := i + 1;
      }
      return seeds, true;
    }

    /** `on`'s registration of one kind: the entries of the selector's results of that kind,
        and the elements for the seed pass. */
    method WatchKind(doc: Document, isId: bool, selector: string, options: Options) returns (seeds: seq<Handle>, ok: bool)
      requires Valid()
      modifies this`observedIds, this`observedClassNames, this`nextEntry
      ensures Valid()
      ensures var r := RegisterKind(old(Observed(isId)), old(nextEntry), Results(ParseSelector(selector), if isId then ID_SIGIL else CLASS_SIGIL), selector, options, doc, isId);
        && Observed(isId) == r.idx && Observed(!isId) == old(Observed(!isId))
        && nextEntry == r.next && seeds == r.seeds && ok == r.ok
    {
      var sigil := if isId then ID_SIGIL else CLASS_SIGIL;
      var rs := Results(ParseSelector(selector), sigil);
      assert ObservedValid(isId) && ObservedValid(!isId);
      RegisterKindKeeps(Observed(isId), nextEntry, rs, selector, options, doc, isId, sigil);
      ghost var before := nextEntry;
      seeds, ok := RegisterResults(doc, isId, rs, selector, options);
      IndexBelowRaised(Observed(!isId), before, nextEntry);
      TableBelowRaised(SinkState(), before, nextEntry);
      assert ObservedValid(isId) && ObservedValid(!isId);
    }

    /** `on(selector, callback, options)`: register the entries, register the callback with
        the emitter, then run the seed pass over the elements already in the document, with
        each element's `parentElement` as container. `ok` is false when a query threw. */
    method On(doc: Document, selector: string, callback: Callback, options: Options) returns (ok: bool)
      requires Valid()
      modifies this
      ensures Valid()
      ensures var p := ParseSelector(selector);
        var ri := RegisterKind(old(observedIds), old(nextEntry), p.ids, selector, options, doc, true);
        var rc := RegisterKind(old(observedClassNames), ri.next, p.classNames, selector, options, doc, false);
        && observedIds == ri.idx
        && observedClassNames == (if ri.ok then rc.idx else old(observedClassNames))
        && nextEntry == (if ri.ok then rc.next else ri.next)
        && (if ri.ok then
              && listeners == AddListener(old(listeners), selector, callback)
              && Extends(old(SinkState()), SinkState(), listeners)
              && Run(SinkState(), ok) == PairsStep(old(SinkState()), doc, listeners, observedIds, observedClassNames, SeedPairs(doc, ri.seeds + rc.seeds))
            else !ok && listeners == old(listeners) && SinkState() == old(SinkState()))
    {
      var p := ParseSelector(selector);
      var idSeeds, idsOk := WatchKind(doc, true, selector, options);
      if !idsOk {
        return false;
      }
      ClassKindCompletes(observedClassNames, nextEntry, p.classNames, selector, options, doc);
      var classSeeds, _ := WatchKind(doc, false, selector, options);
      ok := Subscribe(doc, selector, callback, idSeeds + classSeeds);
    }

    /** The end of `on`: `super.on(selector, callback)`, then the seed pass over `seeds`. */
    method Subscribe(doc: Document, selector: string, callback: Callback, seeds: seq<Handle>) returns (ok: bool)
      requires Valid()
      modifies this`listeners, this`attributeObservers, this`observers, this`events
      ensures Valid()
      ensures listeners == AddListener(old(listeners), selector, callback)
      ensures Extends(old(SinkState()), SinkState(), listeners)
      ensures Run(SinkState(), ok) == PairsStep(old(SinkState()), doc, listeners, observedIds, observedClassNames, SeedPairs(doc, seeds))
    {
      listeners := AddListener(listeners, selector, callback);
      ok := ProcessMutations(doc, SeedPairs(doc, seeds));
    }

    /** `off`'s loop over the results of one kind. */
    method UnregisterResults(isId: bool, rs: seq<ParsedResult>, selector: string)
      modifies this`observedIds, this`observedClassNames, this`attributeObservers, this`observers
      ensures var u := UnregisterKind(old(Observed(isId)), old(SinkState()), rs, selector);
        Observed(isId) == u.idx && Observed(!isId) == old(Observed(!isId)) && SinkState() == u.sink
    {
      var i := 0;
      while i < |rs|
        invariant 0 <= i <= |rs|
        invariant Observed(!isId) == old(Observed(!isId))
        invariant events == old(events)
        invariant UnregisterKind(old(Observed(isId)), old(SinkState()), rs, selector)
               == UnregisterKind(Observed(isId), SinkState(), rs[i..], selector)
      {
        var key := rs[i].key;
        assert rs[i..][1..] == rs[i + 1..];
        var observed := Observed(isId);
        i := i + 1;
        if key !in observed {
          continue;
        }
        var list := observed[key];
        var index := FindFirst(list, selector);
        if index.None? {
          continue;
        }
        StopAttributeObserver(list[index.value]);
        var kept := list[..index.value];
        SetObserved(isId, if |kept| == 0 then observed - {key} else observed[key := kept]);
      }
    }

    /** The invariant of one kind's index. */
    ghost predicate ObservedValid(isId: bool)
      reads this
    {
      IndexValid(Observed(isId), if isId then ID_SIGIL else CLASS_SIGIL) && IndexBelow(Observed(isId), nextEntry)
    }

    /** `off`'s cleanup of one kind: afterwards the selector is under no key of that kind. */
    method UnwatchKind(isId: bool, selector: string)
      requires Valid()
      modifies this`observedIds, this`observedClassNames, this`attributeObservers, this`observers
      ensures Valid()
      ensures var u := UnregisterKind(old(Observed(isId)), old(SinkState()), Results(ParseSelector(selector), if isId then ID_SIGIL else CLASS_SIGIL), selector);
        Observed(isId) == u.idx && Observed(!isId) == old(Observed(!isId)) && SinkState() == u.sink
      ensures Unwatched(Observed(isId), selector)
    {
      var sigil := if isId then ID_SIGIL else CLASS_SIGIL;
      var rs := Results(ParseSelector(selector), sigil);
      assert ObservedValid(isId) && ObservedValid(!isId);
      UnregisterKindKeeps(Observed(isId), SinkState(), rs, selector, sigil, nextEntry);
      OffClearsSelector(Observed(isId), SinkState(), selector, sigil);
      UnregisterResults(isId, rs, selector);
      assert ObservedValid(isId) && ObservedValid(!isId);
    }

    /** `off(selector, callback)`: drop the callback; when it was the selector's last listener,
        cut the selector's entries out of both indexes. */
    method Off(selector: string, callback: Callback)
      requires Valid()
      modifies this
      ensures Valid()
      ensures listeners == RemoveListener(old(listeners), selector, callback) && nextEntry == old(nextEntry)
      ensures ListenerCount(selector) > 0 ==>
        observedIds == old(observedIds) && observedClassNames == old(observedClassNames) && SinkState() == old(SinkState())
      ensures ListenerCount(selector) == 0 ==>
        var p := ParseSelector(selector);
        var ui := UnregisterKind(old(observedIds), old(SinkState()), p.ids, selector);
        var uc := UnregisterKind(old(observedClassNames), ui.sink, p.classNames, selector);
        observedIds == ui.idx && observedClassNames == uc.idx && SinkState() == uc.sink
      ensures ListenerCount(selector) == 0 ==>
        Unwatched(observedIds, selector) && Unwatched(observedClassNames, selector)
    {
      listeners := RemoveListener(listeners, selector, callback);
      if ListenerCount(selector) > 0 {
        return;
      }
      UnwatchKind(true, selector);
      UnwatchKind(false, selector);
    }
  }

  /** What `observeElement` returns: the closure that calls `off(selector, callback)`. */
  datatype Disposer = Disposer(selector: string, callback: Callback)

  /** `observeElement(selector, callback, options)` on the shared observer. */
  method ObserveElement(o: DOMObserver, doc: Document, selector: string, callback: Callback, options: Options) returns (d: Disposer, ok: bool)
    requires o.Valid()
    modifies o
    ensures o.Valid() && d == Disposer(selector, callback)
    ensures var p := ParseSelector(selector);
      var ri := RegisterKind(old(o.observedIds), old(o.nextEntry), p.ids, selector, options, doc, true);
      var rc := RegisterKind(old(o.observedClassNames), ri.next, p.classNames, selector, options, doc, false);
      && o.observedIds == ri.idx
      && o.observedClassNames == (if ri.ok then rc.idx else old(o.observedClassNames))
      && o.nextEntry == (if ri.ok then rc.next else ri.next)
      && (if ri.ok then
            && o.listeners == AddListener(old(o.listeners), selector, callback)
            && Extends(old(o.SinkState()), o.SinkState(), o.listeners)
            && Run(o.SinkState(), ok)
               == PairsStep(old(o.SinkState()), doc, o.listeners, o.observedIds, o.observedClassNames, SeedPairs(doc, ri.seeds + rc.seeds))
          else !ok && o.listeners == old(o.listeners) && o.SinkState() == old(o.SinkState()))
  {
    ok := o.On(doc, selector, callback, options);
    d := Disposer(selector, callback);
  }

  /** Calling the closure `observeElement` returned. */
  method Dispose(o: DOMObserver, d: Disposer)
    requires o.Valid()
    modifies o
    ensures o.Valid()
    ensures o.listeners == RemoveListener(old(o.listeners), d.selector, d.callback) && o.nextEntry == old(o.nextEntry)
    ensures o.ListenerCount(d.selector) > 0 ==>
      && o.observedIds == old(o.observedIds) && o.observedClassNames == old(o.observedClassNames)
      && o.SinkState() == old(o.SinkState())
    ensures o.ListenerCount(d.selector) == 0 ==>
      var p := ParseSelector(d.selector);
      var ui := UnregisterKind(old(o.observedIds), old(o.SinkState()), p.ids, d.selector);
      var uc := UnregisterKind(old(o.observedClassNames), ui.sink, p.classNames, d.selector);
      o.observedIds == ui.idx && o.observedClassNames == uc.idx && o.SinkState() == uc.sink
    ensures o.ListenerCount(d.selector) == 0 ==>
      Unwatched(o.observedIds, d.selector) && Unwatched(o.observedClassNames, d.selector)
  {
    o.Off(d.selector, d.callback);
  }
}

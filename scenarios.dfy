/**
 * The observer applied to small documents, for any plain id `name`: an element already in
 * the document, watched and then unwatched; and an element inserted and removed while
 * watched.
 */
module Scenarios {
  import opened Wrappers
  import opened Text
  import opened Dom
  import opened SelectorParser
  import opened SelectorIndex
  import opened MatchResolver
  import opened MutationBatcher
  import opened Observer

  function IdSelector(name: string): (sel: string)
  {
    [ID_SIGIL] + name
  }

  /** The entry `on('#' + name, cb)` creates on a fresh observer. */
  function FirstEntry(name: string): (e: WatchEntry)
  {
    WatchEntry(0, IdSelector(name), IdSelector(name), NO_OPTIONS)
  }

  /** `on` on a fresh observer registers one entry under `name` and collects `found`. */
  lemma RegistersOnce(name: string, doc: Document, found: seq<Handle>)
    requires PlainName(name)
    requires QueryAll(doc, IdSelector(name)) == Some(found)
    ensures var p := ParseSelector(IdSelector(name));
      && RegisterKind(map[], 0, p.ids, IdSelector(name), NO_OPTIONS, doc, true) == Registration(map[name := [FirstEntry(name)]], 1, found, true)
      && RegisterKind(map[], 1, p.classNames, IdSelector(name), NO_OPTIONS, doc, false) == Registration(map[], 1, [], true)
  {
    ParseSingleId(name);
    var rs := [ParsedResult(name, IdSelector(name))];
    assert rs[1..] == [];
    assert Register(map[], name, FirstEntry(name)) == map[name := [FirstEntry(name)]];
    assert found + [] == found;
  }

  /** `off` with the last listener gone removes that one entry and its key. */
  lemma UnregistersOnce(name: string, s: Sink)
    requires PlainName(name)
    ensures UnregisterKind(map[name := [FirstEntry(name)]], s, ParseSelector(IdSelector(name)).ids, IdSelector(name)).idx == map[]
  {
    ParseSingleId(name);
    var rs := [ParsedResult(name, IdSelector(name))];
    assert rs[1..] == [];
    assert FindFirst([FirstEntry(name)], IdSelector(name)) == Some(0);
    assert Unregister(map[name := [FirstEntry(name)]], name, IdSelector(name)).idx == map[];
  }

  /** Classifying a node whose id is `name` and that has no classes, with `cb` the only
      listener of the selector, reports the node once, with its connection state. */
  lemma ReportsOnce(s: Sink, doc: Document, name: string, cb: Callback, container: Option<Handle>, h: Handle)
    requires PlainName(name)
    requires doc.Node(h).id == name && doc.Node(h).classList == []
    ensures PairsStep(s, doc, AddListener(map[], IdSelector(name), cb), map[name := [FirstEntry(name)]], map[], [PendingNode(container, h)])
         == Run(s.(events := s.events + [Event(IdSelector(name), h, doc.Node(h).isConnected, multiset{cb})]), true)
  {
    var sel := IdSelector(name);
    var e := FirstEntry(name);
    var ls := AddListener(map[], sel, cb);
    var s1 := s.(events := s.events + [Event(sel, h, doc.Node(h).isConnected, multiset{cb})]);
    assert ' ' !in sel by {
      assert IsWhitespace(' ');
      forall i | 0 <= i < |sel| ensures sel[i] != ' ' {
        if i > 0 { assert sel[i] == name[i - 1]; }
      }
    }
    assert ResolveTarget(doc, container, h, e) == Found(h);
    assert ListenersOf(ls, sel) == multiset{cb};
    assert EntryStep(s, doc, ls, container, h, e) == Run(s1, true);
    TrimUnchanged(name);
    assert [e][1..] == [];
    assert EntriesStep(s, doc, ls, container, h, [e]) == Run(s1, true);
    assert PairStep(s, doc, ls, map[name := [e]], map[], PendingNode(container, h)) == Run(s1, true);
  }

  /** `<div id=name>` (handle 1), connected, with no parent element. */
  function SeedDocument(name: string): (doc: Document)
  {
    Document(map[1 := NodeInfo(true, "DIV", name, [], true, None, 0, [])], {}, map[IdSelector(name) := [1]], map[], map[])
  }

  /** `on('#' + name, cb)` with a connected `<div id=name>` already in the document reports it
      once to `cb` in the seed pass; `off('#' + name, cb)` then leaves no watched id. */
  method SeedThenDispose(name: string, cb: Callback) returns (evs: seq<Event>, ok: bool, idsAfter: Index, countAfter: nat)
    requires PlainName(name)
    ensures ok && evs == [Event(IdSelector(name), 1, true, multiset{cb})]
    ensures idsAfter == map[] && countAfter == 0
  {
    var doc := SeedDocument(name);
    var o := new DOMObserver();
    RegistersOnce(name, doc, [1]);
    assert SeedPairs(doc, [1] + []) == [PendingNode(None, 1)];
    ReportsOnce(o.SinkState(), doc, name, cb, None, 1);
    ok := o.On(doc, IdSelector(name), cb, NO_OPTIONS);
    evs := o.events;
    assert o.observedIds == map[name := [FirstEntry(name)]];
    UnregistersOnce(name, o.SinkState());
    assert ListenersOf(RemoveListener(o.listeners, IdSelector(name), cb), IdSelector(name)) == multiset{};
    o.Off(IdSelector(name), cb);
    idsAfter, countAfter := o.observedIds, o.ListenerCount(IdSelector(name));
  }

  /** `<body>` (handle 1), with the div (handle 2) inside it or not. */
  function Body(withDiv: bool): (info: NodeInfo)
  {
    NodeInfo(true, "BODY", "", [], true, None, if withDiv then 1 else 0, if withDiv then [2] else [])
  }

  function Div(name: string, connected: bool): (info: NodeInfo)
  {
    NodeInfo(true, "DIV", name, [], connected, if connected then Some(1) else None, 0, [])
  }

  /** The document before the insertion, after it, and after the removal. */
  function EmptyBody(): (doc: Document)
  {
    Document(map[1 := Body(false)], {}, map[], map[], map[])
  }

  function Inserted(name: string): (doc: Document)
  {
    Document(map[1 := Body(true), 2 := Div(name, true)], {}, map[IdSelector(name) := [2]], map[], map[])
  }

  function Removed(name: string): (doc: Document)
  {
    Document(map[1 := Body(false), 2 := Div(name, false)], {}, map[], map[], map[])
  }

  /** A record with the div added to, or removed from, `<body>` gives the one pair (body, div). */
  lemma DivPending(doc: Document, r: MutationRecord)
    requires doc.Node(2).isElement && doc.Node(2).nodeName == "DIV" && doc.Node(2).childElementCount == 0
    requires r == MutationRecord(1, [2], []) || r == MutationRecord(1, [], [2])
    ensures Pending(doc, [r]) == [PendingNode(Some(1), 2)]
  {
    assert "DIV" !in IGNORED_HTML_TAGS;
    assert NodePairs(doc, 1, 2) == [PendingNode(Some(1), 2)];
    assert NodesPairs(doc, 1, [2]) == [PendingNode(Some(1), 2)];
    assert [r][1..] == [];
  }

  /** One batch with the single record `r` about the div, on an observer that watches only
      `'#' + name` for `cb`: the div is reported once, with its connection state, and the
      indexes and listeners stay as they were. */
  method ReportDivChange(o: DOMObserver, name: string, cb: Callback, doc: Document, r: MutationRecord)
    requires PlainName(name) && o.Valid()
    requires o.observedIds == map[name := [FirstEntry(name)]] && o.observedClassNames == map[]
    requires o.listeners == AddListener(map[], IdSelector(name), cb)
    requires doc.Node(2) == Div(name, doc.Node(2).isConnected)
    requires r == MutationRecord(1, [2], []) || r == MutationRecord(1, [], [2])
    modifies o
    ensures o.Valid() && o.events == old(o.events) + [Event(IdSelector(name), 2, doc.Node(2).isConnected, multiset{cb})]
    ensures o.observedIds == old(o.observedIds) && o.observedClassNames == old(o.observedClassNames)
    ensures o.listeners == old(o.listeners)
  {
    DivPending(doc, r);
    ReportsOnce(o.SinkState(), doc, name, cb, Some(1), 2);
    var ok := o.HandleMutations(doc, [r]);
  }

  /** `on('#' + name, cb)` before any such element exists reports nothing; inserting
      `<div id=name>` into `<body>` then reports `(div, true)` to `cb` once, and removing it
      reports `(div, false)` once. */
  method InsertThenRemove(name: string, cb: Callback) returns (afterOn: seq<Event>, afterInsert: seq<Event>, afterRemove: seq<Event>)
    requires PlainName(name)
    ensures afterOn == []
    ensures afterInsert == [Event(IdSelector(name), 2, true, multiset{cb})]
    ensures afterRemove == afterInsert + [Event(IdSelector(name), 2, false, multiset{cb})]
  {
    var o := new DOMObserver();
    RegistersOnce(name, EmptyBody(), []);
    var ok := o.On(EmptyBody(), IdSelector(name), cb, NO_OPTIONS);
    afterOn := o.events;

    ReportDivChange(o, name, cb, Inserted(name), MutationRecord(1, [2], []));
    afterInsert := o.events;

    ReportDivChange(o, name, cb, Removed(name), MutationRecord(1, [], [2]));
    afterRemove := o.events;
  }
}

# zero-dependency/dom: the selector-indexed DOM watcher and `throttle`, in Dafny

This project models two parts of the repository. The first is `DOMObserver`
from `src/domObserver.ts`: one document-wide watcher. It lets code subscribe to
the appearance, disappearance and attribute changes of elements named by simple
`#id` / `.class` selectors. The second is `throttle` from `src/throttle.ts`.

The watcher is modelled in five pieces, one module each:

- `SelectorParser` models `parseSelector`.
  - A selector list is split on commas and each segment is trimmed.
  - A segment is kept when it starts with `#` or `.`.
  - A kept segment is indexed by its key.
  - `Text` supplies the JavaScript `split`, `trim` and `startsWith` that this needs, written out over `seq<char>`.
- `SelectorIndex` models the two tables `observedIds` and `observedClassNames`.
  - Each maps a key to the ordered list of watch entries registered under it.
  - The module has the per-key update `on` makes (`push`, or a fresh list) and the one `off` makes (`findIndex`, `splice(i)`, `delete`).
- `MutationBatcher` models the body of the document-wide `MutationObserver` callback. It turns a batch of mutation records into the flat list of `(container, node)` pairs. The loops are methods, proved against the fold `Pending`.
- `MatchResolver` models `processMutations` and `processObservedResults` as folds over an explicit `Sink`.
  - Each entry resolves the element to report, starts or stops its attribute observer, and emits.
  - The `Sink` holds the attribute-observer table, every attribute observer created, and the log of `emit` calls.
- `Observer` holds the `DOMObserver` class.
  - Its fields are the two indexes, the attribute table, the emitter's listeners and the event log.
  - Its methods are `On`, `Off`, the batch callback `HandleMutations`, and the attribute-observer callback.
  - Each method is proved against the folds of the modules above.
  - `ObserveElement` and `Dispose` model the exported `observeElement` and the closure it returns.

`Throttling.Throttle` is the closure state of one `throttle(fn, delay)` call. `Call` is the
returned `wrapper`. `TimerFire` is the callback of the pending timer. The calls of `fn` are logged.

`Scenarios` applies the observer to small documents, for any plain id. In `SeedThenDispose`, an
element is already present, watched and then unwatched. In `InsertThenRemove`, an element is
inserted and then removed while watched.

The browser is an input value, `Dom.Document`.
- It is a snapshot of what each node reports.
- CSS matching is given as oracle maps for `querySelector`, `querySelectorAll` and `getElementsByClassName`.
- `invalidSelectors` lists the selector strings that make those queries throw.

A thrown exception (a `SyntaxError` from a query, or `null.isConnected`) is modelled as
`ok == false`. Processing stops and the effects made so far stay in place.

## Model

| member | source | states |
|---|---|---|
| Text.IsWhitespace | src/domObserver.ts:249 | the characters `trim` removes: the ECMAScript WhiteSpace and LineTerminator code points |
| Text.StartsWith | src/domObserver.ts:252-257 | `startsWith` with a one-character prefix: the string is non-empty and its first character is that one |
| Text.Split | src/domObserver.ts:247-248 | `split` on one character always gives at least one part; no part holds the separator; there is exactly one part iff the separator does not occur |
| Text.JoinSplit | src/domObserver.ts:247-248 | joining the parts of a split with the separator gives back the original string |
| Text.SplitJoin | src/domObserver.ts:247-248 | splitting a join of separator-free parts gives back the parts |
| Text.SplitWithoutSep | src/domObserver.ts:247-248 | a string without the separator splits into itself alone |
| Text.SplitPrefix | src/domObserver.ts:247-248 | a separator-free head followed by the separator becomes the first part on its own |
| Text.Before | src/domObserver.ts:254 | the text before the first separator is a separator-free prefix that ends at the separator or at the end of the string |
| Text.SplitHead | src/domObserver.ts:254 | `split(sep)[0]` is the text before the first separator |
| Text.LeadingSpaces | src/domObserver.ts:249 | counts exactly the whitespace run at the start of a string |
| Text.TrailingSpaces | src/domObserver.ts:249 | counts exactly the whitespace run at the end of a string |
| Text.Trim | src/domObserver.ts:249 | `trim` never lengthens its input, its result neither starts nor ends with whitespace, and the result is empty exactly when the input is all whitespace |
| Text.TrimIsInfix | src/domObserver.ts:249 | `trim` returns a contiguous part of its input; everything cut away is whitespace; the result neither starts nor ends with whitespace |
| Text.TrimIdempotent | src/domObserver.ts:249 | trimming twice is the same as trimming once |
| Text.TrimUnchanged | src/domObserver.ts:249 | `trim` leaves a string alone when it neither starts nor ends with whitespace |
| SelectorParser.KeyOf | src/domObserver.ts:253-260 | the key is a prefix of the text after the sigil, holds no space and no sigil, and stops at the first space, at the next same sigil, or at the end |
| SelectorParser.ParseSegments | src/domObserver.ts:251-263 | every id result is a `#` segment of the input keyed by its `KeyOf`; every class result is the same for `.` |
| SelectorParser.Segments | src/domObserver.ts:247-249 | the comma parts of the selector, each trimmed, in order (its properties are those of `SegmentsAreTrimmed`) |
| SelectorParser.SegmentsAreTrimmed | src/domObserver.ts:247-249 | there is one segment per comma part, each no longer than its part and neither starting nor ending with whitespace |
| SelectorParser.ParseSelector | src/domObserver.ts:244-269 | `parseSelector` is `ParseSegments` over the trimmed comma segments (its properties are those of `ParseKeepsRootedSegments`, `PartialsAreTrimmed` and `ParseSingleId`) |
| SelectorParser.ParseKeepsRootedSegments | src/domObserver.ts:247-263 | the id results are exactly the segments starting with `#`, in input order, and the class results exactly those starting with `.`; every other segment is dropped |
| SelectorParser.PartialsAreTrimmed | src/domObserver.ts:247-262 | every kept partial selector is the trimmed form of one comma-segment, is non-empty, and does not start with whitespace |
| SelectorParser.ParseSingleId | src/domObserver.ts:244-269 | `parseSelector('#' + name)` for a name without whitespace, comma or `#` gives one id result, whose key is the name and whose partial selector is the whole selector, and no class results |
| SelectorIndex.Register | src/domObserver.ts:114-121 | `on`'s update of one key appends the entry to that key's list, creating the list if the key was absent; every other key is unchanged |
| SelectorIndex.RegisterPreservesValid | src/domObserver.ts:114-121 | appending an entry that belongs under its key keeps the index invariant: no key maps to an empty list, and every entry sits under a key its own selector parses to |
| SelectorIndex.FindFirst | src/domObserver.ts:168-170 | `findIndex` returns the first position holding the selector, or none iff no position holds it |
| SelectorIndex.Unregister | src/domObserver.ts:162-182 | a missing key or a missing selector changes nothing and stops nothing; otherwise the entry at the first match is stopped, the list is cut there (`splice(i)`), and the key goes iff nothing is left; other keys are unchanged |
| SelectorIndex.UnregisterClearsSelector | src/domObserver.ts:168-182 | after one key is handled, no entry of the selector is left under it, and the index invariant still holds |
| SelectorIndex.TruncationDropsLaterEntries | src/domObserver.ts:178 | the cut also drops every entry registered after the first match under that key, whatever its selector |
| Dom.QuerySelector | src/domObserver.ts:198 | the query throws exactly on an invalid selector, and a match is the snapshot's answer for that node and selector |
| Dom.QueryAll | src/domObserver.ts:124 | `document.querySelectorAll` throws exactly on an invalid selector |
| Dom.ElementsByClassName | src/domObserver.ts:126 | `getElementsByClassName` never throws: it gives the snapshot's list for the name, or no element |
| MatchResolver.StartObserver | src/domObserver.ts:232-242 | start always creates a fresh active observer on the element and writes it into the entry's slot; any previous observer in the slot is overwritten, not disconnected; other slots and the event log are unchanged |
| MatchResolver.StopObserver | src/domObserver.ts:224-230 | stop with an empty slot is a no-op; otherwise the slot's observer is disconnected and the slot deleted; other slots, other observers and the event log are unchanged |
| MatchResolver.StartPreservesValid | src/domObserver.ts:232-242 | start keeps the table invariant: every slot holds a live observer and no two slots share one |
| MatchResolver.StopPreservesValid | src/domObserver.ts:224-230 | stop keeps the table invariant |
| MatchResolver.RestartLeaksObserver | src/domObserver.ts:237-241 | starting twice for one entry leaves the first observer active but reachable from no slot |
| MatchResolver.ResolveTarget | src/domObserver.ts:197-209 | the entry is skipped exactly when its partial selector has a space and the full-selector query finds nothing; an invalid full selector throws; `useTargetNode` picks the container; `useParentNode` or a spaceless partial picks the node; otherwise the query's answer is picked; a null container under `useTargetNode` throws |
| MatchResolver.EntryStep | src/domObserver.ts:195-221 | one entry emits at most one event and creates at most one observer; a throw leaves the sink as it was |
| MatchResolver.EntriesStep | src/domObserver.ts:193-222 | `processObservedResults` emits at most one event and creates at most one observer per entry; neither list ever shrinks |
| MatchResolver.ClassesStep | src/domObserver.ts:290-301 | the class loop never shrinks the event log or the observer list |
| MatchResolver.PairStep | src/domObserver.ts:277-301 | one pending pair never shrinks the event log or the observer list |
| MatchResolver.PairsStep | src/domObserver.ts:271-303 | `processMutations` never shrinks the event log or the observer list |
| MatchResolver.EntryStepOutcome | src/domObserver.ts:195-221 | a skipped entry changes nothing; a throw stops; a found element gets the attribute step (a fresh observer in the slot when connected, the slot emptied when not, nothing without `attributes`) followed by exactly one event carrying the element, its connection state and the selector's listeners |
| MatchResolver.AttributeStepKeeps | src/domObserver.ts:211-218 | the attribute step keeps the table invariant, adds no event, and only appends observers or disconnects them |
| MatchResolver.EntryStepKeeps | src/domObserver.ts:195-221 | one entry keeps the table invariant; the event log only grows, and each new event reaches exactly the selector's current listeners; a disconnected observer stays disconnected |
| MatchResolver.EntriesStepKeeps | src/domObserver.ts:193-222 | `processObservedResults` keeps the same invariants over a whole list |
| MatchResolver.ClassesStepKeeps | src/domObserver.ts:290-301 | the class loop keeps the same invariants |
| MatchResolver.PairStepKeeps | src/domObserver.ts:277-301 | one pending pair keeps the same invariants |
| MatchResolver.PairsStepKeeps | src/domObserver.ts:271-303 | `processMutations` keeps the same invariants |
| MatchResolver.PlainEntryEmits | src/domObserver.ts:195-221 | an entry with a spaceless partial selector and no options emits one event for the node itself and changes nothing else |
| MatchResolver.PlainEntriesEmit | src/domObserver.ts:193-222 | plain entries emit one event each for the node, in registration order |
| MatchResolver.PlainClassesEmit | src/domObserver.ts:290-301 | with plain entries, the class loop emits the entries of each trimmed class in `classList` order |
| MatchResolver.PairStepOrder | src/domObserver.ts:277-301 | with plain entries, one pending node emits the events of its trimmed id's entries first (only when the raw id is non-empty), then those of each class; nothing is deduplicated |
| MatchResolver.UnmatchedPairIsNoOp | src/domObserver.ts:277-301 | a node whose trimmed id and trimmed classes index nothing changes nothing |
| MatchResolver.NoClassesIsNoOp | src/domObserver.ts:290-301 | classes that index nothing change nothing |
| MatchResolver.Emissions | src/domObserver.ts:220 | plain entries give one event per entry, in order, each reaching the selector's listeners |
| MutationBatcher.WithContainer | src/domObserver.ts:70-74 | each descendant gets one pair with the record's target as container, in document order |
| MutationBatcher.NodePairs | src/domObserver.ts:59-75 | a node yields nothing exactly when it is not an element or its `nodeName` is in `IGNORED_HTML_TAGS`; otherwise its own pair comes first; every pair has the record's target as container |
| MutationBatcher.IgnoredTagsYieldNothing | src/domObserver.ts:33-40 | an element named `BR`, `HEAD`, `LINK`, `META`, `SCRIPT` or `STYLE` yields no pair, for itself or its descendants |
| MutationBatcher.NodesPairs | src/domObserver.ts:59-75 | every pair from a list of nodes has the record's target as container |
| MutationBatcher.RecordPairs | src/domObserver.ts:49-56 | a record with no added and no removed nodes yields nothing; every pair has the record's target as container |
| MutationBatcher.Pending | src/domObserver.ts:46-79 | the pending list of a batch, record by record (its properties are those of `PendingMembership` and `PendingConcat`) |
| MutationBatcher.PushNode | src/domObserver.ts:59-75 | a non-element or ignored tag adds nothing; any other node adds its own pair, then its `[id],[class]` descendants' pairs unless it has no child elements |
| MutationBatcher.PushRecord | src/domObserver.ts:48-77 | a record with no added and no removed nodes adds nothing; otherwise the added nodes' pairs come before the removed nodes' pairs |
| MutationBatcher.CollectPending | src/domObserver.ts:46-79 | the callback's loop builds exactly the batch's pending list, record by record |
| MutationBatcher.NodePairsMembership | src/domObserver.ts:59-75 | a pair comes from a node iff its container is the record's target and the node is kept and is that element or one of its `[id],[class]` descendants |
| MutationBatcher.NodesPairsMembership | src/domObserver.ts:59-75 | the same over a list of nodes |
| MutationBatcher.PendingMembership | src/domObserver.ts:46-79 | a pair is pending iff some record of the batch yields it from its added or removed nodes, with that record's target as container: nothing is invented and nothing is lost |
| MutationBatcher.PendingConcat | src/domObserver.ts:48-77 | records are handled in order: a batch's list is its parts' lists concatenated |
| Observer.RegisterKindAppends | src/domObserver.ts:113-128 | when nothing throws, `on` appends exactly one new entry per parsed result to its key's list, in order; each entry uses a new identity; other keys and earlier entries are unchanged |
| Observer.RegisterKind | src/domObserver.ts:113-128 | `on`'s loop over one kind, stopping at the first query that throws (its properties are those of `RegisterKindAppends`, `RegisterKindKeeps`, `RegisterKindGrows` and `ClassKindCompletes`) |
| Observer.ClassKindCompletes | src/domObserver.ts:125-127 | the class loop of `on` never throws |
| Observer.RegisterKindKeeps | src/domObserver.ts:113-128 | `on`'s loop keeps the index invariant, even when it stops at a throw, and the next identity stays above every entry |
| Observer.RegisterKindValid | src/domObserver.ts:113-121 | every entry `on` adds sits under a key of its own selector |
| Observer.RegisterKindBelow | src/domObserver.ts:113-121 | identities are issued in order, so the next one stays above every entry |
| Observer.NewEntriesShape | src/domObserver.ts:113-121 | the entries `on` appends carry the `on` selector, and only the keys it parsed receive any |
| Observer.RegisterKindGrows | src/domObserver.ts:113-128 | `on` grows the index only by appending entries of its selector |
| Observer.UnregisterKindKeeps | src/domObserver.ts:161-183 | `off`'s loop keeps the index and table invariants and adds no event |
| Observer.UnregisterKind | src/domObserver.ts:161-183 | `off`'s loop creates no observer, emits nothing, and leaves every key the results do not name as it was |
| Observer.OffLeaksDroppedObservers | src/domObserver.ts:176-178 | `off` stops only the observer of the entry it cuts at; a later entry under the same key leaves the index while its attribute observer stays live in the table |
| Observer.UnregisterKindClears | src/domObserver.ts:161-183 | `off`'s loop only cuts lists and leaves no entry of the selector under any key it handled |
| Observer.UnregisterRestoresKey | src/domObserver.ts:168-182 | after `on` appended entries of a selector nothing watched before, `off`'s handling of a key restores that key's list (and its presence) from before `on` |
| Observer.UnregisterKeepsGrown | src/domObserver.ts:168-182 | handling one key leaves the index as the old one grown only by the selector's entries |
| Observer.UnregisterKindRestores | src/domObserver.ts:161-183 | `off`'s loop after `on`'s, over the same results, restores every key they name and leaves all other keys as they were |
| Observer.OffUndoesOn | src/domObserver.ts:91-185 | for a selector nothing watched yet, unregistering right after registering gives back exactly the index from before, for either kind |
| Observer.OffClearsSelector | src/domObserver.ts:146-183 | once its last listener is gone, `off` leaves no entry of the selector, under any key, in an index of either kind |
| Observer.SeedPairs | src/domObserver.ts:132-135 | the seed pass pairs each found element with its `parentElement` (possibly null), in the order found |
| Observer.AddListener | src/domObserver.ts:131 | the emitter's `on` adds one registration of the callback for the selector and no other |
| Observer.RemoveListener | src/domObserver.ts:142 | the emitter's `off` removes one registration of the callback, if there is one, and touches no other selector |
| Observer.DOMObserver.constructor | src/domObserver.ts:30-32 | a new observer has empty indexes, an empty attribute table, no listeners and no events |
| Observer.DOMObserver.Emit | src/domObserver.ts:220 | `emit` appends one event reaching exactly the key's current listeners |
| Observer.DOMObserver.ListenerCount | src/domObserver.ts:144 | `listenerCount(selector)` is zero exactly when no callback is registered for the selector |
| Observer.DOMObserver.StopAttributeObserver | src/domObserver.ts:224-230 | the new table state is `StopObserver` of the old one |
| Observer.DOMObserver.StartAttributeObserver | src/domObserver.ts:232-242 | the new table state is `StartObserver` of the old one |
| Observer.DOMObserver.OnAttributeMutation | src/domObserver.ts:237-239 | an attribute observer's callback emits `(selector, element, isConnected)` while connected and nothing after it was disconnected |
| Observer.DOMObserver.ProcessEntry | src/domObserver.ts:195-221 | one loop iteration has exactly the effect `EntryStep` describes |
| Observer.DOMObserver.ProcessObservedResults | src/domObserver.ts:187-222 | the loop over the entries has exactly the effect `EntriesStep` describes, stopping at a throw |
| Observer.DOMObserver.ProcessClasses | src/domObserver.ts:290-301 | the class loop has exactly the effect `ClassesStep` describes |
| Observer.DOMObserver.ProcessPair | src/domObserver.ts:277-301 | one pending pair has exactly the effect `PairStep` describes |
| Observer.DOMObserver.ProcessMutations | src/domObserver.ts:271-303 | `processMutations` has the effect `PairsStep` describes; it keeps the invariants, and the log grows only by events reaching the current listeners |
| Observer.DOMObserver.HandleMutations | src/domObserver.ts:45-82 | the batch callback classifies exactly `Pending(records)`, so an empty batch does nothing |
| Observer.DOMObserver.RegisterOne | src/domObserver.ts:113-127 | one result: the entry is appended under its key with the next identity, then the seed query of that kind runs |
| Observer.DOMObserver.RegisterResults | src/domObserver.ts:113-128 | `on`'s loop over one kind has exactly the effect `RegisterKind` describes |
| Observer.DOMObserver.WatchKind | src/domObserver.ts:99-129 | registering one kind keeps the observer invariant and has the effect `RegisterKind` describes |
| Observer.DOMObserver.Subscribe | src/domObserver.ts:131-135 | the callback is registered before the seed pass, which then runs over the seeds' `(parentElement, node)` pairs |
| Observer.DOMObserver.On | src/domObserver.ts:91-138 | ids are registered, then classes, then the callback, then the seed pass (`processMutations` over the found elements, ids' first, each with its `parentElement`) runs under the new listeners; an id query that throws stops `on` with the entries made so far, no classes registered and no callback registered |
| Observer.DOMObserver.UnregisterResults | src/domObserver.ts:161-183 | `off`'s loop over one kind has exactly the effect `UnregisterKind` describes |
| Observer.DOMObserver.UnwatchKind | src/domObserver.ts:148-184 | `off`'s cleanup of one kind keeps the invariant and leaves the selector under no key of that kind |
| Observer.DOMObserver.Off | src/domObserver.ts:141-185 | the callback is always removed first; if listeners remain, the indexes and the attribute table are untouched; otherwise both kinds are cut as `UnregisterKind` describes and the selector is left under no key |
| Observer.ObserveElement | src/domObserver.ts:308-315 | `observeElement` returns the disposer for the same selector and callback and has exactly the effect of `on`: both kinds registered as `RegisterKind` describes, then the callback and the seed pass, or a throw with no callback registered |
| Observer.Dispose | src/domObserver.ts:314 | calling the disposer has exactly the effect of `off` with the same selector and callback: the callback removed, and with no listener left both kinds cut as `UnregisterKind` describes |
| Scenarios.RegistersOnce | src/domObserver.ts:96-129 | on an empty observer, `on('#' + name)` registers a single entry under `name`, collects what the query found, and registers no class |
| Scenarios.UnregistersOnce | src/domObserver.ts:161-183 | removing that single entry leaves the id index empty |
| Scenarios.ReportsOnce | src/domObserver.ts:277-288 | a node with that id and no classes is reported once, to the one callback, with its connection state |
| Scenarios.DivPending | src/domObserver.ts:48-79 | a record adding or removing a childless `<div>` yields the single pair `(body, div)` |
| Scenarios.SeedThenDispose | src/domObserver.ts:91-185 | watching a present element reports it once through the seed pass; disposing then leaves no watched id and no listener |
| Scenarios.ReportDivChange | src/domObserver.ts:45-82 | one batch about the div reports it once, with its connection state, and changes no index or listener |
| Scenarios.InsertThenRemove | src/domObserver.ts:45-138 | watching before the element exists reports nothing; inserting it reports `(div, true)` once; then removing it reports `(div, false)` once |
| Throttling.Throttle.constructor | src/throttle.ts:1-8 | a new throttle is idle with nothing saved and nothing called; the delay defaults to 500 |
| Throttling.Throttle.Call | src/throttle.ts:9-20 | when idle, `fn` is called now with this call's `this` and arguments, and exactly one timer is scheduled; when throttled, nothing is called and this call replaces the saved one; either way the throttle ends throttled and the timer invariant holds |
| Throttling.Throttle.TimerFire | src/throttle.ts:21-31 | the timer always leaves the throttled state; with a saved call whose `this` and arguments are both non-null, that call goes through `wrapper` (one call of `fn`, one new timer) and the slots are cleared; otherwise nothing is called and the throttle is idle with no timer pending |
| Throttling.BurstOfThree | src/throttle.ts:9-31 | three calls in one window reach `fn` as the first and the last |
| Throttling.SavedNullThis | src/throttle.ts:24 | a call saved with a `null` this is never replayed and its arguments stay saved; an `undefined` this is replayed |

## Behaviour modelled as written

The model follows the code in each of these places:

- `off` cuts a list at the first entry of the selector (`splice(i)` with one argument, `src/domObserver.ts:178`). Every later entry under that key is dropped too, even one belonging to another selector (`SelectorIndex.TruncationDropsLaterEntries`).
- `off` stops the attribute observer of the first matching entry only (`src/domObserver.ts:176-177`). The later entries that `splice(i)` drops keep their observers live, still in the table, and no later `off` can reach them (`Observer.OffLeaksDroppedObservers`).
- Per entry, the attribute observer is started or stopped before the event is emitted (`src/domObserver.ts:212-220`), so the callback runs after a disconnected element's observer is torn down (`MatchResolver.EntryStepOutcome`).
- `on` registers the callback with the emitter before the seed pass (`src/domObserver.ts:131-135`), so the seed events already reach the new callback (`Observer.DOMObserver.Subscribe`).
- `startAttributeObserver` is not idempotent (`src/domObserver.ts:237-241`). It always creates a new observer and overwrites the slot, so a second start leaves the first observer live and unreachable (`MatchResolver.RestartLeaksObserver`).
- A partial selector with a space is resolved with `node.querySelector` on the full selector, not the partial one (`src/domObserver.ts:198`).
- A null result of that query skips the entry even when `useParentNode` would have reset the target to the node (`src/domObserver.ts:201`).
- The key stops at the first space or at the next occurrence of the same sigil. For example, `#a#b` is keyed `a` (`src/domObserver.ts:254`, `259`).
- The batcher does not deduplicate pairs.
- Added nodes come before removed nodes only within each record, not across the batch (`src/domObserver.ts:48-77`).
- `on` appends a new entry on every call, even for a selector already watched under that key (`src/domObserver.ts:117-121`).
- `off` does its cleanup whenever no listener of the selector remains, even if the callback was never registered (`src/domObserver.ts:142-144`).
- `throttle` replays a saved call only when `savedThis !== null` (`src/throttle.ts:24`). A call made with a `null` this while throttled is therefore never made, and its arguments stay saved.

## Left out

- The real `MutationObserver` objects, `observe(document, …)` and `disconnect()` (`src/domObserver.ts:45`, `84-87`, `228`, `237-240`) are not modelled.
  - Mutation records and the DOM are inputs.
  - An attribute observer is a record of its selector, element and whether it is still connected.
  - Its callback is `OnAttributeMutation`, which the environment calls.
- The `@zero-dependency/emitter` package is not part of this model. Its `on`, `off`, `listenerCount` and `emit` are modelled as a multiset of callback identities per selector plus a log of emitted events. Callbacks are not run. The return value of `on` and `super.on` (`this`) is not modelled.
- Callbacks that call `on` or `off`, or change the DOM, from inside an emit are not modelled.
- The model is single-threaded and batches are atomic.
- `waitElement` (`src/domObserver.ts:317-332`) is not modelled: it is a `Promise` wrapper around `observeElement`.
- The other source files are not part of this model. They are the location observers, `fetcher`, `html`, the wait helpers and the re-exports.
- Exceptions are not modelled as JavaScript exceptions. A throw from a query, or from `null.isConnected`, becomes `ok == false` with the effects so far kept. The exception's kind and its propagation to the caller are not modelled.
- Observer.ObserveElement: when `on` throws, JavaScript returns no disposer. The model still returns one, with `ok == false`.
- CSS selector matching is not modelled. Its results come from the `Document` oracles.
- DOM values are always present in the snapshot, so the defensive checks against absent values are not modelled. Those checks are `!addedNodes`, `!results`, `typeof nodeId === 'string'` and `nodeClassList &&`.
- `classList` is taken as given, duplicates included.
- Time is not modelled in `throttle`. `setTimeout` increments a count of scheduled timers, and the timer callback is `TimerFire`, called while a timer is pending. `delay` is stored but never read.
- Throttling.Throttle.Call: `fn` is assumed to return normally. In the source a throw from `fn` (`src/throttle.ts:17`) skips `isThrottle = true` and `setTimeout`, so a call would be logged with no timer. During a replay (`src/throttle.ts:25`) it also skips the clearing at `src/throttle.ts:27-28`, leaving an idle throttle with a replayable saved call. Both states are outside `Valid()`. `fn` is also assumed not to call the throttled function: `isThrottle` is set only after `fn` returns (`src/throttle.ts:17-19`), so a nested call would run `fn` again at once and schedule a second timer, and the properties `Timers()` and one call of `fn` per window do not hold for such an `fn`.
- Throttling.Throttle.TimerFire: the replay goes through `wrapper` (`src/throttle.ts:25`), so it rests on the same two assumptions about `fn`: a replayed `fn` that throws, or that calls the throttled function, would leave the states described for `Call`.
- The return value of `fn` is not modelled; `wrapper` discards it in the source too.
- A `delay` argument of JavaScript `null`, which does not fall back to the default, is not modelled: `None` stands for an omitted or `undefined` delay.
- Strings are sequences of Dafny `char`, which are Unicode scalar values. JavaScript strings are UTF-16 code units, and surrogate pairs are not modelled separately.
- `trim` removes the ECMAScript WhiteSpace and LineTerminator characters.

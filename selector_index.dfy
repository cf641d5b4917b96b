/**
 * The two selector indexes of `DOMObserver` (`observedIds`, `observedClassNames`):
 * each maps a key to the ordered list of watch entries registered under it.
 * `on` appends (`push`, or a fresh one-entry list); `off` finds the first entry
 * of the selector, truncates the list there (`splice(i)` with one argument) and
 * deletes the key once its list is empty.
 */
module SelectorIndex {
  import opened Wrappers
  import opened Text
  import opened SelectorParser

  /** The `options` of `on`; an omitted options object reads as all flags off. */
  datatype Options = Options(attributes: bool, useParentNode: bool, useTargetNode: bool)

  const NO_OPTIONS: Options := Options(false, false, false)

  /** One `{ partialSelector, selector, options }` object. JavaScript compares these by
      identity (the attribute-observer table is keyed by them), so each carries a `uid`. */
  datatype WatchEntry = WatchEntry(uid: nat, partialSelector: string, selector: string, options: Options)

  type Index = map<string, seq<WatchEntry>>

  /** `index[key]`, reading a missing key as the empty list. */
  function Lookup(idx: Index, key: string): (es: seq<WatchEntry>)
  {
    if key in idx then idx[key] else []
  }

  /** An index as `on` and `off` leave it: no key maps to an empty list, and every entry under
      `key` came from a segment of its own selector that starts with `sigil` and has that key. */
  ghost predicate IndexValid(idx: Index, sigil: char)
    requires sigil == ID_SIGIL || sigil == CLASS_SIGIL
  {
    forall key :: key in idx ==> |idx[key]| > 0 && forall e :: e in idx[key] ==> EntryUnder(e, key, sigil)
  }

  /** Every entry of the index was created before `bound`. */
  ghost predicate IndexBelow(idx: Index, bound: nat)
  {
    forall k, e :: k in idx && e in idx[k] ==> e.uid < bound
  }

  ghost predicate EntryUnder(e: WatchEntry, key: string, sigil: char)
    requires sigil == ID_SIGIL || sigil == CLASS_SIGIL
  {
    ParsedResult(key, e.partialSelector) in Results(ParseSelector(e.selector), sigil)
  }

  /** The results of one kind: ids for `#`, classNames for `.`. */
  function Results(p: ParsedSelector, sigil: char): (rs: seq<ParsedResult>)
  {
    if sigil == ID_SIGIL then p.ids else p.classNames
  }

  /** `on`'s update of one key: a fresh list `[e]`, or `push(e)` onto the present one. */
  function Register(idx: Index, key: string, e: WatchEntry): (r: Index)
    ensures key in r && r[key] == Lookup(idx, key) + [e]
    ensures forall k :: k != key ==> Lookup(r, k) == Lookup(idx, k)
    ensures r.Keys == idx.Keys + {key}
  {
    if key !in idx then idx[key := [e]] else idx[key := idx[key] + [e]]
  }

  lemma RegisterPreservesValid(idx: Index, key: string, e: WatchEntry, sigil: char)
    requires sigil == ID_SIGIL || sigil == CLASS_SIGIL
    requires IndexValid(idx, sigil) && EntryUnder(e, key, sigil)
    ensures IndexValid(Register(idx, key, e), sigil)
  {
    var r := Register(idx, key, e);
    forall k | k in r ensures |r[k]| > 0 && forall x :: x in r[k] ==> EntryUnder(x, k, sigil) {
      if k == key {
        forall x | x in r[k] ensures EntryUnder(x, k, sigil) {
          if x != e { assert x in Lookup(idx, key); }
        }
      } else {
        assert r[k] == idx[k];
      }
    }
  }

  /** `list.findIndex(e => e.selector === selector)`: the first position holding the selector. */
  function FindFirst(list: seq<WatchEntry>, selector: string): (r: Option<nat>)
    ensures r.Some? ==> r.value < |list| && list[r.value].selector == selector
    ensures r.Some? ==> forall j :: 0 <= j < r.value ==> list[j].selector != selector
    ensures r.None? <==> forall j :: 0 <= j < |list| ==> list[j].selector != selector
  {
    if list == [] then None
    else if list[0].selector == selector then Some(0)
    else match FindFirst(list[1..], selector)
      case None => None
      case Some(i) => Some(i + 1)
  }

  /** What `off` does to one key: the new index and the entry whose attribute observer it stops. */
  datatype Removal = Removal(idx: Index, stopped: Option<WatchEntry>)

  /** `off`'s update of one key, as written: the list is cut at the first entry of `selector`
      (`splice(i)`), so that entry and every entry after it go; an emptied list loses its key. */
  function Unregister(idx: Index, key: string, selector: string): (r: Removal)
    ensures key !in idx || FindFirst(idx[key], selector).None? ==> r == Removal(idx, None)
    ensures key in idx && FindFirst(idx[key], selector).Some? ==>
      var i := FindFirst(idx[key], selector).value;
      && r.stopped == Some(idx[key][i])
      && Lookup(r.idx, key) == idx[key][..i]
      && (key in r.idx <==> i > 0)
    ensures forall k :: k != key ==> Lookup(r.idx, k) == Lookup(idx, k) && (k in r.idx <==> k in idx)
  {
    if key !in idx then Removal(idx, None)
    else match FindFirst(idx[key], selector)
      case None => Removal(idx, None)
      case Some(i) =>
        var kept := idx[key][..i];
        Removal(if |kept| == 0 then idx - {key} else idx[key := kept], Some(idx[key][i]))
  }

  /** After `off` has handled a key, no entry of that selector is left under it (all entries
      before the cut belong to other selectors), and no key maps to an empty list. */
  lemma {:induction false} UnregisterClearsSelector(idx: Index, key: string, selector: string, sigil: char)
    requires sigil == ID_SIGIL || sigil == CLASS_SIGIL
    requires IndexValid(idx, sigil)
    ensures IndexValid(Unregister(idx, key, selector).idx, sigil)
    ensures forall e :: e in Lookup(Unregister(idx, key, selector).idx, key) ==> e.selector != selector
  {
    var r := Unregister(idx, key, selector);
    if key in idx && FindFirst(idx[key], selector).Some? {
      var i := FindFirst(idx[key], selector).value;
      forall e | e in Lookup(r.idx, key) ensures e.selector != selector {
        var j :| 0 <= j < i && idx[key][j] == e;
      }
      forall k | k in r.idx ensures |r.idx[k]| > 0 && forall e :: e in r.idx[k] ==> EntryUnder(e, k, sigil) {
        if k == key {
          assert forall e :: e in r.idx[k] ==> e in idx[k];
        }
      }
    } else {
      assert forall e :: e in Lookup(idx, key) ==> e.selector != selector;
    }
  }

  /** The truncation reaches past the selector's own entry: everything registered after it under
      the same key, for any selector, is dropped too. */
  lemma TruncationDropsLaterEntries(idx: Index, key: string, selector: string, j: nat)
    requires key in idx && FindFirst(idx[key], selector).Some?
    requires FindFirst(idx[key], selector).value <= j < |idx[key]|
    ensures |Lookup(Unregister(idx, key, selector).idx, key)| <= j
  {
  }
}

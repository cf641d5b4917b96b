/**
 * The browser side of the watcher, as input data. A `Document` is a snapshot of
 * the DOM at the moment an operation runs: what each node reports (`nodeType`,
 * `nodeName`, `id`, `classList`, `isConnected`, `parentElement`,
 * `childElementCount`) and, as oracles, what the CSS queries the watcher issues
 * would return. CSS matching itself is not modelled; a selector string the
 * browser rejects is listed in `invalidSelectors`, and querying it throws.
 */
module Dom {
  import opened Wrappers

  /** Node identity: two handles are the same node exactly when they are equal. */
  type Handle = nat

  datatype NodeInfo = NodeInfo(
    isElement: bool,                 // nodeType === Node.ELEMENT_NODE
    nodeName: string,                // upper-case tag name for HTML elements
    id: string,                      // element.id, untrimmed
    classList: seq<string>,          // element.classList, in order
    isConnected: bool,
    parentElement: Option<Handle>,
    childElementCount: nat,
    idOrClassDescendants: seq<Handle> // element.querySelectorAll('[id],[class]'), document order
  )

  datatype Document = Document(
    nodes: map<Handle, NodeInfo>,
    invalidSelectors: set<string>,             // selector strings querySelector* rejects (SyntaxError)
    queryAll: map<string, seq<Handle>>,        // document.querySelectorAll(sel); absent = no match
    byClassName: map<string, seq<Handle>>,     // document.getElementsByClassName(names); absent = none
    querySelector: map<(Handle, string), Handle> // node.querySelector(sel); absent = null
  )
  {
    /** What a node reports; a handle the snapshot does not list behaves as a detached non-element. */
    function Node(h: Handle): (info: NodeInfo)
    {
      if h in nodes then nodes[h] else NodeInfo(false, "", "", [], false, None, 0, [])
    }
  }

  /** What a `querySelector` call can do: throw, return null, or return an element. */
  datatype Query = Throws | NoMatch | Match(found: Handle)

  /** `node.querySelector(sel)`. */
  function QuerySelector(doc: Document, node: Handle, sel: string): (q: Query)
    ensures q.Throws? <==> sel in doc.invalidSelectors
    ensures q.Match? ==> (node, sel) in doc.querySelector && q.found == doc.querySelector[(node, sel)]
  {
    if sel in doc.invalidSelectors then Throws
    else if (node, sel) in doc.querySelector then Match(doc.querySelector[(node, sel)])
    else NoMatch
  }

  /** `document.querySelectorAll(sel)`: `None` when it throws. */
  function QueryAll(doc: Document, sel: string): (r: Option<seq<Handle>>)
    ensures r.None? <==> sel in doc.invalidSelectors
  {
    if sel in doc.invalidSelectors then None
    else if sel in doc.queryAll then Some(doc.queryAll[sel])
    else Some([])
  }

  /** `document.getElementsByClassName(names)`, which never throws. */
  function ElementsByClassName(doc: Document, names: string): (hs: seq<Handle>)
    ensures names in doc.byClassName ==> hs == doc.byClassName[names]
    ensures names !in doc.byClassName ==> hs == []
  {
    if names in doc.byClassName then doc.byClassName[names] else []
  }

  /** One `MutationRecord` of a `childList` observation. */
  datatype MutationRecord = MutationRecord(target: Handle, addedNodes: seq<Handle>, removedNodes: seq<Handle>)

  /** One entry of the batcher's `pendingNodes`: the mutation's target (the container) and a
      node to classify. The seed pass of `on` uses `parentElement`, which may be null. */
  datatype PendingNode = PendingNode(container: Option<Handle>, node: Handle)
}

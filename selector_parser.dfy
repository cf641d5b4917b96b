/**
 * `DOMObserver.parseSelector`: a selector list is split on commas, each segment is
 * trimmed, and a segment is kept only when it starts with `#` (an id-rooted
 * segment) or `.` (a class-rooted one). A kept segment is indexed by its key,
 * the text after the sigil up to the first space or the next same sigil.
 */
module SelectorParser {
  import opened Text

  const ID_SIGIL: char := '#'
  const CLASS_SIGIL: char := '.'

  /** One kept segment: the key it is indexed by and the trimmed segment itself. */
  datatype ParsedResult = ParsedResult(key: string, partialSelector: string)

  datatype ParsedSelector = ParsedSelector(ids: seq<ParsedResult>, classNames: seq<ParsedResult>)

  /** `segment.split(' ')[0].split(sigil)[1]`, with what that text is. */
  function KeyOf(segment: string, sigil: char): (key: string)
    requires StartsWith(segment, sigil) && sigil != ' '
    ensures key <= segment[1..]
    ensures ' ' !in key && sigil !in key
    ensures key == segment[1..] || segment[1 + |key|] == ' ' || segment[1 + |key|] == sigil
  {
    var rest := segment[1..];
    SplitHead(segment, ' ');
    assert Before(segment, ' ') == [sigil] + Before(rest, ' ');
    var head := Split(segment, ' ')[0];
    assert head[1..] == Before(rest, ' ');
    SplitHead(head[1..], sigil);
    Split(head, sigil)[1]
  }

  /** The loop of `parseSelector` over the trimmed segments, in order. */
  function ParseSegments(segments: seq<string>): (p: ParsedSelector)
    ensures forall r :: r in p.ids ==>
      StartsWith(r.partialSelector, ID_SIGIL) && r.key == KeyOf(r.partialSelector, ID_SIGIL) && r.partialSelector in segments
    ensures forall r :: r in p.classNames ==>
      StartsWith(r.partialSelector, CLASS_SIGIL) && r.key == KeyOf(r.partialSelector, CLASS_SIGIL) && r.partialSelector in segments
  {
    if segments == [] then ParsedSelector([], [])
    else
      var s := segments[0];
      var rest := ParseSegments(segments[1..]);
      if StartsWith(s, ID_SIGIL) then
        rest.(ids := [ParsedResult(KeyOf(s, ID_SIGIL), s)] + rest.ids)
      else if StartsWith(s, CLASS_SIGIL) then
        rest.(classNames := [ParsedResult(KeyOf(s, CLASS_SIGIL), s)] + rest.classNames)
      else rest
  }

  /** `selector.split(',').map(s => s.trim())`. */
  function Segments(selector: string): (segs: seq<string>)
  {
    var parts := Split(selector, ',');
    seq(|parts|, i requires 0 <= i < |parts| => Trim(parts[i]))
  }

  /** One segment per comma part, each no longer than its part and neither starting nor ending
      with whitespace. */
  lemma SegmentsAreTrimmed(selector: string)
    ensures var segs := Segments(selector);
      && |segs| == |Split(selector, ',')|
      && (forall i :: 0 <= i < |segs| ==> |segs[i]| <= |Split(selector, ',')[i]|)
      && (forall i :: 0 <= i < |segs| ==> segs[i] == [] || (!IsWhitespace(segs[i][0]) && !IsWhitespace(segs[i][|segs[i]| - 1])))
  {
  }

  /** `parseSelector(selector)`. */
  function ParseSelector(selector: string): (p: ParsedSelector)
  {
    ParseSegments(Segments(selector))
  }

  /** The segments that start with `sigil`, in input order (the reference definition). */
  function Rooted(segments: seq<string>, sigil: char): (rooted: seq<string>)
  {
    if segments == [] then []
    else (if StartsWith(segments[0], sigil) then [segments[0]] else []) + Rooted(segments[1..], sigil)
  }

  function Partials(rs: seq<ParsedResult>): (ps: seq<string>)
  {
    if rs == [] then [] else [rs[0].partialSelector] + Partials(rs[1..])
  }

  /** Exactly the `#` segments become id results and exactly the `.` segments class results, in
      input order; every other segment is dropped. */
  lemma {:induction false} ParseKeepsRootedSegments(segments: seq<string>)
    ensures Partials(ParseSegments(segments).ids) == Rooted(segments, ID_SIGIL)
    ensures Partials(ParseSegments(segments).classNames) == Rooted(segments, CLASS_SIGIL)
  {
    if segments != [] {
      ParseKeepsRootedSegments(segments[1..]);
    }
  }

  /** Every kept partial selector is a trimmed comma segment of the selector. */
  lemma PartialsAreTrimmed(selector: string, r: ParsedResult)
    requires r in ParseSelector(selector).ids || r in ParseSelector(selector).classNames
    ensures exists i :: 0 <= i < |Split(selector, ',')| && r.partialSelector == Trim(Split(selector, ',')[i])
    ensures r.partialSelector != [] && !IsWhitespace(r.partialSelector[0])
  {
    var segs := Segments(selector);
    var i :| 0 <= i < |segs| && segs[i] == r.partialSelector;
    assert r.partialSelector == Trim(Split(selector, ',')[i]);
    TrimIsInfix(Split(selector, ',')[i]);
  }

  /** A name `#` can be followed by and still be one whole key: not empty, and no whitespace,
      comma or `#` in it. */
  predicate PlainName(name: string)
  {
    |name| > 0 && forall i :: 0 <= i < |name| ==> !IsWhitespace(name[i]) && name[i] != ',' && name[i] != ID_SIGIL
  }

  /** `parseSelector('#' + name)` for a plain name: one id result whose key is the name. */
  lemma ParseSingleId(name: string)
    requires PlainName(name)
    ensures ParseSelector([ID_SIGIL] + name) == ParsedSelector([ParsedResult(name, [ID_SIGIL] + name)], [])
  {
    var sel := [ID_SIGIL] + name;
    assert forall i :: 0 <= i < |sel| ==> sel[i] != ',' by {
      forall i | 0 <= i < |sel| ensures sel[i] != ',' {
        if i > 0 { assert sel[i] == name[i - 1]; }
      }
    }
    SplitWithoutSep(sel, ',');
    assert sel[|sel| - 1] == name[|name| - 1];
    TrimUnchanged(sel);
    assert Segments(sel) == [sel];
    var key := KeyOf(sel, ID_SIGIL);
    assert sel[1..] == name;
    assert key == name;
    assert [sel][1..] == [];
    assert ParseSegments([sel]) == ParsedSelector([ParsedResult(key, sel)], []);
  }
}

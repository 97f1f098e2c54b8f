/**
 * The text preview shown in the "Data"/"Content" column of the events and records tables:
 * a representative string picked out of an item's content and metadata, cut to a fixed
 * length for display.
 */
module Preview {
  import opened Wrappers
  import opened JsonValue

  /** The field names tried, in this order, before any scan. */
  const TextFields: seq<string> := ["text", "content", "message", "description", "summary", "value"]
  /** The scan keeps strings strictly longer than this. */
  const MinScanLength := 10
  /** The scan visits the root at depth 0 and nothing deeper than this depth. */
  const MaxScanDepth := 3
  /** What the extractor returns when nothing better is found. */
  const Sentinel := "Complex data structure"
  /** Longer previews are cut to this many characters and given an ellipsis. */
  const PreviewLimit := 100

  // ---------------------------------------------------------------------------------------
  // Canonical fields
  // ---------------------------------------------------------------------------------------

  /** `v && typeof v === 'string'`: a present, non-empty string. */
  function NonEmptyString(v: Option<Json>): Option<string> {
    if v.Some? && v.value.JStr? && v.value.s != "" then Some(v.value.s) else None
  }

  /**
   * One step of the field loop: `obj[field]` if it is a non-empty string, otherwise
   * `obj.content[field]` if `obj.content` is truthy and that is a non-empty string. A hit is
   * a non-empty string stored under the field in one of the two places, and the top level wins.
   */
  function FieldHit(obj: Json, field: string): (r: Option<string>)
    ensures NonEmptyString(Get(obj, field)).Some? ==> r == NonEmptyString(Get(obj, field))
    ensures r.Some? ==> r.value != ""
    ensures r.Some? ==> (Get(obj, field) == Some(JStr(r.value)) ||
      (Get(obj, "content").Some? && Get(Get(obj, "content").value, field) == Some(JStr(r.value))))
  {
    match NonEmptyString(Get(obj, field))
    case Some(s) => Some(s)
    case None =>
      var inner := Get(obj, "content");
      if inner.Some? && Truthy(inner.value) then NonEmptyString(Get(inner.value, field)) else None
  }

  /**
   * The field loop: the first field, in the order given, for which the top level or the
   * `content` object holds a non-empty string. Both places are tried for one field before
   * the next field is considered.
   */
  function CanonicalText(obj: Json, fields: seq<string>): (r: Option<string>)
    ensures r.Some? ==> r.value != ""
  {
    if fields == [] then None
    else match FieldHit(obj, fields[0])
      case Some(s) => Some(s)
      case None => CanonicalText(obj, fields[1..])
  }

  /** Field `i` hits, and no field before it does. */
  predicate FirstHit(obj: Json, fields: seq<string>, i: int)
  {
    0 <= i < |fields| && FieldHit(obj, fields[i]).Some? &&
    forall j :: 0 <= j < i ==> FieldHit(obj, fields[j]).None?
  }

  /**
   * The field loop returns the hit of the first field that hits, and nothing exactly when
   * no field hits.
   */
  lemma {:induction false} CanonicalTextIsFirstHit(obj: Json, fields: seq<string>)
    ensures CanonicalText(obj, fields).Some? ==>
      exists i :: FirstHit(obj, fields, i) && FieldHit(obj, fields[i]) == CanonicalText(obj, fields)
    ensures CanonicalText(obj, fields).None? <==>
      forall i :: 0 <= i < |fields| ==> FieldHit(obj, fields[i]).None?
  {
    if fields == [] {
    } else if FieldHit(obj, fields[0]).Some? {
      assert FirstHit(obj, fields, 0);
    } else {
      var rest := fields[1..];
      CanonicalTextIsFirstHit(obj, rest);
      assert CanonicalText(obj, fields) == CanonicalText(obj, rest);
      if CanonicalText(obj, rest).Some? {
        var i :| FirstHit(obj, rest, i) && FieldHit(obj, rest[i]) == CanonicalText(obj, rest);
        assert fields[i + 1] == rest[i];
        assert FirstHit(obj, fields, i + 1);
      } else {
        forall i | 0 <= i < |fields| ensures FieldHit(obj, fields[i]).None? {
          if i > 0 {
            assert fields[i] == rest[i - 1];
          }
        }
      }
    }
  }

  // ---------------------------------------------------------------------------------------
  // The depth-bounded scan
  // ---------------------------------------------------------------------------------------

  /**
   * `extractStrings(v, depth)`: every string longer than `MinScanLength` met in a depth-first
   * walk that visits array items and object members in order and stops below `MaxScanDepth`.
   */
  function CollectStrings(v: Json, depth: nat): (r: seq<string>)
    ensures forall s :: s in r ==> |s| > MinScanLength
    ensures depth > MaxScanDepth ==> r == []
    decreases v, 1
  {
    if depth > MaxScanDepth then []
    else match v
      case JStr(s) => if |s| > MinScanLength then [s] else []
      case JArr(xs) => CollectItems(xs, depth + 1)
      case JObj(ms) => CollectMembers(ms, depth + 1)
      case _ => []
  }

  function CollectItems(xs: seq<Json>, depth: nat): (r: seq<string>)
    ensures forall s :: s in r ==> |s| > MinScanLength
    ensures depth > MaxScanDepth ==> r == []
    decreases xs, 0
  {
    if xs == [] then [] else CollectStrings(xs[0], depth) + CollectItems(xs[1..], depth)
  }

  function CollectMembers(ms: seq<Member>, depth: nat): (r: seq<string>)
    ensures forall s :: s in r ==> |s| > MinScanLength
    ensures depth > MaxScanDepth ==> r == []
    decreases ms, 0
  {
    if ms == [] then [] else CollectStrings(ms[0].value, depth) + CollectMembers(ms[1..], depth)
  }

  /** `s` is a string node of `v` at most `budget` levels below it. */
  ghost predicate OccursWithin(v: Json, s: string, budget: nat)
    decreases budget
  {
    || v == JStr(s)
    || (budget > 0 && match v
         case JArr(xs) => exists x :: x in xs && OccursWithin(x, s, budget - 1)
         case JObj(ms) => exists m :: m in ms && OccursWithin(m.value, s, budget - 1)
         case _ => false)
  }

  lemma {:induction false} CollectItemsHas(xs: seq<Json>, depth: nat, s: string)
    ensures s in CollectItems(xs, depth) <==> exists x :: x in xs && s in CollectStrings(x, depth)
  {
    if xs != [] {
      CollectItemsHas(xs[1..], depth, s);
      assert CollectItems(xs, depth) == CollectStrings(xs[0], depth) + CollectItems(xs[1..], depth);
      assert forall x :: x in xs <==> x == xs[0] || x in xs[1..];
    }
  }

  lemma {:induction false} CollectMembersHas(ms: seq<Member>, depth: nat, s: string)
    ensures s in CollectMembers(ms, depth) <==> exists m :: m in ms && s in CollectStrings(m.value, depth)
  {
    if ms != [] {
      CollectMembersHas(ms[1..], depth, s);
      assert forall m :: m in ms <==> m == ms[0] || m in ms[1..];
    }
  }

  /**
   * The scan finds exactly the long strings that lie no deeper than `MaxScanDepth`:
   * a string is collected from a node at `depth` iff it is longer than `MinScanLength` and
   * occurs at most `MaxScanDepth - depth` levels below that node.
   */
  lemma {:induction false} CollectStringsFinds(v: Json, depth: nat, s: string)
    ensures s in CollectStrings(v, depth) <==>
      depth <= MaxScanDepth && |s| > MinScanLength && OccursWithin(v, s, MaxScanDepth - depth)
    decreases v
  {
    if depth <= MaxScanDepth {
      match v
      case JArr(xs) =>
        CollectItemsHas(xs, depth + 1, s);
        forall x | x in xs { CollectStringsFinds(x, depth + 1, s); }
      case JObj(ms) =>
        CollectMembersHas(ms, depth + 1, s);
        forall m | m in ms { CollectStringsFinds(m.value, depth + 1, s); }
      case _ =>
    }
  }

  /** `CollectStringsFinds` at the root: the strings the scan of `v` collects. */
  lemma ScanFinds(v: Json, s: string)
    ensures s in CollectStrings(v, 0) <==> |s| > MinScanLength && OccursWithin(v, s, MaxScanDepth)
  {
    CollectStringsFinds(v, 0, s);
  }

  // ---------------------------------------------------------------------------------------
  // extractTextForPreview
  // ---------------------------------------------------------------------------------------

  /**
   * `extractTextForPreview(obj)`: "" for a falsy value; else the first canonical field hit;
   * else the first string the scan collects; else `Sentinel`. Only a falsy value yields "".
   */
  function ExtractTextForPreview(obj: Json): (r: string)
    ensures r == "" <==> !Truthy(obj)
  {
    if !Truthy(obj) then ""
    else match CanonicalText(obj, TextFields)
      case Some(s) => s
      case None =>
        var found := CollectStrings(obj, 0);
        if |found| > 0 then found[0] else Sentinel
  }

  /** With no canonical hit, the extractor returns what the scan finds first, or the sentinel. */
  lemma ExtractUsesScan(obj: Json)
    requires Truthy(obj)
    requires forall i :: 0 <= i < |TextFields| ==> FieldHit(obj, TextFields[i]).None?
    ensures var found := CollectStrings(obj, 0);
      ExtractTextForPreview(obj) == if |found| > 0 then found[0] else Sentinel
  {
    CanonicalTextIsFirstHit(obj, TextFields);
  }

  /**
   * With no canonical hit and some long string lying within the depth bound, the result is
   * itself such a string.
   */
  lemma ExtractFallsBackToScan(obj: Json, s: string)
    requires Truthy(obj)
    requires forall i :: 0 <= i < |TextFields| ==> FieldHit(obj, TextFields[i]).None?
    requires |s| > MinScanLength && OccursWithin(obj, s, MaxScanDepth)
    ensures |ExtractTextForPreview(obj)| > MinScanLength
    ensures OccursWithin(obj, ExtractTextForPreview(obj), MaxScanDepth)
  {
    ExtractUsesScan(obj);
    var found := CollectStrings(obj, 0);
    ScanFinds(obj, s);
    assert s in found;
    ScanFinds(obj, found[0]);
  }

  /** With no canonical hit and no long string within the depth bound, the result is the sentinel. */
  lemma ExtractSentinelWhenScanEmpty(obj: Json)
    requires Truthy(obj)
    requires forall i :: 0 <= i < |TextFields| ==> FieldHit(obj, TextFields[i]).None?
    requires forall s :: |s| > MinScanLength ==> !OccursWithin(obj, s, MaxScanDepth)
    ensures ExtractTextForPreview(obj) == Sentinel
  {
    ExtractUsesScan(obj);
    var found := CollectStrings(obj, 0);
    if |found| > 0 {
      ScanFinds(obj, found[0]);
      assert false;
    }
  }

  /** A non-empty string under a canonical field at the top level wins when no earlier field hits. */
  lemma TopLevelFieldWins(obj: Json, i: nat, s: string)
    requires i < |TextFields| && s != ""
    requires Get(obj, TextFields[i]) == Some(JStr(s))
    requires forall j :: 0 <= j < i ==> FieldHit(obj, TextFields[j]).None?
    ensures ExtractTextForPreview(obj) == s
  {
    assert Truthy(obj);
    assert FieldHit(obj, TextFields[i]) == Some(s);
    CanonicalTextIsFirstHit(obj, TextFields);
    var k :| FirstHit(obj, TextFields, k) && FieldHit(obj, TextFields[k]) == CanonicalText(obj, TextFields);
    assert k == i;
  }

  /**
   * A non-empty string under a canonical field of the truthy `content` object wins when
   * the top level has no non-empty string under that field and no earlier field hits,
   * whatever later fields hold at the top level: the two places are tried per field.
   */
  lemma ContentFieldWins(obj: Json, i: nat, inner: Json, s: string)
    requires i < |TextFields| && s != ""
    requires NonEmptyString(Get(obj, TextFields[i])).None?
    requires Get(obj, "content") == Some(inner) && Truthy(inner)
    requires Get(inner, TextFields[i]) == Some(JStr(s))
    requires forall j :: 0 <= j < i ==> FieldHit(obj, TextFields[j]).None?
    ensures ExtractTextForPreview(obj) == s
  {
    assert Truthy(obj);
    assert FieldHit(obj, TextFields[i]) == Some(s);
    CanonicalTextIsFirstHit(obj, TextFields);
    var k :| FirstHit(obj, TextFields, k) && FieldHit(obj, TextFields[k]) == CanonicalText(obj, TextFields);
    assert k == i;
  }

  // ---------------------------------------------------------------------------------------
  // Truncation and the preview cell
  // ---------------------------------------------------------------------------------------

  /** `text.length > 100 ? text.substring(0, 100) + '...' : text`. */
  function TruncateForPreview(s: string): (r: string)
    ensures |r| <= PreviewLimit + 3
    ensures |s| <= PreviewLimit ==> r == s
    ensures |s| > PreviewLimit ==> |r| == PreviewLimit + 3 && r[..PreviewLimit] == s[..PreviewLimit] && r[PreviewLimit..] == "..."
  {
    if |s| > PreviewLimit then s[..PreviewLimit] + "..." else s
  }

  /** Truncating an already truncated preview changes nothing. */
  lemma TruncateIdempotent(s: string)
    ensures TruncateForPreview(TruncateForPreview(s)) == TruncateForPreview(s)
  {
    var r := TruncateForPreview(s);
    if |s| > PreviewLimit {
      assert r[..PreviewLimit] + "..." == r;
    }
  }

  /** What the preview cell shows. */
  datatype Preview =
    | NoContent          // the "No Content" badge
    | Snippet(text: string)
    | NoPreview          // "No preview available"

  /** `v && Object.keys(v).length > 0`. */
  predicate Present(v: Option<Json>) {
    v.Some? && Truthy(v.value) && HasKeys(v.value)
  }

  /** The object handed to the extractor: `content` and `metadata`, each only when present. */
  function MergedContent(content: Option<Json>, metadata: Option<Json>): (r: Json)
    ensures r.JObj? && Truthy(r)
    ensures Get(r, "content") == (if Present(content) then content else None)
    ensures Get(r, "metadata") == (if Present(metadata) then metadata else None)
    ensures forall m :: m in r.members ==> m.key == "content" || m.key == "metadata"
  {
    JObj((if Present(content) then [Member("content", content.value)] else [])
       + (if Present(metadata) then [Member("metadata", metadata.value)] else []))
  }

  /**
   * `generateContentPreview(content, metadata)`. The "No preview available" branch of the
   * source is kept, and the contract shows it is never taken.
   */
  function GenerateContentPreview(content: Option<Json>, metadata: Option<Json>): (r: Preview)
    ensures r == NoContent <==> !Present(content) && !Present(metadata)
    ensures r != NoPreview
    ensures r.Snippet? ==> r.text != "" && |r.text| <= PreviewLimit + 3
    ensures Present(content) || Present(metadata) ==>
      r == Snippet(TruncateForPreview(ExtractTextForPreview(MergedContent(content, metadata))))
  {
    if !Present(content) && !Present(metadata) then NoContent
    else
      var merged := MergedContent(content, metadata);
      var text := ExtractTextForPreview(merged);
      if text != "" then Snippet(TruncateForPreview(text)) else NoPreview
  }
}

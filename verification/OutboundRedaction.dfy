/** Redaction is exact: what it copies is what no hit covers. */
module OutboundRedaction {
  import opened OutboundGating

  /** A part of the redacted text: a slice of the content, or a placeholder. */
  datatype Part = Copied(from: nat, to: nat) | Masked(category: Category)

  /** The parts so far, the cursor into the content, and where the last placeholder's hit began. */
  datatype Redacting = Redacting(parts: seq<Part>, cursor: nat, since: nat)

  function Label(c: Category): string {
    match c
    case CrossRepoNames => "cross_repo_names"
    case TrackerUrls => "tracker_urls"
    case EmailHandles => "email_handles"
    case InfraEndpoints => "infra_endpoints"
    case Credentials => "credentials"
    case OrgPrivate => "org_private"
    case ObjectCountClaim => "object_count"
    case IdentifierRosterClaim => "identifier_roster"
  }

  const PLACEHOLDER_OPENS := "[REDACTED:"

  /** A slice as the source takes it: bounds past the end are clipped. */
  function Slice(content: string, from: nat, to: nat): string {
    var hi := if to < |content| then to else |content|;
    if from < hi then content[from..hi] else ""
  }

  function PartText(content: string, part: Part): string {
    match part
    case Copied(from, to) => Slice(content, from, to)
    case Masked(category) => PLACEHOLDER_OPENS + Label(category) + "]"
  }

  function Text(content: string, parts: seq<Part>): string {
    if parts == [] then "" else Text(content, parts[..|parts| - 1]) + PartText(content, parts[|parts| - 1])
  }

  /** One hit's turn. */
  function Mask(r: Redacting, h: Hit): Redacting {
    if !HasSpan(h) then r
    else if h.start.value < r.cursor then r.(cursor := if r.cursor < h.end.value then h.end.value else r.cursor)
    else Redacting(r.parts + [Copied(r.cursor, h.start.value), Masked(h.category)], h.end.value, h.start.value)
  }

  function MaskAll(hits: seq<Hit>): Redacting {
    if hits == [] then Redacting([], 0, 0) else Mask(MaskAll(hits[..|hits| - 1]), hits[|hits| - 1])
  }

  function Parts(content: string, hits: seq<Hit>): seq<Part> {
    MaskAll(hits).parts + [Copied(MaskAll(hits).cursor, |content|)]
  }

  function Redaction(content: string, hits: seq<Hit>): string {
    Text(content, Parts(content, hits))
  }

  lemma MaskOneMore(hits: seq<Hit>, i: nat)
    requires i < |hits|
    ensures MaskAll(hits[..i + 1]) == Mask(MaskAll(hits[..i]), hits[i])
  {
    assert hits[..i + 1][..i] == hits[..i];
  }

  lemma OpeningText(content: string, r: Redacting, h: Hit)
    requires HasSpan(h) && r.cursor <= h.start.value
    ensures Text(content, Mask(r, h).parts) ==
      (Text(content, r.parts) + Slice(content, r.cursor, h.start.value)) + PartText(content, Masked(h.category))
  {
    var copied := r.parts + [Copied(r.cursor, h.start.value)];
    TextAppends(content, r.parts, Copied(r.cursor, h.start.value));
    TextAppends(content, copied, Masked(h.category));
    assert r.parts + [Copied(r.cursor, h.start.value), Masked(h.category)] == copied + [Masked(h.category)];
  }

  /** The loop, over the hits in the order they are given. */
  method Redact(content: string, hits: seq<Hit>) returns (text: string)
    ensures text == Redaction(content, hits)
  {
    var joined := "";
    var cursor := 0;
    for i := 0 to |hits|
      invariant joined == Text(content, MaskAll(hits[..i]).parts) && cursor == MaskAll(hits[..i]).cursor
    {
      var hit := hits[i];
      MaskOneMore(hits, i);
      if HasSpan(hit) {
        var start, end := hit.start.value, hit.end.value;
        if start < cursor {
          cursor := if cursor < end then end else cursor;
        } else {
          OpeningText(content, MaskAll(hits[..i]), hit);
          joined := (joined + Slice(content, cursor, start)) + (PLACEHOLDER_OPENS + Label(hit.category) + "]");
          cursor := end;
        }
      }
    }
    assert hits[..|hits|] == hits;
    TextAppends(content, MaskAll(hits).parts, Copied(cursor, |content|));
    text := joined + Slice(content, cursor, |content|);
  }

  lemma TextAppends(content: string, parts: seq<Part>, part: Part)
    ensures Text(content, parts + [part]) == Text(content, parts) + PartText(content, part)
  {
    assert (parts + [part])[..|parts|] == parts;
  }

  // ------------------------------------------------------------------- exactness

  predicate Covers(h: Hit, i: nat) {
    HasSpan(h) && h.start.value <= i < h.end.value
  }

  predicate Covered(hits: seq<Hit>, i: nat) {
    exists k :: 0 <= k < |hits| && Covers(hits[k], i)
  }

  /** The content indices below *n* that no hit covers, in order. */
  ghost function Uncovered(hits: seq<Hit>, n: nat): seq<nat> {
    if n == 0 then [] else Uncovered(hits, n - 1) + (if Covered(hits, n - 1) then [] else [n - 1])
  }

  function Range(from: nat, to: nat): seq<nat>
  {
    if to <= from then [] else Range(from, to - 1) + [to - 1]
  }

  function Clipped(i: nat, n: nat): nat {
    if i < n then i else n
  }

  function PartIndices(part: Part, n: nat): seq<nat> {
    match part
    case Copied(from, to) => Range(from, Clipped(to, n))
    case Masked(_) => []
  }

  /** The content indices the parts copy, in order. */
  function CopiedIndices(parts: seq<Part>, n: nat): seq<nat> {
    if parts == [] then []
    else
      CopiedIndices(parts[..|parts| - 1], n) + PartIndices(parts[|parts| - 1], n)
  }

  lemma CopiedAppends(parts: seq<Part>, part: Part, n: nat)
    ensures CopiedIndices(parts + [part], n) == CopiedIndices(parts, n) + PartIndices(part, n)
  {
    assert (parts + [part])[..|parts|] == parts;
  }

  lemma {:induction false} UncoveredSame(a: seq<Hit>, b: seq<Hit>, n: nat)
    requires forall i: nat :: i < n ==> (Covered(a, i) <==> Covered(b, i))
    ensures Uncovered(a, n) == Uncovered(b, n)
  {
    if n > 0 {
      UncoveredSame(a, b, n - 1);
    }
  }

  lemma {:induction false} UncoveredThroughCovered(hits: seq<Hit>, from: nat, to: nat)
    requires from <= to && forall i: nat :: from <= i < to ==> Covered(hits, i)
    ensures Uncovered(hits, to) == Uncovered(hits, from)
  {
    if to > from {
      UncoveredThroughCovered(hits, from, to - 1);
    }
  }

  lemma {:induction false} UncoveredThroughBare(hits: seq<Hit>, from: nat, to: nat)
    requires from <= to && forall i: nat :: from <= i < to ==> !Covered(hits, i)
    ensures Uncovered(hits, to) == Uncovered(hits, from) + Range(from, to)
  {
    if to > from {
      UncoveredThroughBare(hits, from, to - 1);
      assert Uncovered(hits, to) == (Uncovered(hits, from) + Range(from, to - 1)) + [to - 1];
    }
  }

  lemma CoveredAppends(hits: seq<Hit>, h: Hit, i: nat)
    ensures Covered(hits + [h], i) <==> Covered(hits, i) || Covers(h, i)
  {
    var all := hits + [h];
    if Covered(hits, i) {
      var k :| 0 <= k < |hits| && Covers(hits[k], i);
      assert all[k] == hits[k];
    }
    if Covers(h, i) {
      assert all[|hits|] == h;
    }
    if Covered(all, i) {
      var k :| 0 <= k < |all| && Covers(all[k], i);
      assert k < |hits| ==> hits[k] == all[k];
    }
  }

  predicate StartsInOrder(hits: seq<Hit>) {
    forall i, j :: 0 <= i < j < |hits| && HasSpan(hits[i]) && HasSpan(hits[j]) ==>
      hits[i].start.value <= hits[j].start.value
  }

  predicate OpenedBy(hits: seq<Hit>, start: nat) {
    exists k :: 0 <= k < |hits| && HasSpan(hits[k]) && hits[k].start.value == start
  }

  /** Everything before the cursor is settled, everything after it untouched, and the last mask has no gap. */
  ghost predicate Settled(hits: seq<Hit>, n: nat) {
    var r := MaskAll(hits);
    && r.since <= r.cursor && (r.cursor > 0 ==> OpenedBy(hits, r.since))
    && (forall i: nat :: r.since <= i < r.cursor ==> Covered(hits, i))
    && (forall i: nat :: r.cursor <= i ==> !Covered(hits, i))
    && CopiedIndices(r.parts, n) == Uncovered(hits, Clipped(r.cursor, n))
  }

  /** A hit that starts before the cursor only lengthens what the last placeholder stands for. */
  lemma OverlapSettles(hits: seq<Hit>, h: Hit, n: nat)
    requires Settled(hits, n) && StartsInOrder(hits + [h]) && HasSpan(h) && h.start.value < MaskAll(hits).cursor
    ensures Settled(hits + [h], n)
  {
    var all, r := hits + [h], MaskAll(hits);
    var r' := MaskAll(all);
    assert all[..|hits|] == hits && r' == Mask(r, h);
    var k :| 0 <= k < |hits| && HasSpan(hits[k]) && hits[k].start.value == r.since;
    assert all[k] == hits[k] && all[|hits|] == h;
    forall i: nat ensures Covered(all, i) <==> Covered(hits, i) || Covers(h, i) {
      CoveredAppends(hits, h, i);
    }
    forall i: nat | r.since <= i < r'.cursor ensures Covered(all, i) {
      CoveredAppends(hits, h, i);
    }
    UncoveredSame(hits, all, r.since);
    UncoveredThroughCovered(hits, Clipped(r.since, n), Clipped(r.cursor, n));
    UncoveredThroughCovered(all, Clipped(r.since, n), Clipped(r'.cursor, n));
    UncoveredSame(hits, all, Clipped(r.since, n));
  }

  /** A hit at or past the cursor opens a placeholder, after a copy of the gap between. */
  lemma OpeningCopies(hits: seq<Hit>, h: Hit, n: nat)
    requires Settled(hits, n) && HasSpan(h) && MaskAll(hits).cursor <= h.start.value
    ensures CopiedIndices(Mask(MaskAll(hits), h).parts, n) == Uncovered(hits + [h], Clipped(h.start.value, n))
  {
    var all, r := hits + [h], MaskAll(hits);
    var start := h.start.value;
    var copied := r.parts + [Copied(r.cursor, start)];
    assert r.parts + [Copied(r.cursor, start), Masked(h.category)] == copied + [Masked(h.category)];
    CopiedAppends(r.parts, Copied(r.cursor, start), n);
    CopiedAppends(copied, Masked(h.category), n);
    forall i: nat | i < start ensures Covered(all, i) <==> Covered(hits, i) {
      CoveredAppends(hits, h, i);
    }
    UncoveredSame(hits, all, Clipped(r.cursor, n));
    if r.cursor < n {
      UncoveredThroughBare(all, r.cursor, Clipped(start, n));
    }
  }

  lemma OpeningSettles(hits: seq<Hit>, h: Hit, n: nat)
    requires Settled(hits, n) && HasSpan(h) && MaskAll(hits).cursor <= h.start.value
    ensures Settled(hits + [h], n)
  {
    var all := hits + [h];
    assert all[..|hits|] == hits && MaskAll(all) == Mask(MaskAll(hits), h) && all[|hits|] == h;
    forall i: nat ensures Covered(all, i) <==> Covered(hits, i) || Covers(h, i) {
      CoveredAppends(hits, h, i);
    }
    OpeningCopies(hits, h, n);
    UncoveredThroughCovered(all, Clipped(h.start.value, n), Clipped(h.end.value, n));
    assert OpenedBy(all, h.start.value);
  }

  lemma {:induction false} MaskingSettles(hits: seq<Hit>, n: nat)
    requires StartsInOrder(hits)
    ensures Settled(hits, n)
  {
    if hits != [] {
      var before, h := hits[..|hits| - 1], hits[|hits| - 1];
      assert hits == before + [h];
      MaskingSettles(before, n);
      if !HasSpan(h) {
        SpanlessSettles(before, h, n);
      } else if h.start.value < MaskAll(before).cursor {
        OverlapSettles(before, h, n);
      } else {
        OpeningSettles(before, h, n);
      }
    }
  }

  lemma SpanlessSettles(hits: seq<Hit>, h: Hit, n: nat)
    requires Settled(hits, n) && !HasSpan(h)
    ensures Settled(hits + [h], n)
  {
    var all := hits + [h];
    assert all[..|hits|] == hits && MaskAll(all) == MaskAll(hits);
    forall i: nat ensures Covered(all, i) <==> Covered(hits, i) {
      CoveredAppends(hits, h, i);
    }
    UncoveredSame(hits, all, Clipped(MaskAll(hits).cursor, n));
    if MaskAll(hits).cursor > 0 {
      var k :| 0 <= k < |hits| && HasSpan(hits[k]) && hits[k].start.value == MaskAll(hits).since;
      assert all[k] == hits[k];
    }
  }

  /**
   With hits in order of their starts, nested, overlapping, adjacent or past the end as they
   may be, the characters redaction copies are those at the indices no hit covers, in order.
   */
  lemma RedactionIsExact(content: string, hits: seq<Hit>)
    requires StartsInOrder(hits)
    ensures CopiedIndices(Parts(content, hits), |content|) == Uncovered(hits, |content|)
  {
    var n, r := |content|, MaskAll(hits);
    MaskingSettles(hits, n);
    CopiedAppends(r.parts, Copied(r.cursor, n), n);
    if r.cursor < n {
      UncoveredThroughBare(hits, r.cursor, n);
    }
  }

  /** The text shows the copied characters, at their places, and the placeholders between them. */
  function Shown(content: string, parts: seq<Part>): seq<char> {
    if parts == [] then []
    else
      var last := parts[|parts| - 1];
      Shown(content, parts[..|parts| - 1]) + (if last.Copied? then PartText(content, last) else "")
  }

  /** Each shown character is the content's at the index beside it. */
  predicate ShownAt(content: string, shown: seq<char>, indices: seq<nat>) {
    |shown| == |indices| && forall k :: 0 <= k < |indices| ==> indices[k] < |content| && shown[k] == content[indices[k]]
  }

  lemma PartIsShown(content: string, from: nat, end: nat)
    ensures ShownAt(content, Slice(content, from, end), Range(from, Clipped(end, |content|)))
  {
    RangeCounts(from, Clipped(end, |content|));
  }

  lemma ShownJoins(content: string, a: seq<char>, x: seq<nat>, b: seq<char>, y: seq<nat>)
    requires ShownAt(content, a, x) && ShownAt(content, b, y)
    ensures ShownAt(content, a + b, x + y)
  {
  }

  /** The content's characters the text shows are those the copied indices name. */
  lemma {:induction false} ShownIsCopied(content: string, parts: seq<Part>)
    ensures ShownAt(content, Shown(content, parts), CopiedIndices(parts, |content|))
  {
    if parts != [] {
      var before, last := parts[..|parts| - 1], parts[|parts| - 1];
      ShownIsCopied(content, before);
      if last.Copied? {
        PartIsShown(content, last.from, last.to);
        ShownJoins(content, Shown(content, before), CopiedIndices(before, |content|),
                   Slice(content, last.from, last.to), Range(last.from, Clipped(last.to, |content|)));
      } else {
        assert Shown(content, before) + "" == Shown(content, before);
        assert CopiedIndices(before, |content|) + [] == CopiedIndices(before, |content|);
      }
    }
  }

  lemma {:induction false} RangeCounts(from: nat, to: nat)
    ensures |Range(from, to)| == (if from < to then to - from else 0)
    ensures forall k :: 0 <= k < |Range(from, to)| ==> Range(from, to)[k] == from + k
  {
    if to > from {
      RangeCounts(from, to - 1);
    }
  }

  /** A placeholder stands for each spanned hit that starts at or after every earlier spanned hit's end. */
  predicate Opens(hits: seq<Hit>, k: nat)
    requires k < |hits|
  {
    HasSpan(hits[k]) && forall j :: 0 <= j < k && HasSpan(hits[j]) ==> hits[j].end.value <= hits[k].start.value
  }

  function Masks(parts: seq<Part>): seq<Category> {
    if parts == [] then []
    else Masks(parts[..|parts| - 1]) + (if parts[|parts| - 1].Masked? then [parts[|parts| - 1].category] else [])
  }

  function OpeningCategories(hits: seq<Hit>, k: nat): seq<Category>
    requires k <= |hits|
  {
    if k == 0 then [] else OpeningCategories(hits, k - 1) + (if Opens(hits, k - 1) then [hits[k - 1].category] else [])
  }

  predicate IsLastEnd(hits: seq<Hit>, cursor: nat) {
    && (forall k :: 0 <= k < |hits| && HasSpan(hits[k]) ==> hits[k].end.value <= cursor)
    && (cursor == 0 || exists k :: 0 <= k < |hits| && HasSpan(hits[k]) && hits[k].end.value == cursor)
  }

  lemma OpensAtTheLastEnd(hits: seq<Hit>, k: nat, cursor: nat)
    requires k < |hits| && HasSpan(hits[k]) && IsLastEnd(hits[..k], cursor)
    ensures Opens(hits, k) <==> cursor <= hits[k].start.value
  {
    var before := hits[..k];
    assert forall j :: 0 <= j < k ==> hits[j] == before[j];
    if hits[k].start.value < cursor {
      var j :| 0 <= j < |before| && HasSpan(before[j]) && before[j].end.value == cursor;
      assert hits[j].end.value > hits[k].start.value;
    }
  }

  /** Whatever their order, the placeholders are those hits', each with its own category. */
  lemma {:induction false} PlaceholdersAreTheOpenings(hits: seq<Hit>, k: nat)
    requires k <= |hits|
    ensures Masks(MaskAll(hits[..k]).parts) == OpeningCategories(hits, k)
    ensures IsLastEnd(hits[..k], MaskAll(hits[..k]).cursor)
  {
    if k > 0 {
      PlaceholdersAreTheOpenings(hits, k - 1);
      MaskingOne(hits, k - 1);
    }
  }

  lemma MaskingOne(hits: seq<Hit>, k: nat)
    requires k < |hits| && IsLastEnd(hits[..k], MaskAll(hits[..k]).cursor)
    ensures IsLastEnd(hits[..k + 1], MaskAll(hits[..k + 1]).cursor)
    ensures Masks(MaskAll(hits[..k + 1]).parts) ==
      Masks(MaskAll(hits[..k]).parts) + (if Opens(hits, k) then [hits[k].category] else [])
  {
    var before, h := hits[..k], hits[k];
    var r := MaskAll(before);
    assert hits[..k + 1][..k] == before && hits[..k + 1] == before + [h];
    assert MaskAll(hits[..k + 1]) == Mask(r, h);
    LastEndAppends(before, r.cursor, h);
    if HasSpan(h) {
      OpensAtTheLastEnd(hits, k, r.cursor);
      MasksAppend(r.parts, Copied(r.cursor, h.start.value), h.category);
    }
  }

  lemma MasksAppend(parts: seq<Part>, copy: Part, category: Category)
    requires copy.Copied?
    ensures Masks(parts + [copy, Masked(category)]) == Masks(parts) + [category]
  {
    var one := parts + [copy];
    assert parts + [copy, Masked(category)] == one + [Masked(category)];
    assert (one + [Masked(category)])[..|one|] == one && one[..|parts|] == parts;
  }

  lemma LastEndAppends(hits: seq<Hit>, cursor: nat, h: Hit)
    requires IsLastEnd(hits, cursor)
    ensures IsLastEnd(hits + [h], if HasSpan(h) && cursor < h.end.value then h.end.value else cursor)
  {
    var all := hits + [h];
    assert all[|hits|] == h;
    if cursor > 0 {
      var k :| 0 <= k < |hits| && HasSpan(hits[k]) && hits[k].end.value == cursor;
      assert all[k] == hits[k];
    }
  }
}

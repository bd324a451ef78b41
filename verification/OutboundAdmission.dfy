/** Admission of one outbound write, and the bounded memo in front of it. */
module OutboundAdmission {
  import opened Options
  import opened OutboundGating
  import opened OutboundRedaction

  /** The scanners as functions of what they are shown, and the digest that keys the memo. */
  datatype Scanners = Scanners(
    credentials: string -> seq<Hit>,
    references: (string, Destination) -> ScanResult,
    judgment: (string, Destination) -> ScanResult,
    digest: string -> nat)

  /** One write, but for the visibility of the repository it goes to. */
  datatype Write = Write(
    content: string, shape: WriterShape, destination: Destination,
    contentClass: ContentClass, aggregates: seq<Aggregate>)

  // -------------------------------------------------------------------- verdicts

  /** What one hit costs this writer. */
  function Resolved(h: Hit, shape: WriterShape): Verdict {
    if shape == Identifier || !HasSpan(h) then Blocked else Declared(h.category)
  }

  function Fold(hits: seq<Hit>, shape: WriterShape): Verdict {
    if hits == [] then Clean else MaxVerdict(Fold(hits[..|hits| - 1], shape), Resolved(hits[|hits| - 1], shape))
  }

  method FoldHits(hits: seq<Hit>, shape: WriterShape) returns (verdict: Verdict)
    ensures verdict == Fold(hits, shape)
  {
    verdict := Clean;
    for i := 0 to |hits|
      invariant verdict == Fold(hits[..i], shape)
    {
      var declared := Declared(hits[i].category);
      if shape == Identifier || !HasSpan(hits[i]) {
        declared := Blocked;
      }
      verdict := MaxVerdict(verdict, declared);
      assert hits[..i + 1][..i] == hits[..i];
    }
    assert hits[..|hits|] == hits;
  }

  lemma {:induction false} BlockedHitBlocks(hits: seq<Hit>, shape: WriterShape, h: Hit)
    requires h in hits && Resolved(h, shape) == Blocked
    ensures Fold(hits, shape) == Blocked
  {
    var before, last := hits[..|hits| - 1], hits[|hits| - 1];
    if h != last {
      assert hits == before + [last];
      BlockedHitBlocks(before, shape, h);
    }
  }

  lemma {:induction false} BlockedHasAHit(hits: seq<Hit>, shape: WriterShape) returns (h: Hit)
    requires Fold(hits, shape) == Blocked
    ensures h in hits && Resolved(h, shape) == Blocked
  {
    h := hits[|hits| - 1];
    if Resolved(h, shape) != Blocked {
      h := BlockedHasAHit(hits[..|hits| - 1], shape);
    }
  }

  /** The fold is the worst any hit resolves to, and clean only when there is none. */
  lemma FoldIsTheWorst(hits: seq<Hit>, shape: WriterShape)
    ensures Fold(hits, shape) == Blocked <==> exists h :: h in hits && Resolved(h, shape) == Blocked
    ensures Fold(hits, shape) == Clean <==> hits == []
  {
    if Fold(hits, shape) == Blocked {
      var h := BlockedHasAHit(hits, shape);
    }
    forall h | h in hits && Resolved(h, shape) == Blocked ensures Fold(hits, shape) == Blocked {
      BlockedHitBlocks(hits, shape, h);
    }
  }

  /** A fold does not depend on the order of the hits. */
  lemma FoldIgnoresOrder(a: seq<Hit>, b: seq<Hit>, shape: WriterShape)
    requires forall h :: h in a <==> h in b
    ensures Fold(a, shape) == Fold(b, shape)
  {
    FoldIsTheWorst(a, shape);
    FoldIsTheWorst(b, shape);
    assert a != [] ==> a[0] in a;
    assert b != [] ==> b[0] in b;
  }

  // -------------------------------------------------------------------- decision

  function Failed(failure: Failure): Decision {
    Decision(Blocked, "", [], [], Some(failure))
  }

  function Categories(hits: seq<Hit>): seq<Category> {
    if hits == [] then []
    else
      var before := Categories(hits[..|hits| - 1]);
      var c := hits[|hits| - 1].category;
      if c in before then before else before + [c]
  }

  /**
   The judgment is asked about authored text and branch names, on any surface but a passing
   mark in the repository.
   */
  predicate AsksJudgment(w: Write) {
    && (w.contentClass == Authored || w.destination == BranchName)
    && (Durable(w.destination) || SurfaceOf(w.destination) != Repository)
  }

  /** What the local rules find; they always run. */
  function LocalHits(s: Scanners, w: Write): seq<Hit> {
    s.credentials(w.content) + AggregateHits(w.aggregates, w.destination)
  }

  function Conclude(w: Write, hits: seq<Hit>): Decision {
    if hits == [] then Decision(Clean, w.content, [], [], None)
    else
      var sorted := SortHits(hits);
      var verdict := Fold(sorted, w.shape);
      var written := if verdict == Blocked then "" else Redaction(w.content, sorted);
      Decision(verdict, written, Categories(sorted), sorted, None)
  }

  function Decide(s: Scanners, w: Write): Decision {
    var found := LocalHits(s, w);
    if found != [] then Conclude(w, found)
    else
      var references := s.references(w.content, w.destination);
      if references.failure.Some? then Failed(references.failure.value)
      else if Fold(references.hits, w.shape) != Blocked && AsksJudgment(w) then
        var judgment := s.judgment(w.content, w.destination);
        if judgment.failure.Some? then Failed(judgment.failure.value) else Conclude(w, references.hits + judgment.hits)
      else Conclude(w, references.hits)
  }

  lemma SpannedStartInOrder(hits: seq<Hit>)
    requires Sorted(hits)
    ensures StartsInOrder(hits)
  {
    forall i, j | 0 <= i < j < |hits| && HasSpan(hits[i]) && HasSpan(hits[j])
      ensures hits[i].start.value <= hits[j].start.value
    {
      assert KeyLeq(SortKey(hits[i]), SortKey(hits[j]));
    }
  }

  /** What may be said of a decision on a write. */
  ghost predicate ShowsNothingFound(w: Write, d: Decision) {
    && (d.verdict == Clean ==> d.hits == [] && d.content == w.content)
    && (d.verdict == Blocked ==> d.content == "")
    && (d.verdict == Redacted ==>
          && d.hits != [] && w.shape == Prose
          && (forall h :: h in d.hits ==> HasSpan(h) && Declared(h.category) == Redacted)
          && d.content == Text(w.content, Parts(w.content, d.hits))
          && CopiedIndices(Parts(w.content, d.hits), |w.content|) == Uncovered(d.hits, |w.content|))
  }

  lemma ConcludedShowsNothing(w: Write, hits: seq<Hit>)
    ensures ShowsNothingFound(w, Conclude(w, hits))
    ensures forall h :: h in Conclude(w, hits).hits <==> h in hits
  {
    var d := Conclude(w, hits);
    FoldIsTheWorst(d.hits, w.shape);
    if d.verdict == Redacted {
      assert forall h :: h in d.hits ==> Resolved(h, w.shape) != Blocked;
      SpannedStartInOrder(d.hits);
      RedactionIsExact(w.content, d.hits);
      assert d.hits[0] in d.hits;
    }
  }

  /** Sorting before the fold changes no verdict. */
  lemma VerdictIsTheFold(w: Write, hits: seq<Hit>)
    ensures Conclude(w, hits).verdict == Fold(hits, w.shape)
  {
    FoldIsTheWorst(hits, w.shape);
    FoldIgnoresOrder(hits, SortHits(hits), w.shape);
  }

  /**
   A decision that lets something be written shows nothing that was found: every hit has a
   span, and the characters of the content in what is written are those no hit covers. A
   clean one found nothing and changes nothing; a blocked one writes nothing. The verdict is
   what was found comes to, in whatever order it was.
   */
  lemma NothingFoundStaysVisible(s: Scanners, w: Write)
    ensures ShowsNothingFound(w, Decide(s, w))
    ensures Decide(s, w).failure == None ==> forall h :: h in Considered(s, w) <==> h in Decide(s, w).hits
    ensures Decide(s, w).failure == None ==> Decide(s, w).verdict == Fold(Considered(s, w), w.shape)
  {
    DecisionIsConcluded(s, w);
    VerdictIsTheFold(w, Considered(s, w));
    ConcludedShowsNothing(w, Considered(s, w));
  }

  /** A decision is concluded from the hits considered, or is a failure that writes nothing. */
  lemma DecisionIsConcluded(s: Scanners, w: Write)
    ensures Decide(s, w) == Conclude(w, Considered(s, w)) || (exists f :: Decide(s, w) == Failed(f))
  {
    var references := s.references(w.content, w.destination);
    if LocalHits(s, w) == [] && references.failure.Some? {
      assert Decide(s, w) == Failed(references.failure.value);
    }
  }

  /** The hits a decision with an answer is concluded from. */
  function Considered(s: Scanners, w: Write): seq<Hit> {
    var references := s.references(w.content, w.destination).hits;
    if LocalHits(s, w) != [] then LocalHits(s, w)
    else if Fold(references, w.shape) != Blocked && AsksJudgment(w) then
      references + s.judgment(w.content, w.destination).hits
    else references
  }

  /** A credential or a declared claim blocks and is reported, whatever the other scanners would say. */
  lemma LocalFindingsDecide(s: Scanners, t: Scanners, w: Write)
    requires LocalHits(s, w) == LocalHits(t, w) != []
    requires forall h :: h in s.credentials(w.content) ==> h.category == Credentials
    ensures Decide(s, w) == Decide(t, w) && Decide(s, w).verdict == Blocked && Decide(s, w).failure == None
    ensures multiset(Decide(s, w).hits) == multiset(LocalHits(s, w))
  {
    var hits := LocalHits(s, w);
    AggregatesBlock(w.aggregates, w.destination);
    assert hits[0] in hits && Resolved(hits[0], w.shape) == Blocked;
    FoldIsTheWorst(SortHits(hits), w.shape);
  }

  lemma {:induction false} AggregatesBlock(aggregates: seq<Aggregate>, d: Destination)
    ensures forall h :: h in AggregateHits(aggregates, d) ==> Declared(h.category) == Blocked && !HasSpan(h)
    ensures AggregateHits(aggregates, d) != [] <==> Durable(d) && exists a :: a in aggregates && Claims(a)
  {
    if aggregates != [] {
      AggregatesBlock(aggregates[1..], d);
      assert aggregates == [aggregates[0]] + aggregates[1..];
      if Durable(d) && Claims(aggregates[0]) {
        assert aggregates[0] in aggregates;
      }
    }
  }

  /** A count is a claim at any value; a roster is one from three distinct identities. */
  predicate Claims(a: Aggregate) {
    a.ObjectCount? || |Distinct(a.identities)| >= ROSTER_MINIMUM
  }

  /** A scanner that gave no answer blocks the write, and only then does a decision carry a failure. */
  lemma NoAnswerBlocks(s: Scanners, w: Write)
    ensures Decide(s, w).failure.Some? ==> Decide(s, w) == Failed(Decide(s, w).failure.value)
    ensures Decide(s, w).failure.Some? <==>
      && LocalHits(s, w) == []
      && (s.references(w.content, w.destination).failure.Some?
          || (Fold(s.references(w.content, w.destination).hits, w.shape) != Blocked && AsksJudgment(w)
              && s.judgment(w.content, w.destination).failure.Some?))
  {
  }

  // ------------------------------------------------------------------------ memo

  datatype Key = Key(
    digest: nat, destination: Destination, fragment: string,
    contentClass: ContentClass, shape: WriterShape, aggregates: seq<Aggregate>)

  function KeyOf(s: Scanners, fragment: string, w: Write): Key {
    Key(s.digest(w.content), w.destination, fragment, w.contentClass, w.shape, w.aggregates)
  }

  ghost predicate Injective(s: Scanners) {
    forall a: string, b: string :: s.digest(a) == s.digest(b) ==> a == b
  }

  const MEMO_BOUND := 4096

  /** An insertion-ordered store of decisions. */
  datatype Memo = Memo(entries: map<Key, Decision>, order: seq<Key>)

  /** Each entry is the uncached decision of every write with its key, and no failure is kept. */
  ghost predicate Coherent(s: Scanners, fragment: string, m: Memo) {
    && (forall k :: k in m.order <==> k in m.entries)
    && (forall i, j :: 0 <= i < j < |m.order| ==> m.order[i] != m.order[j])
    && (forall k :: k in m.entries ==> m.entries[k].failure == None)
    && (forall w :: KeyOf(s, fragment, w) in m.entries ==> m.entries[KeyOf(s, fragment, w)] == Decide(s, w))
  }

  ghost predicate MemoOk(s: Scanners, fragment: string, m: Memo) {
    Coherent(s, fragment, m) && |m.order| <= MEMO_BOUND
  }

  function Kept(m: Memo, key: Key, d: Decision): Memo {
    Memo(m.entries[key := d], if key in m.entries then m.order else m.order + [key])
  }

  function Trimmed(m: Memo): Memo {
    if |m.order| > MEMO_BOUND then Memo(m.entries - {m.order[0]}, m.order[1..]) else m
  }

  /** Keep a decision; past the bound the oldest goes. */
  function Stored(m: Memo, key: Key, d: Decision): Memo {
    Trimmed(Kept(m, key, d))
  }

  /** Two writes share a key only when they are the same write. */
  lemma KeysTellWritesApart(s: Scanners, fragment: string, a: Write, b: Write)
    requires Injective(s) && KeyOf(s, fragment, a) == KeyOf(s, fragment, b)
    ensures a == b
  {
    assert s.digest(a.content) == s.digest(b.content);
  }

  lemma KeepingKeeps(s: Scanners, fragment: string, m: Memo, w: Write)
    requires Injective(s) && Coherent(s, fragment, m) && Decide(s, w).failure == None
    ensures Coherent(s, fragment, Kept(m, KeyOf(s, fragment, w), Decide(s, w)))
  {
    var key := KeyOf(s, fragment, w);
    forall v | KeyOf(s, fragment, v) == key ensures v == w {
      KeysTellWritesApart(s, fragment, v, w);
    }
  }

  lemma TrimmingKeeps(s: Scanners, fragment: string, m: Memo)
    requires Coherent(s, fragment, m) && |m.order| <= MEMO_BOUND + 1
    ensures MemoOk(s, fragment, Trimmed(m))
  {
    if |m.order| > MEMO_BOUND {
      assert m.order == [m.order[0]] + m.order[1..];
    }
  }

  lemma StoringKeeps(s: Scanners, fragment: string, m: Memo, w: Write)
    requires Injective(s) && MemoOk(s, fragment, m) && Decide(s, w).failure == None
    ensures MemoOk(s, fragment, Stored(m, KeyOf(s, fragment, w), Decide(s, w)))
  {
    KeepingKeeps(s, fragment, m, w);
    TrimmingKeeps(s, fragment, Kept(m, KeyOf(s, fragment, w), Decide(s, w)));
  }

  /** The uncached gate: a private repository is written to as it is. */
  function Uncached(s: Scanners, visibility: Visibility, w: Write): Decision {
    if visibility == Private then Decision(Clean, w.content, [], [], None) else Decide(s, w)
  }

  class Admission {
    const scanners: Scanners
    const fragment: string
    var entries: map<Key, Decision>
    var order: seq<Key>

    ghost predicate Valid()
      reads this
    {
      Injective(scanners) && MemoOk(scanners, fragment, Memo(entries, order))
    }

    constructor (scanners: Scanners, fragment: string)
      requires Injective(scanners)
      ensures Valid() && this.scanners == scanners && this.fragment == fragment && entries == map[]
    {
      this.scanners, this.fragment, entries, order := scanners, fragment, map[], [];
    }

    /** The gate up to its first wait. */
    method Recall(visibility: Visibility, w: Write) returns (d: Option<Decision>)
      requires Valid()
      ensures d.Some? ==> d.value == Uncached(scanners, visibility, w)
      ensures d.None? ==> visibility != Private && KeyOf(scanners, fragment, w) !in entries
    {
      if visibility == Private {
        return Some(Decision(Clean, w.content, [], [], None));
      }
      var key := KeyOf(scanners, fragment, w);
      d := if key in entries then Some(entries[key]) else None;
    }

    /** The gate after its last wait; any number of misses of one key may come here, in any order. */
    method Retain(w: Write, decision: Decision)
      requires Valid() && decision == Decide(scanners, w)
      modifies this
      ensures Valid()
      ensures Memo(entries, order) ==
        if decision.failure == None then Stored(old(Memo(entries, order)), KeyOf(scanners, fragment, w), decision)
        else old(Memo(entries, order))
    {
      if decision.failure.None? {
        StoringKeeps(scanners, fragment, Memo(entries, order), w);
        var key := KeyOf(scanners, fragment, w);
        order := if key in entries then order else order + [key];
        entries := entries[key := decision];
        if |order| > MEMO_BOUND {
          entries := entries - {order[0]};
          order := order[1..];
        }
      }
    }

    /** Whatever was asked before, and of whatever repository, the memoised gate answers as the uncached one. */
    method Gate(visibility: Visibility, w: Write) returns (decision: Decision)
      requires Valid()
      modifies this
      ensures Valid() && decision == Uncached(scanners, visibility, w)
    {
      var recalled := Recall(visibility, w);
      if recalled.Some? {
        return recalled.value;
      }
      decision := Decided(w);
      Retain(w, decision);
    }

    method Decided(w: Write) returns (decision: Decision)
      ensures decision == Decide(scanners, w)
    {
      var hits := scanners.credentials(w.content) + AggregateHits(w.aggregates, w.destination);
      if hits == [] {
        var references := scanners.references(w.content, w.destination);
        if references.failure.Some? {
          return Failed(references.failure.value);
        }
        hits := hits + references.hits;
        assert hits == references.hits;
        var verdict := FoldHits(hits, w.shape);
        if verdict != Blocked && AsksJudgment(w) {
          var judgment := scanners.judgment(w.content, w.destination);
          if judgment.failure.Some? {
            return Failed(judgment.failure.value);
          }
          hits := hits + judgment.hits;
        }
      }
      if hits == [] {
        return Decision(Clean, w.content, [], [], None);
      }
      hits := SortHits(hits);
      var verdict := FoldHits(hits, w.shape);
      if verdict == Blocked {
        return Decision(verdict, "", Categories(hits), hits, None);
      }
      var text := Redact(w.content, hits);
      decision := Decision(verdict, text, Categories(hits), hits, None);
    }
  }
}

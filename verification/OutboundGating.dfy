/** The vocabulary of outbound admission: what is written where, what a scan finds, what it costs. */
module OutboundGating {
  import opened Options

  datatype Category =
    | CrossRepoNames | TrackerUrls | EmailHandles | InfraEndpoints | Credentials | OrgPrivate
    | ObjectCountClaim | IdentifierRosterClaim

  datatype Verdict = Clean | Redacted | Blocked

  datatype Visibility = Private | Public | Unknown

  datatype WriterShape = Prose | Identifier

  datatype ContentClass = Derived | Authored

  datatype Surface = Publication | Repository | Tracker

  datatype Destination =
    | BranchName | CommitMessage | CommitMessageDivergenceReplay | PrTitle | PrBody | PrComment
    | ArtifactTicketJson | ArtifactCriteriaJson
    | TrackerComment | TrackerStatusUpdate | TrackerDescription | TrackerTitle | TrackerClassification

  /** A tracker value a writer declares it is about to render. */
  datatype Aggregate =
    | ObjectCount(field: string, value: nat)
    | IdentifierRoster(field: string, identities: seq<string>)

  datatype Hit = Hit(category: Category, start: Option<nat>, end: Option<nat>, source: Option<Aggregate>)

  datatype Failure = Timeout | Refusal | MalformedVerdict | OtherFailure

  datatype ScanResult = ScanResult(hits: seq<Hit>, failure: Option<Failure>)

  datatype Decision = Decision(
    verdict: Verdict, content: string, categories: seq<Category>, hits: seq<Hit>, failure: Option<Failure>)

  function SurfaceOf(d: Destination): Surface {
    match d
    case BranchName => Publication
    case PrTitle => Publication
    case PrBody => Publication
    case PrComment => Publication
    case CommitMessage => Repository
    case CommitMessageDivergenceReplay => Repository
    case ArtifactTicketJson => Repository
    case ArtifactCriteriaJson => Repository
    case _ => Tracker
  }

  predicate Durable(d: Destination) {
    match d
    case PrComment => false
    case CommitMessage => false
    case CommitMessageDivergenceReplay => false
    case TrackerComment => false
    case TrackerStatusUpdate => false
    case _ => true
  }

  function Severity(v: Verdict): nat {
    match v case Clean => 0 case Redacted => 1 case Blocked => 2
  }

  function MaxVerdict(left: Verdict, right: Verdict): Verdict {
    if Severity(left) >= Severity(right) then left else right
  }

  /** What a category costs on its own; a claim about tracker objects always blocks. */
  function Declared(c: Category): Verdict {
    match c
    case CrossRepoNames => Redacted
    case TrackerUrls => Redacted
    case EmailHandles => Redacted
    case OrgPrivate => Redacted
    case _ => Blocked
  }

  predicate HasSpan(h: Hit) {
    h.start.Some? && h.end.Some? && h.end.value > h.start.value
  }

  const ROSTER_MINIMUM := 3

  /** The claims a durable write would make about tracker objects. */
  function AggregateHits(aggregates: seq<Aggregate>, d: Destination): seq<Hit> {
    if !Durable(d) || aggregates == [] then []
    else
      (match aggregates[0]
       case ObjectCount(_, _) => [Hit(ObjectCountClaim, None, None, Some(aggregates[0]))]
       case IdentifierRoster(_, ids) =>
         if |Distinct(ids)| < ROSTER_MINIMUM then []
         else [Hit(IdentifierRosterClaim, None, None, Some(aggregates[0]))])
      + AggregateHits(aggregates[1..], d)
  }

  function Distinct(ids: seq<string>): set<string> {
    set id | id in ids
  }

  // --------------------------------------------------------------------- sorting

  /** Payload order, hits without a location first. */
  function SortKey(h: Hit): (int, int) {
    var unlocated: (int, int) := (-1, -1);
    if h.start.None? || h.end.None? then unlocated else (h.start.value, h.end.value)
  }

  predicate KeyLeq(a: (int, int), b: (int, int)) {
    a.0 < b.0 || (a.0 == b.0 && a.1 <= b.1)
  }

  predicate Sorted(hits: seq<Hit>) {
    forall i, j :: 0 <= i < j < |hits| ==> KeyLeq(SortKey(hits[i]), SortKey(hits[j]))
  }

  /** Insert before the first hit that sorts later, so hits that tie keep their order. */
  function Insert(h: Hit, hits: seq<Hit>): (r: seq<Hit>)
    ensures multiset(r) == multiset(hits) + multiset{h}
    ensures forall x :: x in r <==> x == h || x in hits
  {
    if hits == [] then [h]
    else if KeyLeq(SortKey(h), SortKey(hits[0])) then [h] + hits
    else
      assert hits == [hits[0]] + hits[1..];
      [hits[0]] + Insert(h, hits[1..])
  }

  /** A stable sort. */
  function SortHits(hits: seq<Hit>): (r: seq<Hit>)
    ensures Sorted(r) && multiset(r) == multiset(hits) && (forall x :: x in r <==> x in hits)
  {
    if hits == [] then []
    else
      var rest := SortHits(hits[1..]);
      assert hits == [hits[0]] + hits[1..];
      InsertSorts(hits[0], rest);
      Insert(hits[0], rest)
  }

  lemma {:induction false} InsertSorts(h: Hit, hits: seq<Hit>)
    requires Sorted(hits)
    ensures Sorted(Insert(h, hits))
  {
    if hits != [] && !KeyLeq(SortKey(h), SortKey(hits[0])) {
      InsertSorts(h, hits[1..]);
      var r := Insert(h, hits[1..]);
      forall j | 0 <= j < |r| ensures KeyLeq(SortKey(hits[0]), SortKey(r[j])) {
        assert r[j] in r;
      }
    }
  }
}

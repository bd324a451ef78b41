/** The records of submitted jobs, in submission order. */
module JobRegistry {
  import opened Options
  import opened JobStreams

  type JobId = nat

  datatype JobState = Queued | Running | Terminal

  datatype Record = Record(
    lane: string, state: JobState, position: Option<nat>, scope: Option<nat>, outcome: Option<Outcome>, truncated: bool)

  /** An insertion-ordered dictionary: its entries, and the order of its keys. */
  datatype Registry = Registry(records: map<JobId, Record>, order: seq<JobId>)

  const EMPTY := Registry(map[], [])

  /** The members of a sequence that are in a set, in order. */
  function Kept(s: seq<JobId>, ids: set<JobId>): seq<JobId> {
    if s == [] then [] else (if s[0] in ids then [s[0]] else []) + Kept(s[1..], ids)
  }

  predicate Distinct(s: seq<JobId>) {
    forall i, j :: 0 <= i < j < |s| ==> s[i] != s[j]
  }

  /** The key order lists each key once. */
  ghost predicate RegistryOk(g: Registry) {
    Distinct(g.order) && (forall id :: id in g.order <==> id in g.records)
  }

  function Add(g: Registry, id: JobId, record: Record): Registry {
    Registry(g.records[id := record], if id in g.records then g.order else g.order + [id])
  }

  function Amend(g: Registry, id: JobId, record: Record): Registry {
    g.(records := g.records[id := record])
  }

  function Forget(g: Registry, id: JobId): Registry {
    Registry(g.records - {id}, Kept(g.order, g.records.Keys - {id}))
  }

  /** A record that is not terminal, and addressed at the scope if one is named. */
  predicate IsOpen(r: Record, scope: Option<nat>) {
    r.state != Terminal && (scope.None? || r.scope == scope)
  }

  /** The open records, all of them or a scope's, oldest first. */
  function OpenJobs(g: Registry, scope: Option<nat>): seq<JobId> {
    Kept(g.order, set id | id in g.records && IsOpen(g.records[id], scope))
  }

  lemma {:induction false} KeptMembers(s: seq<JobId>, ids: set<JobId>)
    ensures forall id :: id in Kept(s, ids) <==> id in s && id in ids
  {
    if s != [] {
      KeptMembers(s[1..], ids);
      assert s == [s[0]] + s[1..];
    }
  }

  lemma {:induction false} KeptDistinct(s: seq<JobId>, ids: set<JobId>)
    requires Distinct(s)
    ensures Distinct(Kept(s, ids))
  {
    if s != [] {
      KeptDistinct(s[1..], ids);
      KeptMembers(s[1..], ids);
      assert s[0] !in s[1..];
    }
  }

  lemma {:induction false} KeptTwice(s: seq<JobId>, a: set<JobId>, b: set<JobId>)
    ensures Kept(Kept(s, a), b) == Kept(s, a * b)
  {
    if s != [] {
      KeptTwice(s[1..], a, b);
      var head := if s[0] in a then [s[0]] else [];
      KeptAppend(head, Kept(s[1..], a), b);
    }
  }

  lemma {:induction false} KeptAppend(s: seq<JobId>, t: seq<JobId>, ids: set<JobId>)
    ensures Kept(s + t, ids) == Kept(s, ids) + Kept(t, ids)
  {
    if s == [] {
      assert s + t == t;
    } else {
      var head, rest := if s[0] in ids then [s[0]] else [], s[1..];
      assert (s + t)[0] == s[0] && (s + t)[1..] == rest + t;
      KeptAppend(rest, t, ids);
      assert head + (Kept(rest, ids) + Kept(t, ids)) == (head + Kept(rest, ids)) + Kept(t, ids);
    }
  }

  lemma {:induction false} KeptOnly(s: seq<JobId>, a: set<JobId>, b: set<JobId>)
    requires forall id :: id in s ==> (id in a <==> id in b)
    ensures Kept(s, a) == Kept(s, b)
  {
    if s != [] {
      assert forall id :: id in s[1..] ==> id in s;
      KeptOnly(s[1..], a, b);
    }
  }

  /** The store the queue writes. */
  class InMemoryJobRegistry {
    var records: map<JobId, Record>
    var order: seq<JobId>

    ghost function View(): Registry
      reads this
    {
      Registry(records, order)
    }

    constructor ()
      ensures View() == EMPTY
    {
      records, order := map[], [];
    }

    method AddRecord(id: JobId, record: Record)
      modifies this
      ensures View() == Add(old(View()), id, record)
    {
      order := if id in records then order else order + [id];
      records := records[id := record];
    }

    method AmendRecord(id: JobId, record: Record)
      requires id in records
      modifies this`records
      ensures View() == Amend(old(View()), id, record)
    {
      records := records[id := record];
    }

    method ForgetRecord(id: JobId)
      requires RegistryOk(View())
      modifies this
      ensures View() == Forget(old(View()), id)
    {
      if id in records {
        order := Kept(order, records.Keys - {id});
      } else {
        KeptAll(order, records.Keys - {id});
      }
      records := records - {id};
    }

    /** Scan the entries in key order for the open ones, all of them or a scope's. */
    method Open(scope: Option<nat>) returns (found: seq<JobId>)
      requires RegistryOk(View())
      ensures found == OpenJobs(View(), scope)
    {
      found := [];
      ghost var wanted := set id | id in records && IsOpen(records[id], scope);
      for i := 0 to |order|
        invariant found == Kept(order[..i], wanted)
      {
        KeptOneMore(order, i, wanted);
        assert order[i] in records;
        if IsOpen(records[order[i]], scope) {
          found := found + [order[i]];
        }
      }
      assert order[..|order|] == order;
    }
  }

  lemma KeptOneMore(s: seq<JobId>, i: nat, ids: set<JobId>)
    requires i < |s|
    ensures Kept(s[..i + 1], ids) == Kept(s[..i], ids) + (if s[i] in ids then [s[i]] else [])
  {
    assert s[..i + 1] == s[..i] + [s[i]];
    KeptAppend(s[..i], [s[i]], ids);
  }

  lemma {:induction false} KeptAll(s: seq<JobId>, ids: set<JobId>)
    requires forall id :: id in s ==> id in ids
    ensures Kept(s, ids) == s
  {
    if s != [] {
      assert forall id :: id in s[1..] ==> id in s;
      KeptAll(s[1..], ids);
    }
  }
}

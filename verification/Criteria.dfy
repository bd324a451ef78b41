/** The tracker's criteria, read again at every barrier and held against what was graded. */
module Criteria {
  import opened Options

  type Key = nat

  datatype StateKind = Unstarted | Completed | Elsewhere

  /** One criterion sub-issue of a reading; its Check is there only when exactly one can be read. */
  datatype Issue = Issue(key: Key, state: StateKind, check: Option<string>)

  datatype Criterion = Criterion(key: Key, check: string)

  /** A reading of the subtree in key order, one issue a key. */
  predicate InKeyOrder(board: seq<Issue>) {
    forall i, j :: 0 <= i < j < |board| ==> board[i].key < board[j].key
  }

  predicate RosterInOrder(roster: seq<Criterion>) {
    forall i, j :: 0 <= i < j < |roster| ==> roster[i].key < roster[j].key
  }

  datatype Reason = NothingOwed | Illegible(key: Key) | NoLongerHeld(key: Key) | Differs

  datatype Answer = Roster(criteria: seq<Criterion>) | Refusal(reason: Reason)

  /** What a fire owes: an unstarted criterion, or a finished one it holds. */
  predicate Owes(issue: Issue, held: set<Key>) {
    issue.state == Unstarted || (issue.state == Completed && issue.key in held)
  }

  /** The owed criteria in key order; the first without a legible Check refuses the reading. */
  function Selected(board: seq<Issue>, held: set<Key>): Answer {
    if board == [] then Roster([])
    else if !Owes(board[0], held) then Selected(board[1..], held)
    else if board[0].check.None? then Refusal(Illegible(board[0].key))
    else
      match Selected(board[1..], held)
      case Refusal(reason) => Refusal(reason)
      case Roster(rest) => Roster([Criterion(board[0].key, board[0].check.value)] + rest)
  }

  /** A reading that leaves nothing owed is refused. */
  function Owed(board: seq<Issue>, held: set<Key>): Answer {
    var selected := Selected(board, held);
    if selected == Roster([]) then Refusal(NothingOwed) else selected
  }

  /** The first named criterion the subtree no longer holds. */
  function Missing(named: seq<Key>, board: seq<Issue>): Option<Key> {
    if named == [] then None
    else if HasKey(board, named[0]) then Missing(named[1..], board)
    else Some(named[0])
  }

  predicate HasKey(board: seq<Issue>, key: Key) {
    exists i :: 0 <= i < |board| && board[i].key == key
  }

  function Keys(roster: seq<Criterion>): set<Key> {
    set c | c in roster :: c.key
  }

  /** What a barrier reads: the captured spec's criteria still there, then what is owed. */
  function ReadCurrent(named: seq<Key>, board: seq<Issue>, held: set<Key>): Answer {
    var missing := Missing(named, board);
    if missing.Some? then Refusal(NoLongerHeld(missing.value)) else Owed(board, held)
  }

  // ----------------------------------------------------------- what a roster says

  /** The roster is exactly the owed issues, each with its own Check. */
  predicate Describes(roster: seq<Criterion>, board: seq<Issue>, held: set<Key>) {
    && (forall i :: 0 <= i < |board| && Owes(board[i], held) ==>
          board[i].check.Some? && Criterion(board[i].key, board[i].check.value) in roster)
    && (forall c :: c in roster ==> Backed(c, board, held))
  }

  /** An owed issue of the board stands behind the criterion. */
  predicate Backed(c: Criterion, board: seq<Issue>, held: set<Key>) {
    exists i :: 0 <= i < |board| && Owes(board[i], held) && board[i].key == c.key && board[i].check == Some(c.check)
  }

  lemma {:induction false} SelectedDescribes(board: seq<Issue>, held: set<Key>)
    requires InKeyOrder(board)
    ensures match Selected(board, held)
      case Roster(r) => RosterInOrder(r) && Describes(r, board, held)
      case Refusal(reason) =>
        && reason.Illegible?
        && exists i :: 0 <= i < |board| && Owes(board[i], held) && board[i].check.None? && board[i].key == reason.key
  {
    if board != [] {
      var head, rest := board[0], board[1..];
      SelectedDescribes(rest, held);
      assert board == [head] + rest;
      match Selected(rest, held)
      case Refusal(reason) =>
        var i :| 0 <= i < |rest| && Owes(rest[i], held) && rest[i].check.None? && rest[i].key == reason.key;
        assert board[i + 1] == rest[i];
      case Roster(r) => SelectedGrows(head, rest, r, held);
    }
  }

  lemma SelectedGrows(head: Issue, rest: seq<Issue>, r: seq<Criterion>, held: set<Key>)
    requires InKeyOrder([head] + rest) && RosterInOrder(r) && Describes(r, rest, held)
    ensures !Owes(head, held) ==> Describes(r, [head] + rest, held)
    ensures Owes(head, held) && head.check.Some? ==>
      var all := [Criterion(head.key, head.check.value)] + r; RosterInOrder(all) && Describes(all, [head] + rest, held)
  {
    var board := [head] + rest;
    forall c | c in r ensures Backed(c, board, held) && head.key < c.key {
      var i :| 0 <= i < |rest| && Owes(rest[i], held) && rest[i].key == c.key && rest[i].check == Some(c.check);
      assert board[i + 1] == rest[i];
      assert board[0].key < board[i + 1].key;
    }
    assert board[0] == head;
  }

  /** Two rosters in key order with the same members are the same. */
  lemma {:induction false} SameMembersSameRoster(a: seq<Criterion>, b: seq<Criterion>)
    requires RosterInOrder(a) && RosterInOrder(b) && forall c :: c in a <==> c in b
    ensures a == b
  {
    if a == [] {
      assert forall i :: 0 <= i < |b| ==> b[i] in b;
    } else {
      assert a[0] in a;
      assert b != [];
      assert b[0] in b && b[0] in a && a[0] in b;
      assert a == [a[0]] + a[1..] && b == [b[0]] + b[1..];
      assert a[0] == b[0];
      forall c ensures c in a[1..] <==> c in b[1..] {
        assert c in a[1..] ==> c.key > a[0].key && c in a;
        assert c in b[1..] ==> c.key > b[0].key && c in b;
        assert c in b <==> c == b[0] || c in b[1..];
        assert c in a <==> c == a[0] || c in a[1..];
      }
      SameMembersSameRoster(a[1..], b[1..]);
    }
  }

  /** A roster that describes a reading is the one selected from it. */
  lemma DescribedIsSelected(roster: seq<Criterion>, board: seq<Issue>, held: set<Key>)
    requires InKeyOrder(board) && RosterInOrder(roster) && Describes(roster, board, held)
    ensures Selected(board, held) == Roster(roster)
  {
    SelectedDescribes(board, held);
    if Selected(board, held).Roster? {
      var r := Selected(board, held).criteria;
      forall c | c in r ensures c in roster {
        var i :| 0 <= i < |board| && Owes(board[i], held) && board[i].key == c.key && board[i].check == Some(c.check);
      }
      forall c | c in roster ensures c in r {
        var i :| 0 <= i < |board| && Owes(board[i], held) && board[i].key == c.key && board[i].check == Some(c.check);
      }
      SameMembersSameRoster(r, roster);
    }
  }

  // --------------------------------------------------------------------- barriers

  /** A recorded judgment's effect is permitted only while its obligations hold. */
  predicate BarrierPasses(named: seq<Key>, board: seq<Issue>, held: set<Key>, recorded: seq<Criterion>) {
    ReadCurrent(named, board, held) == Roster(recorded)
  }

  lemma {:induction false} MissingIsExact(named: seq<Key>, board: seq<Issue>)
    ensures Missing(named, board).None? <==> forall k :: k in named ==> HasKey(board, k)
  {
    if named != [] {
      MissingIsExact(named[1..], board);
      assert named == [named[0]] + named[1..];
    }
  }

  /**
   A barrier that compares a reading with the roster that was graded passes exactly when the
   subtree still holds every criterion the spec names, every criterion it owes was graded
   with the Check it has now, and every graded one is still owed.
   */
  lemma BarrierPassesExactlyWhen(named: seq<Key>, board: seq<Issue>, held: set<Key>, recorded: seq<Criterion>)
    requires InKeyOrder(board) && RosterInOrder(recorded) && recorded != []
    ensures BarrierPasses(named, board, held, recorded) <==>
      (forall k :: k in named ==> HasKey(board, k)) && Describes(recorded, board, held)
  {
    MissingIsExact(named, board);
    SelectedDescribes(board, held);
    if Describes(recorded, board, held) {
      DescribedIsSelected(recorded, board, held);
    }
  }

  /** Since a grading, nothing moved but graded criteria, and those only between unstarted and finished. */
  predicate OnlyGradedMoved(before: seq<Issue>, after: seq<Issue>, graded: seq<Criterion>) {
    |after| == |before| && forall i :: 0 <= i < |before| ==>
      && after[i].key == before[i].key && after[i].check == before[i].check
      && (after[i].state == before[i].state
          || (after[i].key in Keys(graded) && before[i].state != Elsewhere && after[i].state != Elsewhere))
  }

  /**
   What was graded was read with the entry roster held. If since then only graded criteria
   moved, and only between unstarted and finished, a barrier that holds the entry roster and
   the graded one reads exactly the graded roster again.
   */
  lemma OwnWorkNeverRefuses(named: seq<Key>, before: seq<Issue>, after: seq<Issue>, entry: set<Key>,
      held: set<Key>, graded: seq<Criterion>)
    requires InKeyOrder(before) && entry <= held && ReadCurrent(named, before, held) == Roster(graded)
    requires OnlyGradedMoved(before, after, graded)
    ensures BarrierPasses(named, after, entry + Keys(graded), graded)
  {
    SelectedDescribes(before, held);
    MissingIsExact(named, before);
    forall k | k in named ensures HasKey(after, k) {
      var i :| 0 <= i < |before| && before[i].key == k;
      assert after[i].key == k;
    }
    StillDescribes(before, after, entry, held, graded);
    BarrierPassesExactlyWhen(named, after, entry + Keys(graded), graded);
  }

  lemma KeyIsGraded(board: seq<Issue>, held: set<Key>, graded: seq<Criterion>, i: nat)
    requires InKeyOrder(board) && Describes(graded, board, held) && i < |board|
    ensures board[i].key in Keys(graded) <==> Owes(board[i], held)
  {
    if board[i].key in Keys(graded) {
      var c :| c in graded && c.key == board[i].key;
      var j :| 0 <= j < |board| && Owes(board[j], held) && board[j].key == c.key && board[j].check == Some(c.check);
      assert !(i < j) && !(j < i);
    }
  }

  lemma StillDescribes(before: seq<Issue>, after: seq<Issue>, entry: set<Key>, held: set<Key>, graded: seq<Criterion>)
    requires InKeyOrder(before) && entry <= held && Describes(graded, before, held)
    requires OnlyGradedMoved(before, after, graded)
    ensures Describes(graded, after, entry + Keys(graded))
  {
    var now := entry + Keys(graded);
    forall i | 0 <= i < |before| ensures Owes(after[i], now) <==> Owes(before[i], held) {
      KeyIsGraded(before, held, graded, i);
    }
    forall c | c in graded
      ensures Backed(c, after, now)
    {
      var i :| 0 <= i < |before| && Owes(before[i], held) && before[i].key == c.key && before[i].check == Some(c.check);
      assert Owes(after[i], now) && after[i].key == c.key && after[i].check == Some(c.check);
    }
  }

  /** The issue is the criterion's, unstarted or finished, with the same Check. */
  predicate Stands(issue: Issue, c: Criterion) {
    issue.key == c.key && issue.check == Some(c.check) && issue.state != Elsewhere
  }

  /**
   The other way: when a barrier holding the graded roster passes, every unstarted criterion
   was graded with its present Check, and every graded one is unstarted or finished, its
   Check unchanged.
   */
  lemma PassingMeansGraded(named: seq<Key>, board: seq<Issue>, held: set<Key>, graded: seq<Criterion>)
    requires InKeyOrder(board) && RosterInOrder(graded) && graded != [] && BarrierPasses(named, board, held, graded)
    ensures forall i :: 0 <= i < |board| && board[i].state == Unstarted ==>
      board[i].check.Some? && Criterion(board[i].key, board[i].check.value) in graded
    ensures forall c :: c in graded ==> exists i :: 0 <= i < |board| && Stands(board[i], c)
  {
    BarrierPassesExactlyWhen(named, board, held, graded);
    forall c | c in graded
      ensures exists i :: 0 <= i < |board| && Stands(board[i], c)
    {
      var i :| 0 <= i < |board| && Owes(board[i], held) && board[i].key == c.key && board[i].check == Some(c.check);
      assert Stands(board[i], c);
    }
  }
}

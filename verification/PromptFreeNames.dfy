/** The static analysis of a template's names, and what it guarantees about rendering. */
module PromptFreeNames {
  import opened PromptSyntax
  import opened PromptRoundTrip
  import opened PromptRendering
  import opened Options

  /** A reference inside a loop that starts from the loop's own item or position. */
  predicate IsLoopLocal(path: string, inEach: bool) {
    inEach && (Head(path) == ITEM || Head(path) == INDEX)
  }

  /** The references of a tree that the bindings have to answer. */
  function FreeNames(ns: seq<Node>, inEach: bool): set<string>
    decreases ns
  {
    if ns == [] then {}
    else
      FreeNames(ns[1..], inEach) +
      match ns[0]
      case Text(_) => {}
      case Name(path) => if IsLoopLocal(path, inEach) then {} else {path}
      case Block(kind, path, body) =>
        (if IsLoopLocal(path, inEach) then {} else {path}) + FreeNames(body, inEach || kind == EACH)
  }

  class NameSet {
    var names: set<string>

    constructor ()
      ensures names == {}
    {
      names := {};
    }
  }

  method CollectFree(nodes: seq<Node>, names: NameSet, inEach: bool)
    modifies names
    ensures names.names == old(names.names) + FreeNames(nodes, inEach)
    decreases nodes
  {
    ghost var before := names.names;
    var i := 0;
    while i < |nodes|
      invariant 0 <= i <= |nodes|
      invariant names.names + FreeNames(nodes[i..], inEach) == before + FreeNames(nodes, inEach)
    {
      var n := nodes[i];
      assert nodes[i..][0] == n && nodes[i..][1..] == nodes[i + 1..];
      if !n.Text? {
        if !IsLoopLocal(n.path, inEach) {
          names.names := names.names + {n.path};
        }
        if n.Block? {
          CollectFree(n.body, names, inEach || n.kind == EACH);
        }
      }
      i := i + 1;
    }
  }

  /** Every name *body* must resolve from its bindings, or the parser's refusal. */
  method FreeBindingNames(body: string) returns (r: Option<set<string>>)
    ensures r == if Parse(body).Tree? then Some(FreeNames(Parse(body).nodes, false)) else None
  {
    var parsed := ParseTemplate(body);
    if parsed.Refused? {
      return None;
    }
    var names := new NameSet();
    CollectFree(parsed.nodes, names, false);
    assert {} + FreeNames(parsed.nodes, false) == FreeNames(parsed.nodes, false);
    r := Some(names.names);
  }

  // ---------------------------------------------------------- non-interference

  ghost predicate AgreeAt<V(!new)>(a: map<string, V>, b: map<string, V>, head: string) {
    (head in a <==> head in b) && (head in a ==> a[head] == b[head])
  }

  /** The two binding maps agree on the head of every name of the set. */
  ghost predicate AgreeOn<V(!new)>(a: map<string, V>, b: map<string, V>, names: set<string>) {
    forall path <- names :: AgreeAt(a, b, Head(path))
  }

  /** Frames pushed by loops: each supplies the item and its index. */
  ghost predicate LoopFrames<V(!new)>(frames: seq<Scope<V>>) {
    forall f <- frames :: ITEM in f.names && INDEX in f.names
  }

  lemma {:induction false} LookupAgrees<V(!new)>(
      w: World<V>, head: string, a: Scope<V>, b: Scope<V>, frames: seq<Scope<V>>)
    requires LoopFrames(frames) && a.item.None? && b.item.None?
    requires (frames != [] && (head == ITEM || head == INDEX)) || AgreeAt(a.names, b.names, head)
    ensures Lookup(w, head, [a] + frames) == Lookup(w, head, [b] + frames)
  {
    var sa, sb := [a] + frames, [b] + frames;
    if frames == [] {
      assert sa[..0] == [] == sb[..0];
    } else {
      var last := frames[|frames| - 1];
      assert last in frames;
      if InScope(w, head, last).None? {
        var outer := frames[..|frames| - 1];
        assert sa[..|frames|] == [a] + outer && sb[..|frames|] == [b] + outer;
        LookupAgrees(w, head, a, b, outer);
      }
    }
  }

  lemma {:induction false} ExpandAgrees<V(!new)>(
      w: World<V>, ns: seq<Node>, a: Scope<V>, b: Scope<V>, frames: seq<Scope<V>>)
    requires KnownKinds(ns)
    requires LoopFrames(frames) && a.item.None? && b.item.None?
    requires AgreeOn(a.names, b.names, FreeNames(ns, frames != []))
    ensures Expand(w, ns, [a] + frames) == Expand(w, ns, [b] + frames)
    decreases ns, 0
  {
    if ns != [] {
      assert FreeNames(ns[1..], frames != []) <= FreeNames(ns, frames != []);
      ExpandAgrees(w, ns[1..], a, b, frames);
      NodeAgrees(w, ns[0], ns, a, b, frames);
    }
  }

  lemma {:induction false} NodeAgrees<V(!new)>(
      w: World<V>, n: Node, ns: seq<Node>, a: Scope<V>, b: Scope<V>, frames: seq<Scope<V>>)
    requires ns != [] && n == ns[0] && KnownKinds(ns)
    requires LoopFrames(frames) && a.item.None? && b.item.None?
    requires AgreeOn(a.names, b.names, FreeNames(ns, frames != []))
    ensures ExpandNode(w, n, [a] + frames) == ExpandNode(w, n, [b] + frames)
    decreases n
  {
    if !n.Text? {
      assert IsLoopLocal(n.path, frames != []) || n.path in FreeNames(ns, frames != []);
      LookupAgrees(w, Head(n.path), a, b, frames);
      assert Bound(w, n.path, [a] + frames) == Bound(w, n.path, [b] + frames);
      if n.Block? {
        assert n in ns;
        assert FreeNames(n.body, frames != [] || n.kind == EACH) <= FreeNames(ns, frames != []);
        var value := Bound(w, n.path, [a] + frames);
        if n.kind == IF {
          ExpandAgrees(w, n.body, a, b, frames);
        } else if value.Some? && w.items(value.value).Some? {
          ItemsAgree(w, n.body, w.items(value.value).value, 0, a, b, frames);
        }
      }
    }
  }

  lemma {:induction false} ItemsAgree<V(!new)>(
      w: World<V>, body: seq<Node>, items: seq<V>, k: nat, a: Scope<V>, b: Scope<V>, frames: seq<Scope<V>>)
    requires KnownKinds(body) && k <= |items|
    requires LoopFrames(frames) && a.item.None? && b.item.None?
    requires AgreeOn(a.names, b.names, FreeNames(body, true))
    ensures ExpandItems(w, body, items, k, [a] + frames) == ExpandItems(w, body, items, k, [b] + frames)
    decreases body, |items| - k + 1
  {
    if k < |items| {
      var frame := ItemScope(w, items[k], k + 1);
      var inner := frames + [frame];
      assert [a] + frames + [frame] == [a] + inner && [b] + frames + [frame] == [b] + inner;
      ExpandAgrees(w, body, a, b, inner);
      ItemsAgree(w, body, items, k + 1, a, b, frames);
    }
  }

  /**
   Nothing but the free names is read: two binding maps that agree on the head of every free
   name of a body render it to the same text or to the same refusal, although the members of
   a loop's items shadow the bindings of the same name inside the loop.
   */
  lemma FreeNamesDecideRendering<V(!new)>(w: World<V>, body: string, a: map<string, V>, b: map<string, V>)
    requires Parse(body).Tree? ==> AgreeOn(a, b, FreeNames(Parse(body).nodes, false))
    ensures Render(w, body, a) == Render(w, body, b)
  {
    if Parse(body).Tree? {
      var ns := Parse(body).nodes;
      ParseAcceptsExactlyTrees(body, ns);
      var base, base' := Scope(a, None), Scope(b, None);
      ExpandAgrees(w, ns, base, base', []);
      assert [base] + [] == [base] && [base'] + [] == [base'];
    }
  }

  /** The references of a tree that stand in a loop and are rooted at its own names. */
  function LoopPaths(ns: seq<Node>, inEach: bool): set<string>
    decreases ns
  {
    if ns == [] then {}
    else
      LoopPaths(ns[1..], inEach) +
      match ns[0]
      case Text(_) => {}
      case Name(path) => if IsLoopLocal(path, inEach) then {path} else {}
      case Block(kind, path, body) =>
        (if IsLoopLocal(path, inEach) then {path} else {}) + LoopPaths(body, inEach || kind == EACH)
  }

  // Every item frame a rendering pushes, whatever it pushes it for.

  ghost function Pushed<V(!new)>(w: World<V>, nodes: seq<Node>, scopes: seq<Scope<V>>): set<Scope<V>>
    decreases nodes, 0
  {
    if nodes == [] then {} else PushedBy(w, nodes[0], scopes) + Pushed(w, nodes[1..], scopes)
  }

  ghost function PushedBy<V(!new)>(w: World<V>, n: Node, scopes: seq<Scope<V>>): set<Scope<V>>
    decreases n
  {
    if !n.Block? || Bound(w, n.path, scopes).None? then {}
    else if n.kind == IF then Pushed(w, n.body, scopes)
    else
      match w.items(Bound(w, n.path, scopes).value)
      case None => {}
      case Some(items) => PushedFor(w, n.body, items, 0, scopes)
  }

  ghost function PushedFor<V(!new)>(
      w: World<V>, body: seq<Node>, items: seq<V>, k: nat, scopes: seq<Scope<V>>): set<Scope<V>>
    requires k <= |items|
    decreases body, |items| - k + 1
  {
    if k == |items| then {}
    else
      var frame := ItemScope(w, items[k], k + 1);
      {frame} + Pushed(w, body, scopes + [frame]) + PushedFor(w, body, items, k + 1, scopes)
  }

  /** What an item frame answers to a loop's own reference: its item or position, or a member of that, or nothing. */
  function AnswerOf<V>(w: World<V>, path: string, frame: Scope<V>): Option<V>
    requires Head(path) in frame.names
  {
    var rest := Partition(path, '.').1;
    Walk(w, frame.names[Head(path)], if rest == "" then [] else Parts(rest))
  }

  /** The frame's own item or position has no such member, or the value found is null. */
  predicate Fails<V>(w: World<V>, path: string, frame: Scope<V>) {
    Head(path) in frame.names && (AnswerOf(w, path, frame).None? || w.isNull(AnswerOf(w, path, frame).value))
  }

  /** A reference is listed, or is a loop's own and one of the item frames fails it. */
  ghost predicate Accounted<V(!new)>(w: World<V>, path: string, ns: seq<Node>, inEach: bool, frames: set<Scope<V>>) {
    || path in FreeNames(ns, inEach)
    || (path in LoopPaths(ns, inEach) && exists frame <- frames :: Fails(w, path, frame))
  }

  /** Inside a loop the innermost frame is an item's. */
  ghost predicate LoopScoped<V(!new)>(scopes: seq<Scope<V>>, inEach: bool) {
    inEach ==> scopes != [] && ITEM in scopes[|scopes| - 1].names && INDEX in scopes[|scopes| - 1].names
  }

  /** The item frame a rendering starts in, if it starts inside a loop. */
  ghost function Innermost<V(!new)>(scopes: seq<Scope<V>>, inEach: bool): set<Scope<V>>
    requires LoopScoped(scopes, inEach)
  {
    if inEach then {scopes[|scopes| - 1]} else {}
  }

  lemma LoopNameFails<V(!new)>(w: World<V>, path: string, scopes: seq<Scope<V>>)
    requires LoopScoped(scopes, true) && IsLoopLocal(path, true) && Bound(w, path, scopes).None?
    ensures Fails(w, path, scopes[|scopes| - 1])
  {
    var frame := scopes[|scopes| - 1];
    assert Lookup(w, Head(path), scopes) == Some(frame.names[Head(path)]);
    assert Resolve(w, path, scopes) == AnswerOf(w, path, frame);
  }

  lemma OwnPathIsAccounted<V(!new)>(w: World<V>, ns: seq<Node>, scopes: seq<Scope<V>>, inEach: bool)
    requires ns != [] && !ns[0].Text? && LoopScoped(scopes, inEach) && Bound(w, ns[0].path, scopes).None?
    ensures Accounted(w, ns[0].path, ns, inEach, Innermost(scopes, inEach))
  {
    if IsLoopLocal(ns[0].path, inEach) {
      LoopNameFails(w, ns[0].path, scopes);
    }
  }

  lemma BodyIsAccounted<V(!new)>(w: World<V>, path: string, ns: seq<Node>, inEach: bool, frames: set<Scope<V>>)
    requires ns != [] && ns[0].Block? && Accounted(w, path, ns[0].body, inEach || ns[0].kind == EACH, frames)
    ensures Accounted(w, path, ns, inEach, frames)
  {
  }

  lemma RestIsAccounted<V(!new)>(w: World<V>, path: string, ns: seq<Node>, inEach: bool, frames: set<Scope<V>>)
    requires ns != [] && Accounted(w, path, ns[1..], inEach, frames)
    ensures Accounted(w, path, ns, inEach, frames)
  {
  }

  lemma MoreFrames<V(!new)>(
      w: World<V>, path: string, ns: seq<Node>, inEach: bool, some: set<Scope<V>>, more: set<Scope<V>>)
    requires Accounted(w, path, ns, inEach, some) && some <= more
    ensures Accounted(w, path, ns, inEach, more)
  {
  }

  lemma {:induction false} HolesAreListed<V(!new)>(w: World<V>, ns: seq<Node>, scopes: seq<Scope<V>>, inEach: bool)
    requires KnownKinds(ns) && LoopScoped(scopes, inEach)
    ensures forall path <- Holes(Expand(w, ns, scopes)) ::
      Accounted(w, path, ns, inEach, Innermost(scopes, inEach) + Pushed(w, ns, scopes))
    decreases ns, 0
  {
    if ns != [] {
      var leaves, rest := ExpandNode(w, ns[0], scopes), Expand(w, ns[1..], scopes);
      var inner := Innermost(scopes, inEach);
      HolesAreListed(w, ns[1..], scopes, inEach);
      NodeHolesAreListed(w, ns[0], ns, scopes, inEach);
      HolesAppend(leaves, rest);
      var frames := inner + Pushed(w, ns, scopes);
      forall path | path in Holes(leaves) ensures Accounted(w, path, ns, inEach, frames) {
        MoreFrames(w, path, ns, inEach, inner + PushedBy(w, ns[0], scopes), frames);
      }
      forall path | path in Holes(rest) ensures Accounted(w, path, ns, inEach, frames) {
        RestIsAccounted(w, path, ns, inEach, inner + Pushed(w, ns[1..], scopes));
        MoreFrames(w, path, ns, inEach, inner + Pushed(w, ns[1..], scopes), frames);
      }
    }
  }

  lemma {:induction false} NodeHolesAreListed<V(!new)>(
      w: World<V>, n: Node, ns: seq<Node>, scopes: seq<Scope<V>>, inEach: bool)
    requires ns != [] && n == ns[0] && KnownKinds(ns) && LoopScoped(scopes, inEach)
    ensures forall path <- Holes(ExpandNode(w, n, scopes)) ::
      Accounted(w, path, ns, inEach, Innermost(scopes, inEach) + PushedBy(w, n, scopes))
    decreases n
  {
    if !n.Text? {
      var value := Bound(w, n.path, scopes);
      var frames := Innermost(scopes, inEach) + PushedBy(w, n, scopes);
      if value.None? {
        OwnPathIsAccounted(w, ns, scopes, inEach);
      } else if n.Block? {
        var leaves := ExpandNode(w, n, scopes);
        if n.kind == IF {
          HolesAreListed(w, n.body, scopes, inEach);
        } else if w.items(value.value).Some? {
          ItemHolesAreListed(w, n.body, w.items(value.value).value, 0, scopes);
        }
        forall path | path in Holes(leaves) ensures Accounted(w, path, ns, inEach, frames) {
          if n.kind != IF {
            MoreFrames(w, path, n.body, true, PushedBy(w, n, scopes), frames);
          }
          BodyIsAccounted(w, path, ns, inEach, frames);
        }
      }
    }
  }

  lemma {:induction false} ItemHolesAreListed<V(!new)>(
      w: World<V>, body: seq<Node>, items: seq<V>, k: nat, scopes: seq<Scope<V>>)
    requires KnownKinds(body) && k <= |items|
    ensures forall path <- Holes(ExpandItems(w, body, items, k, scopes)) ::
      Accounted(w, path, body, true, PushedFor(w, body, items, k, scopes))
    decreases body, |items| - k + 1
  {
    if k < |items| {
      var frame := ItemScope(w, items[k], k + 1);
      var inner, frames := scopes + [frame], PushedFor(w, body, items, k, scopes);
      var leaves, rest := Expand(w, body, inner), ExpandItems(w, body, items, k + 1, scopes);
      HolesAreListed(w, body, inner, true);
      ItemHolesAreListed(w, body, items, k + 1, scopes);
      HolesAppend(leaves, rest);
      forall path | path in Holes(leaves) ensures Accounted(w, path, body, true, frames) {
        MoreFrames(w, path, body, true, Innermost(inner, true) + Pushed(w, body, inner), frames);
      }
      forall path | path in Holes(rest) ensures Accounted(w, path, body, true, frames) {
        MoreFrames(w, path, body, true, PushedFor(w, body, items, k + 1, scopes), frames);
      }
    }
  }

  /**
   Every name a rendering reports missing is one the analysis lists, or one rooted at a
   loop's own names under that loop, and then some item the loop reached has no such member
   or the value found is null.
   */
  lemma MissingNamesAreListed<V(!new)>(w: World<V>, body: string, bindings: map<string, V>, path: string)
    requires Render(w, body, bindings).Unbound? && path in Render(w, body, bindings).missing
    ensures Parse(body).Tree?
    ensures Accounted(w, path, Parse(body).nodes, false, Pushed(w, Parse(body).nodes, [Scope(bindings, None)]))
  {
    var ns, base := Parse(body).nodes, [Scope(bindings, None)];
    ParseAcceptsExactlyTrees(body, ns);
    HolesAreListed(w, ns, base, false);
    MergeExact([], Holes(Expand(w, ns, base)));
    assert {} + Pushed(w, ns, base) == Pushed(w, ns, base);
  }
}

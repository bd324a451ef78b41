/**
 Rendering a parsed template against bindings.

 The meaning of a template is the flat run of leaves it expands to: text shown, references
 left unbound, and loops over something that is not a list.  The renderer, which pushes
 and pops one shared scope stack and appends to one shared list of missing names, is proved
 to answer exactly what the leaves say.
 */
module PromptRendering {
  import opened PromptSyntax
  import opened PromptRoundTrip
  import opened Options

  /**
   The objects a template is rendered against, known only through what the renderer asks of
   them: a member by name, whether it is the null object, its string, its items when it is
   a list or a tuple, and the object of a position.
   */
  datatype World<!V> = World(
    member: (V, string) -> Option<V>,
    isNull: V -> bool,
    show: V -> string,
    items: V -> Option<seq<V>>,
    position: nat -> V)

  /** A frame of the scope stack: the names it binds, and in a loop the item whose members it offers. */
  datatype Scope<V> = Scope(names: map<string, V>, item: Option<V>)

  const ITEM := "this"
  const INDEX := "@index1"

  function ItemScope<V>(w: World<V>, item: V, index1: nat): Scope<V> {
    Scope(map[INDEX := w.position(index1), ITEM := item], Some(item))
  }

  // ---------------------------------------------------------------- resolution

  function Head(path: string): string {
    Partition(path, '.').0
  }

  /** `rest.split(".")`. */
  function Parts(rest: string): (r: seq<string>)
    decreases |rest|
  {
    var (first, more) := Partition(rest, '.');
    if '.' in rest then [first] + Parts(more) else [rest]
  }

  function InScope<V>(w: World<V>, head: string, scope: Scope<V>): Option<V> {
    if head in scope.names then Some(scope.names[head])
    else if scope.item.Some? then w.member(scope.item.value, head)
    else None
  }

  /** The innermost frame that knows *head* answers. */
  function Lookup<V>(w: World<V>, head: string, scopes: seq<Scope<V>>): Option<V> {
    if scopes == [] then None
    else
      var found := InScope(w, head, scopes[|scopes| - 1]);
      if found.Some? then found else Lookup(w, head, scopes[..|scopes| - 1])
  }

  function Walk<V>(w: World<V>, start: V, parts: seq<string>): Option<V> {
    if parts == [] then Some(start)
    else
      var next := w.member(start, parts[0]);
      if next.Some? then Walk(w, next.value, parts[1..]) else None
  }

  function Resolve<V>(w: World<V>, path: string, scopes: seq<Scope<V>>): Option<V> {
    var (head, rest) := Partition(path, '.');
    match Lookup(w, head, scopes)
    case None => None
    case Some(start) => Walk(w, start, if rest == "" then [] else Parts(rest))
  }

  /** A reference is bound when it resolves to something other than the null object. */
  function Bound<V>(w: World<V>, path: string, scopes: seq<Scope<V>>): Option<V> {
    match Resolve(w, path, scopes)
    case Some(value) => if w.isNull(value) then None else Some(value)
    case None => None
  }

  method ResolvePath<V>(w: World<V>, path: string, scopes: seq<Scope<V>>) returns (r: Option<V>)
    ensures r == Resolve(w, path, scopes)
  {
    var (head, rest) := Partition(path, '.');
    r := None;
    var i := |scopes|;
    assert scopes[..i] == scopes;
    while 0 < i && r.None?
      invariant 0 <= i <= |scopes|
      invariant r.Some? ==> r == Lookup(w, head, scopes)
      invariant r.None? ==> Lookup(w, head, scopes) == Lookup(w, head, scopes[..i])
      decreases i, if r.None? then 1 else 0
    {
      i := i - 1;
      r := InScope(w, head, scopes[i]);
      assert scopes[..i + 1][..i] == scopes[..i];
    }
    if r.None? {
      return;
    }
    var start := r.value;
    var parts := if rest == "" then [] else Parts(rest);
    var k := 0;
    while k < |parts|
      invariant 0 <= k <= |parts|
      invariant r.Some?
      invariant Walk(w, start, parts) == Walk(w, r.value, parts[k..])
    {
      r := w.member(r.value, parts[k]);
      if r.None? {
        return;
      }
      k := k + 1;
    }
  }

  // ------------------------------------------------------------------- meaning

  datatype Leaf = Shown(text: string) | Hole(path: string) | Fault(path: string)

  function Expand<V>(w: World<V>, nodes: seq<Node>, scopes: seq<Scope<V>>): seq<Leaf>
    decreases nodes, 0
  {
    if nodes == [] then []
    else ExpandNode(w, nodes[0], scopes) + Expand(w, nodes[1..], scopes)
  }

  function ExpandNode<V>(w: World<V>, n: Node, scopes: seq<Scope<V>>): seq<Leaf>
    decreases n
  {
    match n
    case Text(text) => [Shown(text)]
    case Name(path) =>
      (match Bound(w, path, scopes)
       case None => [Hole(path)]
       case Some(value) => [Shown(w.show(value))])
    case Block(kind, path, body) =>
      match Bound(w, path, scopes)
      case None => if kind == IF then [] else [Hole(path)]
      case Some(value) =>
        if kind == IF then Expand(w, body, scopes)
        else
          match w.items(value)
          case None => [Fault(path)]
          case Some(items) => ExpandItems(w, body, items, 0, scopes)
  }

  /** The body once per item from *k* on, each under a frame of its own. */
  function ExpandItems<V>(w: World<V>, body: seq<Node>, items: seq<V>, k: nat, scopes: seq<Scope<V>>): seq<Leaf>
    requires k <= |items|
    decreases body, |items| - k + 1
  {
    if k == |items| then []
    else
      Expand(w, body, scopes + [ItemScope(w, items[k], k + 1)])
      + ExpandItems(w, body, items, k + 1, scopes)
  }

  function ShownText(leaves: seq<Leaf>): string {
    if leaves == [] then ""
    else (if leaves[0].Shown? then leaves[0].text else "") + ShownText(leaves[1..])
  }

  function Holes(leaves: seq<Leaf>): seq<string> {
    if leaves == [] then []
    else (if leaves[0].Hole? then [leaves[0].path] else []) + Holes(leaves[1..])
  }

  function FirstFault(leaves: seq<Leaf>): Option<string> {
    if leaves == [] then None
    else if leaves[0].Fault? then Some(leaves[0].path)
    else FirstFault(leaves[1..])
  }

  /** *names* with each of *more* appended unless already there. */
  function Merge(names: seq<string>, more: seq<string>): seq<string>
    decreases |more|
  {
    if more == [] then names
    else Merge(if more[0] in names then names else names + [more[0]], more[1..])
  }

  datatype Rendering =
    | Done(text: string)
    | Unbound(missing: seq<string>)
    | NotAList(path: string)
    | Malformed(error: ParseError)

  function Meaning(leaves: seq<Leaf>): Rendering {
    match FirstFault(leaves)
    case Some(path) => NotAList(path)
    case None =>
      if Holes(leaves) == [] then Done(ShownText(leaves)) else Unbound(Merge([], Holes(leaves)))
  }

  function Render<V>(w: World<V>, body: string, bindings: map<string, V>): Rendering {
    match Parse(body)
    case Refused(error) => Malformed(error)
    case Tree(nodes) => Meaning(Expand(w, nodes, [Scope(bindings, None)]))
  }

  // -------------------------------------------------------- leaves concatenate

  lemma {:induction false} TextAppend(a: seq<Leaf>, b: seq<Leaf>)
    ensures ShownText(a + b) == ShownText(a) + ShownText(b)
  {
    if a == [] {
      assert a + b == b;
    } else {
      var head, rest := if a[0].Shown? then a[0].text else "", a[1..];
      assert (a + b)[0] == a[0] && (a + b)[1..] == rest + b;
      TextAppend(rest, b);
      assert head + (ShownText(rest) + ShownText(b)) == (head + ShownText(rest)) + ShownText(b);
    }
  }

  lemma {:induction false} HolesAppend(a: seq<Leaf>, b: seq<Leaf>)
    ensures Holes(a + b) == Holes(a) + Holes(b)
  {
    if a == [] {
      assert a + b == b;
    } else {
      var head, rest := if a[0].Hole? then [a[0].path] else [], a[1..];
      assert (a + b)[0] == a[0] && (a + b)[1..] == rest + b;
      HolesAppend(rest, b);
      assert head + (Holes(rest) + Holes(b)) == (head + Holes(rest)) + Holes(b);
    }
  }

  lemma {:induction false} FaultAppend(a: seq<Leaf>, b: seq<Leaf>)
    ensures FirstFault(a + b) == if FirstFault(a).Some? then FirstFault(a) else FirstFault(b)
  {
    if a == [] {
      assert a + b == b;
    } else {
      assert (a + b)[1..] == a[1..] + b;
      FaultAppend(a[1..], b);
    }
  }

  lemma {:induction false} MergeAppend(names: seq<string>, a: seq<string>, b: seq<string>)
    ensures Merge(names, a + b) == Merge(Merge(names, a), b)
    decreases |a|
  {
    if a == [] {
      assert a + b == b;
    } else {
      assert (a + b)[1..] == a[1..] + b;
      MergeAppend(if a[0] in names then names else names + [a[0]], a[1..], b);
    }
  }

  /** What a run of leaves does to the text written so far and to the missing names. */
  lemma {:induction false} LeavesStep(missing: seq<string>, a: seq<Leaf>, b: seq<Leaf>)
    ensures ShownText(a + b) == ShownText(a) + ShownText(b)
    ensures Merge(missing, Holes(a + b)) == Merge(Merge(missing, Holes(a)), Holes(b))
    ensures FirstFault(a + b) == if FirstFault(a).Some? then FirstFault(a) else FirstFault(b)
  {
    TextAppend(a, b);
    HolesAppend(a, b);
    FaultAppend(a, b);
    MergeAppend(missing, Holes(a), Holes(b));
  }

  lemma {:induction false} LeafIs(leaf: Leaf, missing: seq<string>)
    ensures ShownText([leaf]) == if leaf.Shown? then leaf.text else ""
    ensures FirstFault([leaf]) == if leaf.Fault? then Some(leaf.path) else None
    ensures Merge(missing, Holes([leaf]))
         == if leaf.Hole? && leaf.path !in missing then missing + [leaf.path] else missing
  {
    assert [leaf][1..] == [];
  }

  // -------------------------------------------------------------- the renderer

  /** The list of frames the renderer shares over its whole recursion. */
  class ScopeStack<V> {
    var frames: seq<Scope<V>>

    constructor (base: Scope<V>)
      ensures frames == [base]
    {
      frames := [base];
    }
  }

  /** The list of unbound names the renderer shares over its whole recursion. */
  class MissingNames {
    var names: seq<string>

    constructor ()
      ensures names == []
    {
      names := [];
    }

    method Note(path: string)
      modifies this
      ensures names == if path in old(names) then old(names) else old(names) + [path]
    {
      if path !in names {
        names := names + [path];
      }
    }
  }

  datatype Fragment = Piece(text: string) | Stopped(path: string)

  /** The call answered *r* and left *missing*, as the leaves say, starting from *before*. */
  ghost predicate Answers(r: Fragment, missing: seq<string>, leaves: seq<Leaf>, before: seq<string>) {
    match FirstFault(leaves)
    case Some(path) => r == Stopped(path)
    case None => r == Piece(ShownText(leaves)) && missing == Merge(before, Holes(leaves))
  }

  method RenderNodes<V>(w: World<V>, nodes: seq<Node>, scopes: ScopeStack<V>, missing: MissingNames)
    returns (r: Fragment)
    requires scopes as object != missing
    modifies scopes, missing
    ensures Answers(r, missing.names, Expand(w, nodes, old(scopes.frames)), old(missing.names))
    ensures r.Piece? ==> scopes.frames == old(scopes.frames)
    decreases nodes, 0
  {
    ghost var frames, before := scopes.frames, missing.names;
    ghost var done: seq<Leaf> := [];
    var out := "";
    var i := 0;
    while i < |nodes|
      invariant 0 <= i <= |nodes|
      invariant scopes.frames == frames
      invariant Expand(w, nodes, frames) == done + Expand(w, nodes[i..], frames)
      invariant FirstFault(done).None?
      invariant out == ShownText(done) && missing.names == Merge(before, Holes(done))
    {
      ghost var leaves := ExpandNode(w, nodes[i], frames);
      ghost var here := missing.names;
      assert nodes[i..][0] == nodes[i] && nodes[i..][1..] == nodes[i + 1..];
      assert done + (leaves + Expand(w, nodes[i + 1..], frames)) == (done + leaves) + Expand(w, nodes[i + 1..], frames);
      LeavesStep(before, done, leaves);
      FaultAppend(done + leaves, Expand(w, nodes[i + 1..], frames));
      var piece := RenderNode(w, nodes[i], scopes, missing);
      if piece.Stopped? {
        return piece;
      }
      out := out + piece.text;
      done := done + leaves;
      i := i + 1;
    }
    assert nodes[i..] == [] && done + [] == done;
    r := Piece(out);
  }

  method RenderNode<V>(w: World<V>, n: Node, scopes: ScopeStack<V>, missing: MissingNames)
    returns (r: Fragment)
    requires scopes as object != missing
    modifies scopes, missing
    ensures Answers(r, missing.names, ExpandNode(w, n, old(scopes.frames)), old(missing.names))
    ensures r.Piece? ==> scopes.frames == old(scopes.frames)
    decreases n
  {
    if n.Text? {
      LeafIs(Shown(n.text), missing.names);
      return Piece(n.text);
    }
    var value := ResolvePath(w, n.path, scopes.frames);
    if value.None? || w.isNull(value.value) {
      if n.Name? || n.kind != IF {
        LeafIs(Hole(n.path), missing.names);
        missing.Note(n.path);
      }
      return Piece("");
    }
    if n.Name? {
      LeafIs(Shown(w.show(value.value)), missing.names);
      return Piece(w.show(value.value));
    }
    if n.kind == IF {
      r := RenderNodes(w, n.body, scopes, missing);
      return;
    }
    var items := w.items(value.value);
    if items.None? {
      LeafIs(Fault(n.path), missing.names);
      return Stopped(n.path);
    }
    r := RenderItems(w, n.body, items.value, scopes, missing);
  }

  method RenderItems<V>(w: World<V>, body: seq<Node>, items: seq<V>, scopes: ScopeStack<V>, missing: MissingNames)
    returns (r: Fragment)
    requires scopes as object != missing
    modifies scopes, missing
    ensures Answers(r, missing.names, ExpandItems(w, body, items, 0, old(scopes.frames)), old(missing.names))
    ensures r.Piece? ==> scopes.frames == old(scopes.frames)
    decreases body, 1
  {
    ghost var frames, before := scopes.frames, missing.names;
    ghost var done: seq<Leaf> := [];
    var out := "";
    var k := 0;
    while k < |items|
      invariant 0 <= k <= |items|
      invariant scopes.frames == frames
      invariant ExpandItems(w, body, items, 0, frames) == done + ExpandItems(w, body, items, k, frames)
      invariant FirstFault(done).None?
      invariant out == ShownText(done) && missing.names == Merge(before, Holes(done))
    {
      ghost var inner := frames + [ItemScope(w, items[k], k + 1)];
      ghost var leaves := Expand(w, body, inner);
      ghost var rest := ExpandItems(w, body, items, k + 1, frames);
      assert done + (leaves + rest) == (done + leaves) + rest;
      LeavesStep(before, done, leaves);
      FaultAppend(done + leaves, rest);
      scopes.frames := scopes.frames + [ItemScope(w, items[k], k + 1)];
      var piece := RenderNodes(w, body, scopes, missing);
      if piece.Stopped? {
        return piece;
      }
      scopes.frames := scopes.frames[..|scopes.frames| - 1];
      assert scopes.frames == frames;
      out := out + piece.text;
      done := done + leaves;
      k := k + 1;
    }
    assert done + [] == done;
    r := Piece(out);
  }

  /** What the tree builder does with the tokens of *s* up to and including its first tag. */
  lemma {:induction false} FirstTag(s: string, stack: seq<Frame>)
    requires Split(s).Tag? && stack != []
    ensures var cut := Split(s);
      var fed := if cut.text == "" then stack else Append(stack, Text(cut.text));
      Build(Tokens(s), stack) == Build([ReadTag(cut.content)] + Tokens(cut.rest), fed)
  {
    var cut := Split(s);
    var ts := [ReadTag(cut.content)] + Tokens(cut.rest);
    TextFirst(cut.text, ts, stack);
  }

  lemma {:induction false} TextFirst(text: string, ts: seq<Token>, stack: seq<Frame>)
    requires stack != []
    ensures Build(TextTokens(text) + ts, stack) == Build(ts, if text == "" then stack else Append(stack, Text(text)))
  {
    if text == "" {
      assert TextTokens(text) + ts == ts;
    } else {
      assert Advance(stack, TextToken(text)) == Append(stack, Text(text));
    }
  }

  lemma {:induction false} LastText(s: string, stack: seq<Frame>)
    requires Split(s).NoTag? && stack != []
    ensures Build(Tokens(s), stack) == Build([], if s == "" then stack else Append(stack, Text(s)))
  {
    if s != "" {
      assert Tokens(s) == [TextToken(s)] + [];
      assert Advance(stack, TextToken(s)) == Append(stack, Text(s));
    }
  }

  /** One turn of the loop: the text before a tag, and the tag. */
  method FeedTag(stack: seq<Frame>, cut: Cut, ghost s: string) returns (fed: Fed)
    requires stack != [] && cut == Split(s) && cut.Tag?
    ensures fed.Now? ==> fed.stack != []
    ensures Build(Tokens(s), stack) ==
      if fed.Refuse? then Refused(fed.error) else Build(Tokens(cut.rest), fed.stack)
  {
    TagIsRead(s, stack);
    var before := stack;
    if cut.text != "" {
      before := Append(stack, Text(cut.text));
    }
    fed := Feed(before, ReadTag(cut.content));
  }

  /** The tokeniser's scan and the stack of open blocks, as one loop over the tags. */
  method ParseTemplate(body: string) returns (r: Parsed)
    ensures r == Parse(body)
  {
    var stack := [Root];
    var pos: nat := 0;
    assert body[0..] == body;
    var cut := Split(body);
    while cut.Tag?
      invariant pos <= |body| && stack != []
      invariant cut == Split(body[pos..])
      invariant Build(Tokens(body[pos..]), stack) == Parse(body)
      decreases |body| - pos
    {
      var fed := FeedTag(stack, cut, body[pos..]);
      if fed.Refuse? {
        return Refused(fed.error);
      }
      RestStands(body, pos);
      stack, pos := fed.stack, |body| - |cut.rest|;
      cut := Split(body[pos..]);
    }
    LastText(body[pos..], stack);
    if pos < |body| {
      stack := Append(stack, Text(body[pos..]));
    }
    r := Finish(stack);
  }

  /** One tag of the body, with the text before it. */
  lemma {:induction false} TagIsRead(s: string, stack: seq<Frame>)
    requires Split(s).Tag? && stack != []
    ensures var cut := Split(s);
      var before := if cut.text == "" then stack else Append(stack, Text(cut.text));
      var fed := Feed(before, ReadTag(cut.content));
      Build(Tokens(s), stack) == if fed.Refuse? then Refused(fed.error) else Build(Tokens(cut.rest), fed.stack)
  {
    FirstTag(s, stack);
    var cut := Split(s);
    assert ([ReadTag(cut.content)] + Tokens(cut.rest))[1..] == Tokens(cut.rest);
  }

  lemma {:induction false} SplitRest(s: string)
    requires Split(s).Tag?
    ensures var rest := Split(s).rest; |rest| < |s| && rest == s[|s| - |rest|..]
  {
  }

  lemma RestStands(body: string, pos: nat)
    requires pos <= |body| && Split(body[pos..]).Tag?
    ensures var rest := Split(body[pos..]).rest; pos < |body| - |rest| && body[|body| - |rest|..] == rest
  {
    SplitRest(body[pos..]);
  }

  /** The one substitution implementation, against the meaning of the template. */
  method RenderTemplate<V>(w: World<V>, body: string, bindings: map<string, V>) returns (r: Rendering)
    ensures r == Render(w, body, bindings)
  {
    var parsed := ParseTemplate(body);
    if parsed.Refused? {
      return Malformed(parsed.error);
    }
    var missing := new MissingNames();
    var scopes := new ScopeStack(Scope(bindings, None));
    ghost var leaves := Expand(w, parsed.nodes, scopes.frames);
    var rendered := RenderNodes(w, parsed.nodes, scopes, missing);
    MergeExact([], Holes(leaves));
    match rendered {
      case Stopped(path) => r := NotAList(path);
      case Piece(text) =>
        r := if missing.names != [] then Unbound(missing.names) else Done(text);
    }
  }

  // ------------------------------------------------------- what missing lists

  ghost predicate NoRepeats(names: seq<string>) {
    forall i, j :: 0 <= i < j < |names| ==> names[i] != names[j]
  }

  /** The position of the first occurrence of *x*. */
  ghost function FirstIndex(names: seq<string>, x: string): (i: nat)
    requires x in names
    ensures i < |names| && names[i] == x && x !in names[..i]
  {
    if names[0] == x then 0 else 1 + FirstIndex(names[1..], x)
  }

  /** Merging lists every name once, keeps what was there in front, and adds nothing else. */
  lemma {:induction false} MergeExact(names: seq<string>, more: seq<string>)
    requires NoRepeats(names)
    ensures var r := Merge(names, more);
      && NoRepeats(r) && names <= r
      && (forall x :: x in r <==> x in names || x in more)
    decreases |more|
  {
    if more != [] {
      var next := if more[0] in names then names else names + [more[0]];
      MergeExact(next, more[1..]);
      assert forall x :: x in more <==> x == more[0] || x in more[1..];
    }
  }

  lemma {:induction false} MergeKeepsOrder(more: seq<string>, k: nat)
    requires k <= |more|
    ensures Merge([], more[..k]) <= Merge([], more)
  {
    assert more == more[..k] + more[k..];
    MergeAppend([], more[..k], more[k..]);
    MergeExact([], more[..k]);
    MergeExact(Merge([], more[..k]), more[k..]);
  }

  /**
   A template whose loops all run over lists renders to text exactly when nothing reached is
   unbound; otherwise it reports exactly the reached unbound references, each once, in the
   order they were first reached.
   */
  lemma {:induction false} MissingIsExact<V>(w: World<V>, body: string, bindings: map<string, V>)
    requires Parse(body).Tree?
    ensures
      var leaves := Expand(w, Parse(body).nodes, [Scope(bindings, None)]);
      var holes := Holes(leaves);
      match Render(w, body, bindings)
      case Done(text) => text == ShownText(leaves) && holes == []
      case NotAList(path) => Fault(path) in leaves
      case Malformed(_) => false
      case Unbound(missing) =>
        && holes != [] && NoRepeats(missing)
        && (forall x :: x in missing <==> x in holes)
        && (forall i, j :: 0 <= i < j < |missing| ==> FirstIndex(holes, missing[i]) < FirstIndex(holes, missing[j]))
  {
    var leaves := Expand(w, Parse(body).nodes, [Scope(bindings, None)]);
    var holes := Holes(leaves);
    MergeExact([], holes);
    FaultIsReached(leaves);
    MergeInOrder(holes);
  }

  lemma {:induction false} MergeInOrder(holes: seq<string>)
    ensures var missing := Merge([], holes);
      && (forall x <- missing :: x in holes)
      && (forall i, j :: 0 <= i < j < |missing| ==> FirstIndex(holes, missing[i]) < FirstIndex(holes, missing[j]))
  {
    var missing := Merge([], holes);
    MergeExact([], holes);
    forall i, j | 0 <= i < j < |missing|
      ensures FirstIndex(holes, missing[i]) < FirstIndex(holes, missing[j])
    {
      var at := FirstIndex(holes, missing[j]);
      MergeKeepsOrder(holes, at + 1);
      MergeExact([], holes[..at + 1]);
      var seen := Merge([], holes[..at + 1]);
      assert holes[at] in holes[..at + 1];
      var k :| 0 <= k < |seen| && seen[k] == missing[j];
      assert k == j;
      assert missing[i] == seen[i] && seen[i] in holes[..at + 1];
      var m :| 0 <= m < at + 1 && holes[m] == missing[i];
      FirstIndexLeast(holes, missing[i], m);
    }
  }

  lemma {:induction false} FirstIndexLeast(names: seq<string>, x: string, m: nat)
    requires m < |names| && names[m] == x
    ensures FirstIndex(names, x) <= m
  {
    var r := FirstIndex(names, x);
    assert !(m < r);
  }

  lemma {:induction false} FaultIsReached(leaves: seq<Leaf>)
    ensures FirstFault(leaves).Some? ==> Fault(FirstFault(leaves).value) in leaves
  {
    if leaves != [] && !leaves[0].Fault? {
      FaultIsReached(leaves[1..]);
    }
  }
}

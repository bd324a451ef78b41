/** What the parser accepts, and that printing undoes parsing. */
module PromptRoundTrip {
  import opened PromptSyntax

  // --------------------------------------------------- accepted = well bracketed

  /** The tokens a stack of open blocks has consumed. */
  ghost function Consumed(stack: seq<Frame>): seq<Token>
    requires stack != []
  {
    var top := stack[|stack| - 1];
    if |stack| == 1 then Flatten(top.children)
    else Consumed(stack[..|stack| - 1]) + [OpenToken(top.kind, top.path)] + Flatten(top.children)
  }

  ghost predicate KnownStack(stack: seq<Frame>) {
    forall i :: 0 <= i < |stack| ==>
      KnownKinds(stack[i].children) && (i > 0 ==> IsBlockKind(stack[i].kind))
  }

  lemma {:induction false} Regroup<T>(a: seq<T>, b: seq<T>, c: seq<T>)
    ensures a + (b + c) == (a + b) + c
  {
  }

  lemma {:induction false} FlattenAppend(ns: seq<Node>, ms: seq<Node>)
    ensures Flatten(ns + ms) == Flatten(ns) + Flatten(ms)
  {
    if ns == [] {
      assert ns + ms == ms;
    } else {
      FlattenAppend(ns[1..], ms);
      assert (ns + ms)[0] == ns[0] && (ns + ms)[1..] == ns[1..] + ms;
      Regroup(FlattenNode(ns[0]), Flatten(ns[1..]), Flatten(ms));
    }
  }

  lemma {:induction false} FlattenOne(n: Node)
    ensures Flatten([n]) == FlattenNode(n)
  {
    assert [n][1..] == [];
  }

  lemma {:induction false} ConsumedAppend(stack: seq<Frame>, node: Node)
    requires stack != []
    ensures Consumed(Append(stack, node)) == Consumed(stack) + FlattenNode(node)
  {
    var top := stack[|stack| - 1];
    FlattenAppend(top.children, [node]);
    FlattenOne(node);
    assert Append(stack, node)[..|stack| - 1] == stack[..|stack| - 1];
  }

  lemma {:induction false} ConsumedClose(stack: seq<Frame>)
    requires |stack| > 1
    ensures Consumed(CloseTop(stack)) == Consumed(stack) + [CloseToken(stack[|stack| - 1].kind)]
  {
    var top := stack[|stack| - 1];
    ConsumedAppend(stack[..|stack| - 1], Block(top.kind, top.path, top.children));
  }

  lemma {:induction false} ConsumedOpen(stack: seq<Frame>, kind: string, path: string)
    requires stack != []
    ensures Consumed(stack + [Frame(kind, path, [])]) == Consumed(stack) + [OpenToken(kind, path)]
  {
    assert (stack + [Frame(kind, path, [])])[..|stack|] == stack;
  }

  /** No token list the tokenizer emits opens a block of a third kind. */
  ghost predicate KnownOpens(ts: seq<Token>) {
    forall t <- ts :: t.OpenToken? ==> IsBlockKind(t.kind)
  }

  lemma TextsKnown(text: string)
    ensures KnownOpens(TextTokens(text))
  {
  }

  lemma TagKnown(content: string)
    ensures ReadTag(content).OpenToken? ==> IsBlockKind(ReadTag(content).kind)
  {
  }

  lemma {:induction false} TokensKnown(s: string)
    ensures KnownOpens(Tokens(s))
    decreases |s|
  {
    match Split(s)
    case NoTag =>
    case Tag(text, content, rest) =>
      TokensKnown(rest);
      TextsKnown(text);
      TagKnown(content);
      KnownJoin(TextTokens(text), ReadTag(content), Tokens(rest));
  }

  lemma {:induction false} KnownJoin(texts: seq<Token>, tag: Token, rest: seq<Token>)
    requires KnownOpens(texts) && KnownOpens(rest) && (tag.OpenToken? ==> IsBlockKind(tag.kind))
    ensures KnownOpens(texts + ([tag] + rest))
  {
  }

  /** Soundness: an accepted tree flattens back to exactly what was consumed. */
  lemma {:induction false} BuildSound(ts: seq<Token>, stack: seq<Frame>)
    requires stack != [] && KnownStack(stack) && KnownOpens(ts)
    ensures Build(ts, stack).Tree? ==>
      && Flatten(Build(ts, stack).nodes) == Consumed(stack) + ts
      && KnownKinds(Build(ts, stack).nodes)
    decreases |ts|
  {
    if ts != [] {
      assert ts == [ts[0]] + ts[1..];
      var next := Advance(stack, ts[0]);
      if next != [] {
        AdvanceConsumes(stack, ts[0]);
        BuildSound(ts[1..], next);
      }
    }
  }

  /** The stack after one token, or [] when the token is refused. */
  ghost function Advance(stack: seq<Frame>, t: Token): (r: seq<Frame>)
    requires stack != []
    ensures r != [] ==> forall ts :: Build([t] + ts, stack) == Build(ts, r)
    ensures r == [] ==> forall ts :: Build([t] + ts, stack).Refused? && !Build([t] + ts, stack).error.Unclosed?
  {
    assert forall ts: seq<Token> :: ([t] + ts)[1..] == ts;
    match Feed(stack, t)
    case Now(next) => next
    case Refuse(_) => []
  }

  lemma {:induction false} AdvanceConsumes(stack: seq<Frame>, t: Token)
    requires stack != [] && KnownStack(stack) && Advance(stack, t) != []
    requires t.OpenToken? ==> IsBlockKind(t.kind)
    ensures Consumed(Advance(stack, t)) == Consumed(stack) + [t]
    ensures KnownStack(Advance(stack, t))
  {
    match t
    case TextToken(text) =>
      ConsumedAppend(stack, Text(text));
      AppendKnown(stack, Text(text));
    case NameToken(path) =>
      ConsumedAppend(stack, Name(path));
      AppendKnown(stack, Name(path));
    case OpenToken(kind, path) => ConsumedOpen(stack, kind, path);
    case CloseToken(kind) =>
      ConsumedClose(stack);
      CloseKnown(stack);
  }

  lemma CloseKnown(stack: seq<Frame>)
    requires |stack| > 1 && KnownStack(stack) && IsBlockKind(stack[|stack| - 1].kind)
    ensures KnownStack(CloseTop(stack))
  {
    var top := stack[|stack| - 1];
    AppendKnown(stack[..|stack| - 1], Block(top.kind, top.path, top.children));
  }

  lemma {:induction false} AppendKnown(stack: seq<Frame>, node: Node)
    requires stack != [] && KnownStack(stack) && KnownKinds([node])
    ensures KnownStack(Append(stack, node))
  {
    var top := stack[|stack| - 1];
    assert node in [node];
    forall n | n in top.children + [node] ensures n.Block? ==> IsBlockKind(n.kind) && KnownKinds(n.body) {
    }
  }

  /** The stack with *ns* read into its top block. */
  ghost function Grown(stack: seq<Frame>, ns: seq<Node>): (r: seq<Frame>)
    requires stack != []
    ensures r != []
  {
    var top := stack[|stack| - 1];
    stack[..|stack| - 1] + [top.(children := top.children + ns)]
  }

  /** Completeness: the tokens of a tree are always accepted, as that tree. */
  lemma {:induction false} BuildComplete(ns: seq<Node>, ts: seq<Token>, stack: seq<Frame>)
    requires stack != [] && KnownKinds(ns)
    ensures Build(Flatten(ns) + ts, stack) == Build(ts, Grown(stack, ns))
    decreases ns
  {
    if ns == [] {
      assert Flatten(ns) + ts == ts;
      GrownByNothing(stack);
    } else {
      assert ns[0] in ns;
      BuildNode(ns[0], Flatten(ns[1..]) + ts, stack);
      BuildComplete(ns[1..], ts, Append(stack, ns[0]));
      Regroup(FlattenNode(ns[0]), Flatten(ns[1..]), ts);
      GrownByOne(stack, ns);
    }
  }

  lemma {:induction false} GrownByNothing(stack: seq<Frame>)
    requires stack != []
    ensures Grown(stack, []) == stack
  {
    var top := stack[|stack| - 1];
    assert top.children + [] == top.children;
  }

  lemma {:induction false} GrownByOne(stack: seq<Frame>, ns: seq<Node>)
    requires stack != [] && ns != []
    ensures Grown(Append(stack, ns[0]), ns[1..]) == Grown(stack, ns)
  {
    var top := stack[|stack| - 1];
    var stack' := Append(stack, ns[0]);
    assert stack'[..|stack'| - 1] == stack[..|stack| - 1];
    assert stack'[|stack'| - 1].children + ns[1..] == top.children + ns;
  }

  lemma {:induction false} BuildNode(n: Node, ts: seq<Token>, stack: seq<Frame>)
    requires stack != [] && KnownKinds([n])
    ensures Build(FlattenNode(n) + ts, stack) == Build(ts, Append(stack, n))
    decreases n
  {
    match n
    case Text(text) => assert Advance(stack, TextToken(text)) == Append(stack, n);
    case Name(path) => assert Advance(stack, NameToken(path)) == Append(stack, n);
    case Block(kind, path, body) =>
      assert n in [n];
      var entered := stack + [Frame(kind, path, [])];
      var closing := [CloseToken(kind)] + ts;
      assert FlattenNode(n) + ts == [OpenToken(kind, path)] + (Flatten(body) + closing);
      assert Advance(stack, OpenToken(kind, path)) == entered;
      BuildComplete(body, closing, entered);
      var filled := stack + [Frame(kind, path, body)];
      assert [] + body == body && entered[..|entered| - 1] == stack == filled[..|filled| - 1];
      assert Grown(entered, body) == filled;
      assert Advance(filled, CloseToken(kind)) == CloseTop(filled) == Append(stack, n);
  }

  /**
   A body is accepted exactly when its tokens are the bracketing of a tree of if and each
   blocks, and the parser then answers with that tree and no other.
   */
  lemma {:induction false} ParseAcceptsExactlyTrees(body: string, ns: seq<Node>)
    ensures Parse(body) == Tree(ns) <==> KnownKinds(ns) && Flatten(ns) == Tokens(body)
  {
    TokensKnown(body);
    BuildSound(Tokens(body), [Root]);
    if KnownKinds(ns) && Flatten(ns) == Tokens(body) {
      BuildComplete(ns, [], [Root]);
      assert Flatten(ns) + [] == Tokens(body);
      assert [] + ns == ns;
    }
  }

  // ------------------------------------------------------- which refusal, exactly

  /** The closing tags that would finish every open block, innermost first. */
  ghost function Closers(stack: seq<Frame>): seq<Token>
    requires stack != []
    decreases |stack|
  {
    if |stack| == 1 then []
    else [CloseToken(stack[|stack| - 1].kind)] + Closers(CloseTop(stack))
  }

  lemma {:induction false} ClosersFinish(stack: seq<Frame>)
    requires stack != []
    ensures Build(Closers(stack), stack).Tree?
    decreases |stack|
  {
    if |stack| > 1 {
      assert Advance(stack, CloseToken(stack[|stack| - 1].kind)) == CloseTop(stack);
      ClosersFinish(CloseTop(stack));
    }
  }

  lemma {:induction false} UnclosedCompletes(ts: seq<Token>, stack: seq<Frame>) returns (more: seq<Token>)
    requires stack != [] && Build(ts, stack).Refused? && Build(ts, stack).error.Unclosed?
    ensures Build(ts + more, stack).Tree?
    decreases |ts|
  {
    if ts == [] {
      ClosersFinish(stack);
      more := Closers(stack);
      assert ts + more == more;
    } else {
      assert ts == [ts[0]] + ts[1..];
      var next := Advance(stack, ts[0]);
      more := UnclosedCompletes(ts[1..], next);
      assert ts + more == [ts[0]] + (ts[1..] + more);
    }
  }

  lemma {:induction false} OtherRefusalStands(ts: seq<Token>, more: seq<Token>, stack: seq<Frame>)
    requires stack != [] && Build(ts, stack).Refused? && !Build(ts, stack).error.Unclosed?
    ensures Build(ts + more, stack) == Build(ts, stack)
    decreases |ts|
  {
    assert ts == [ts[0]] + ts[1..];
    assert (ts + more)[1..] == ts[1..] + more;
    var next := Advance(stack, ts[0]);
    if next != [] {
      OtherRefusalStands(ts[1..], more, next);
    }
  }

  /** Some continuation of the tokens is accepted. */
  ghost predicate Completable(ts: seq<Token>) {
    exists more :: Build(ts + more, [Root]).Tree?
  }

  /** The tokens bracket some tree. */
  ghost predicate Bracketed(ts: seq<Token>) {
    exists ns :: KnownKinds(ns) && Flatten(ns) == ts
  }

  lemma {:induction false} AcceptedIsBracketed(body: string)
    ensures Parse(body).Tree? <==> Bracketed(Tokens(body))
  {
    if Parse(body).Tree? {
      ParseAcceptsExactlyTrees(body, Parse(body).nodes);
    }
    forall ns | KnownKinds(ns) && Flatten(ns) == Tokens(body) ensures Parse(body).Tree? {
      ParseAcceptsExactlyTrees(body, ns);
    }
  }

  /**
   The refusal names why: "unclosed" exactly when the tokens bracket no tree and yet some
   continuation does, the other refusals exactly when no continuation is ever accepted.
   */
  lemma {:induction false} RefusalIsExact(body: string)
    ensures var ts := Tokens(body);
      match Parse(body)
      case Tree(_) => Bracketed(ts)
      case Refused(Unclosed(_)) => !Bracketed(ts) && Completable(ts)
      case Refused(_) => !Completable(ts)
  {
    var ts := Tokens(body);
    AcceptedIsBracketed(body);
    match Parse(body)
    case Tree(_) =>
    case Refused(Unclosed(_)) =>
      var more := UnclosedCompletes(ts, [Root]);
    case Refused(_) =>
      forall more ensures Build(ts + more, [Root]).Refused? {
        OtherRefusalStands(ts, more, [Root]);
      }
  }
}

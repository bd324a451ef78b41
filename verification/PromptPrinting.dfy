/** Printing a canonical tree and reading it back gives the same tree. */
module PromptPrinting {
  import opened PromptSyntax
  import opened PromptRoundTrip

  // ------------------------------------------------------------- cutting a tag

  lemma {:induction false} FindPairIs(s: string, c: char, i: nat)
    requires i + 1 < |s| && s[i] == c && s[i + 1] == c && NoPair(s[..i + 1], c)
    ensures FindPair(s, c) == i
  {
    var r := FindPair(s, c);
    assert 0 <= r;
    assert !(r < i);
    assert !(i < r);
  }

  lemma {:induction false} FindPairAfter(head: string, c: char, tail: string)
    requires NoPair(head + [c], c)
    ensures FindPair(head + [c, c] + tail, c) == |head|
  {
    var s := head + [c, c] + tail;
    assert s[..|head| + 1] == head + [c];
    FindPairIs(s, c, |head|);
  }

  lemma {:induction false} SplitShape(s: string)
    requires Split(s).Tag?
    ensures var r := Split(s);
      && s == r.text + "{{" + (r.content + "}}" + r.rest)
      && NoPair(r.text + "{", '{') && NoPair(r.content + "}", '}')
  {
    var open := FindPair(s, '{');
    var tail := s[open + 2..];
    var close := FindPair(tail, '}');
    CutAtPair(s, '{', open);
    CutAtPair(tail, '}', close);
    assert s[..open] + "{" == s[..open + 1];
    assert tail[..close] + "}" == tail[..close + 1];
  }

  lemma {:induction false} SplitUnique(text: string, content: string, rest: string)
    requires NoPair(text + "{", '{') && NoPair(content + "}", '}')
    ensures Split(text + "{{" + (content + "}}" + rest)) == Tag(text, content, rest)
  {
    var tail := content + "}}" + rest;
    var s := text + "{{" + tail;
    FindPairAfter(text, '{', tail);
    FindPairAfter(content, '}', rest);
    assert s[..|text|] == text && s[|text| + 2..] == tail;
    assert tail[..|content|] == content && tail[|content| + 2..] == rest;
  }

  // ------------------------------------------------------- one tag, read back

  lemma {:induction false} StripLeftPad(s: string)
    ensures StripLeft(" " + s) == StripLeft(s)
  {
    assert (" " + s)[1..] == s;
  }

  lemma {:induction false} StripRightPad(s: string)
    ensures StripRight(s + " ") == StripRight(s)
  {
    assert (s + " ")[..|s|] == s;
  }

  lemma {:induction false} StripPadded(s: string)
    requires Trimmed(s)
    ensures Strip(Pad(s)) == s
  {
    assert " " + s + " " == " " + (s + " ");
    StripLeftPad(s + " ");
    if s == "" {
      assert s + " " == " " + "";
      StripLeftPad("");
    } else {
      assert StripLeft(s + " ") == s + " ";
      StripRightPad(s);
    }
  }

  lemma {:induction false} StripTrims(s: string)
    ensures Trimmed(Strip(s))
    ensures NoPair(s, '}') ==> NoPair(Strip(s), '}')
  {
    var left := StripLeft(s);
    var r := StripRight(left);
    assert r == left[..|r|];
    assert r == s[|s| - |left|..|s| - |left| + |r|];
    PartHasNoPair(s, |s| - |left|, |s| - |left| + |r|);
    assert r == "" || r[0] == left[0];
  }

  lemma {:induction false} PartHasNoPair(s: string, from: nat, end: nat)
    requires from <= end <= |s|
    ensures NoPair(s, '}') ==> NoPair(s[from..end], '}')
  {
    if NoPair(s, '}') {
      forall i | 0 <= i < end - from - 1 ensures !(s[from..end][i] == '}' && s[from..end][i + 1] == '}') {
        assert !(s[from + i] == '}' && s[from + i + 1] == '}');
      }
    }
  }

  /** The tags whose padded source reads back as themselves. */
  ghost predicate CanonicalTag(t: Token) {
    match t
    case TextToken(_) => false
    case NameToken(path) => PlainPath(path) && (path == "" || (path[0] != '#' && path[0] != '/'))
    case OpenToken(kind, path) => IsBlockKind(kind) && path != "" && PlainPath(path)
    case CloseToken(kind) => IsBlockKind(kind)
    case UnknownToken(_) => false
  }

  lemma {:induction false} TagReadsBack(t: Token)
    requires CanonicalTag(t)
    ensures ReadTag(Pad(TagSource(t))) == t && NoPair(Pad(TagSource(t)) + "}", '}')
  {
    var source := TagSource(t);
    if t.CloseToken? {
      CloseReadsBack(t.kind);
    } else if t.OpenToken? {
      OpenReadsBack(t.kind, t.path);
    }
    StripPadded(source);
    PadHasNoPair(source);
  }

  lemma {:induction false} KindsArePlain(kind: string)
    requires IsBlockKind(kind)
    ensures kind != "" && !IsSpace(kind[|kind| - 1]) && NoPair(kind, '}') && ' ' !in kind
  {
  }

  lemma {:induction false} CloseReadsBack(kind: string)
    requires IsBlockKind(kind)
    ensures var source := "/" + kind;
      Classify(source) == CloseToken(kind) && Trimmed(source) && NoPair(source, '}')
  {
    var source := "/" + kind;
    KindsArePlain(kind);
    assert source[1..] == kind;
    assert source[|source| - 1] == kind[|kind| - 1];
    forall i | 0 <= i < |source| - 1 ensures !(source[i] == '}' && source[i + 1] == '}') {
      if 0 < i {
        assert source[i] == kind[i - 1];
      }
    }
  }

  lemma {:induction false} PadHasNoPair(s: string)
    requires NoPair(s, '}')
    ensures NoPair(Pad(s) + "}", '}')
  {
    var padded := Pad(s) + "}";
    forall i | 0 <= i < |padded| - 1 ensures !(padded[i] == '}' && padded[i + 1] == '}') {
      if 1 <= i <= |s| {
        assert padded[i] == s[i - 1];
      }
    }
  }

  lemma {:induction false} OpenReadsBack(kind: string, path: string)
    requires IsBlockKind(kind) && path != "" && PlainPath(path)
    ensures var source := "#" + (kind + " " + path);
      Classify(source) == OpenToken(kind, path) && Trimmed(source) && NoPair(source, '}')
  {
    var source := "#" + (kind + " " + path);
    KindsArePlain(kind);
    assert source[|source| - 1] == path[|path| - 1];
    assert source[1..] == kind + " " + path;
    PartitionKind(kind, path);
    StripTrimmed(path);
    OpenHasNoPair(kind, path);
  }

  lemma {:induction false} OpenHasNoPair(kind: string, path: string)
    requires IsBlockKind(kind) && NoPair(path, '}')
    ensures NoPair("#" + (kind + " " + path), '}')
  {
    KindsArePlain(kind);
    var s := "#" + (kind + " " + path);
    var at := |kind| + 2;
    forall i | 0 <= i < |s| - 1 ensures !(s[i] == '}' && s[i + 1] == '}') {
      if at <= i {
        assert s[i] == path[i - at];
      }
    }
  }

  lemma {:induction false} StripTrimmed(s: string)
    requires Trimmed(s)
    ensures Strip(s) == s
  {
  }

  lemma {:induction false} PartitionKind(kind: string, path: string)
    requires ' ' !in kind
    ensures Partition(kind + " " + path, ' ') == (kind, path)
  {
    var s := kind + " " + path;
    var r := Partition(s, ' ');
    assert s[|kind|] == ' ';
    assert s == r.0 + [' '] + r.1;
    assert s[|r.0|] == ' ';
    assert !(|r.0| < |kind|);
    assert !(|kind| < |r.0|);
    assert r.0 == s[..|r.0|] == kind;
    assert r.1 == s[|r.0| + 1..] == path;
  }

  lemma {:induction false} ReadTagCanonical(content: string)
    requires NoPair(content + "}", '}')
    ensures var t := ReadTag(content);
      t.NameToken? || t.OpenToken? || (t.CloseToken? && IsBlockKind(t.kind)) ==> CanonicalTag(t)
  {
    forall i | 0 <= i < |content| - 1 ensures !(content[i] == '}' && content[i + 1] == '}') {
      assert (content + "}")[i] == content[i];
    }
    StripTrims(content);
    ClassifyCanonical(Strip(content));
  }

  lemma {:induction false} ClassifyCanonical(tag: string)
    requires PlainPath(tag)
    ensures var t := Classify(tag);
      t.NameToken? || t.OpenToken? || (t.CloseToken? && IsBlockKind(t.kind)) ==> CanonicalTag(t)
  {
    if tag != "" && tag[0] == '#' {
      var rest := tag[1..];
      var (kind, path) := Partition(rest, ' ');
      StripTrims(path);
      assert NoPair(path, '}') by {
        if ' ' in rest {
          forall i | 0 <= i < |path| - 1 ensures !(path[i] == '}' && path[i + 1] == '}') {
            assert tag[1 + |kind| + 1 + i] == path[i];
          }
        }
      }
    }
  }

  // -------------------------------------------------------------- whole bodies

  /** The token lists of accepted bodies: maximal tag-free texts between canonical tags. */
  ghost predicate CanonicalTokens(ts: seq<Token>) {
    ts == [] || (
      && CanonicalTokens(ts[1..])
      && if ts[0].TextToken? then
           && ts[0].text != ""
           && if |ts| == 1 then Split(ts[0].text).NoTag?
              else !ts[1].TextToken? && NoPair(ts[0].text + "{", '{')
         else CanonicalTag(ts[0])
    )
  }

  /** Every canonical token list survives printing and reading. */
  lemma {:induction false} TokensOfPrint(ts: seq<Token>)
    requires CanonicalTokens(ts)
    ensures Tokens(PrintTokens(ts)) == ts
    decreases |ts|, 1
  {
    if ts != [] {
      var behind := ts[1..];
      PrintCons(ts);
      if !ts[0].TextToken? {
        TokensOfTag("", ts[0], behind);
        NothingBefore(PrintTokens(ts), ts);
      } else if behind != [] {
        PrintCons(behind);
        TokensOfTag(ts[0].text, behind[0], behind[1..]);
        assert ts == TextTokens(ts[0].text) + ([behind[0]] + behind[1..]);
      }
    }
  }

  lemma {:induction false} PrintCons(ts: seq<Token>)
    requires ts != []
    ensures ts == [ts[0]] + ts[1..]
    ensures PrintTokens(ts) == PrintToken(ts[0]) + PrintTokens(ts[1..])
    ensures ts[1..] == [] && ts[0].TextToken? ==> PrintTokens(ts) == ts[0].text
  {
  }

  lemma {:induction false} TokensOfTag(text: string, tag: Token, rest: seq<Token>)
    requires CanonicalTag(tag) && CanonicalTokens(rest) && NoPair(text + "{", '{')
    ensures Tokens(text + (PrintToken(tag) + PrintTokens(rest))) == TextTokens(text) + ([tag] + rest)
    decreases |rest| + 1, 0
  {
    TagReadsBack(tag);
    TokensOfPrint(rest);
    TokensAt(text, Pad(TagSource(tag)), PrintTokens(rest));
  }

  lemma {:induction false} TokensAt(text: string, content: string, rest: string)
    requires NoPair(text + "{", '{') && NoPair(content + "}", '}')
    ensures Tokens(text + (Braced(content) + rest)) == TextTokens(text) + ([ReadTag(content)] + Tokens(rest))
  {
    SplitUnique(text, content, rest);
    Regroup(text, "{{", content + "}}", rest);
  }

  lemma {:induction false} NothingBefore(s: string, ts: seq<Token>)
    ensures "" + s == s && TextTokens("") + ts == ts
  {
  }

  lemma {:induction false} Regroup(a: string, b: string, c: string, d: string)
    ensures a + ((b + c) + d) == a + b + (c + d)
  {
  }

  /** Tokens that flatten a tree: no unknown block, closers of the two kinds only. */
  ghost predicate TreeTokens(ts: seq<Token>) {
    forall t <- ts :: !t.UnknownToken? && (t.CloseToken? ==> IsBlockKind(t.kind))
  }

  lemma {:induction false} TokensCanonical(s: string)
    requires TreeTokens(Tokens(s))
    ensures CanonicalTokens(Tokens(s))
    decreases |s|
  {
    match Split(s)
    case NoTag =>
    case Tag(text, content, rest) =>
      SplitShape(s);
      ReadTagCanonical(content);
      var tag, behind := ReadTag(content), Tokens(rest);
      assert Tokens(s) == TextTokens(text) + ([tag] + behind);
      assert forall t <- behind :: t in Tokens(s);
      assert tag in Tokens(s);
      assert !tag.TextToken?;
      TokensCanonical(rest);
      PrependTag(text, tag, behind);
  }

  lemma {:induction false} PrependTag(text: string, tag: Token, ts: seq<Token>)
    requires CanonicalTag(tag) && CanonicalTokens(ts) && NoPair(text + "{", '{')
    ensures CanonicalTokens(TextTokens(text) + ([tag] + ts))
  {
    var behind := [tag] + ts;
    assert behind[1..] == ts;
    if text == "" {
      assert TextTokens(text) + behind == behind;
    } else {
      var all := [TextToken(text)] + behind;
      assert TextTokens(text) + behind == all;
      assert all[1..] == behind;
    }
  }

  // ----------------------------------------------------- canonical = flattened

  lemma {:induction false} FlattenTree(ns: seq<Node>)
    requires KnownKinds(ns)
    ensures TreeTokens(Flatten(ns))
    decreases ns
  {
    if ns != [] {
      FlattenTree(ns[1..]);
      if ns[0].Block? {
        assert ns[0] in ns;
        FlattenTree(ns[0].body);
      }
    }
  }

  lemma {:induction false} FlattenStarts(ns: seq<Node>)
    requires ns != []
    ensures Flatten(ns) != [] && (Flatten(ns)[0].TextToken? <==> ns[0].Text?)
  {
  }

  /** A tree is canonical exactly when its tokens, with what follows, are. */
  lemma {:induction false} CanonicalFlattens(ns: seq<Node>, ts: seq<Token>)
    requires KnownKinds(ns) && CanonicalTokens(ts) && (ts != [] ==> !ts[0].TextToken?)
    ensures Canonical(ns, ts != []) <==> CanonicalTokens(Flatten(ns) + ts)
    decreases ns
  {
    if ns == [] {
      assert Flatten(ns) + ts == ts;
    } else {
      var n, rest := ns[0], Flatten(ns[1..]) + ts;
      var all := Flatten(ns) + ts;
      CanonicalFlattens(ns[1..], ts);
      assert all == FlattenNode(n) + rest;
      if |ns| > 1 {
        FlattenStarts(ns[1..]);
        assert rest[0] == Flatten(ns[1..])[0];
      } else {
        assert rest == ts;
      }
      match n
      case Text(text) => assert all[1..] == rest;
      case Name(path) => assert all[1..] == rest;
      case Block(kind, path, body) =>
        assert n in ns;
        CanonicalBlock(n, rest);
    }
  }

  lemma {:induction false} CanonicalBlock(n: Node, rest: seq<Token>)
    requires n.Block? && IsBlockKind(n.kind) && KnownKinds(n.body)
    ensures CanonicalTokens(FlattenNode(n) + rest) <==> CanonicalNode(n) && CanonicalTokens(rest)
    decreases n, 0
  {
    var close := [CloseToken(n.kind)] + rest;
    assert close[1..] == rest;
    var all := FlattenNode(n) + rest;
    assert all[1..] == Flatten(n.body) + close;
    if CanonicalTokens(rest) {
      CanonicalFlattens(n.body, close);
    } else if CanonicalTokens(Flatten(n.body) + close) {
      CanonicalSuffix(Flatten(n.body), close);
    }
  }

  lemma {:induction false} CanonicalSuffix(ts: seq<Token>, more: seq<Token>)
    requires CanonicalTokens(ts + more)
    ensures CanonicalTokens(more)
  {
    if ts == [] {
      assert ts + more == more;
    } else {
      assert (ts + more)[1..] == ts[1..] + more;
      CanonicalSuffix(ts[1..], more);
    }
  }

  lemma {:induction false} CanonicalKnown(ns: seq<Node>, followed: bool)
    requires Canonical(ns, followed)
    ensures KnownKinds(ns)
    decreases ns
  {
    if ns != [] {
      CanonicalKnown(ns[1..], followed);
      if ns[0].Block? {
        CanonicalKnown(ns[0].body, true);
      }
      assert forall n <- ns :: n == ns[0] || n in ns[1..];
    }
  }

  // -------------------------------------------------------------- main results

  /** Every canonical tree is read back from its printed form. */
  lemma {:induction false} ParsePrint(ns: seq<Node>)
    requires Canonical(ns, false)
    ensures Parse(Print(ns)) == Tree(ns)
  {
    CanonicalKnown(ns, false);
    CanonicalFlattens(ns, []);
    assert Flatten(ns) + [] == Flatten(ns);
    TokensOfPrint(Flatten(ns));
    ParseAcceptsExactlyTrees(Print(ns), ns);
  }

  /** Whatever the parser accepts is canonical, so printing it and parsing again is lossless. */
  lemma {:induction false} ParsedIsCanonical(body: string)
    requires Parse(body).Tree?
    ensures var ns := Parse(body).nodes;
      Canonical(ns, false) && Parse(Print(ns)) == Parse(body)
  {
    var ns := Parse(body).nodes;
    ParseAcceptsExactlyTrees(body, ns);
    FlattenTree(ns);
    TokensCanonical(body);
    assert Flatten(ns) + [] == Flatten(ns);
    CanonicalFlattens(ns, []);
    ParsePrint(ns);
  }

  /** Canonical trees are exactly the range of the parser. */
  lemma {:induction false} CanonicalIsTheRange(ns: seq<Node>)
    ensures Canonical(ns, false) <==> exists body :: Parse(body) == Tree(ns)
  {
    if Canonical(ns, false) {
      ParsePrint(ns);
    }
    forall body | Parse(body) == Tree(ns) ensures Canonical(ns, false) {
      ParsedIsCanonical(body);
    }
  }

  /** The padding matters exactly for the names that end in a brace. */
  lemma {:induction false} UnpaddedNameReadsBack(name: string)
    requires CanonicalNode(Name(name))
    ensures Parse(Print([Name(name)])) == Tree([Name(name)])
    ensures Parse(Braced(name)) == Tree([Name(name)]) <==> name == "" || name[|name| - 1] != '}'
  {
    ParsePrint([Name(name)]);
    UnpaddedIsItsTokens(name);
    if name != "" && name[|name| - 1] == '}' {
      BraceAtTheEnd(name);
    } else {
      UnpaddedTokens(name);
    }
  }

  lemma {:induction false} UnpaddedIsItsTokens(name: string)
    ensures Parse(Braced(name)) == Tree([Name(name)]) <==> Tokens(Braced(name)) == [NameToken(name)]
  {
    FlattenOne(Name(name));
    ParseAcceptsExactlyTrees(Braced(name), [Name(name)]);
    assert KnownKinds([Name(name)]);
  }

  lemma {:induction false} UnpaddedTokens(name: string)
    requires CanonicalNode(Name(name)) && (name == "" || name[|name| - 1] != '}')
    ensures Tokens(Braced(name)) == [NameToken(name)]
  {
    NoPairGrows(name);
    StripTrimmed(name);
    TokensAt("", name, "");
    NothingBefore(Braced(name), [NameToken(name)]);
    assert Braced(name) + "" == Braced(name);
  }

  lemma {:induction false} BraceAtTheEnd(name: string)
    requires NoPair(name, '}') && name != "" && name[|name| - 1] == '}'
    ensures |Tokens(Braced(name))| == 2
  {
    var short := name[..|name| - 1];
    assert name == short + "}";
    BracesShift(short);
    LoneBrace();
    TokensAt("", short, "}");
    assert |TextTokens("") + ([ReadTag(short)] + Tokens("}"))| == 2;
  }

  lemma {:induction false} BracesShift(short: string)
    ensures Braced(short + "}") == "" + (Braced(short) + "}")
  {
    var braces: string := "}}";
    assert (short + "}") + braces == (short + braces) + "}";
  }

  lemma {:induction false} LoneBrace()
    ensures |Tokens("}")| == 1
  {
    assert Split("}").NoTag?;
  }

  lemma {:induction false} NoPairGrows(s: string)
    requires NoPair(s, '}') && (s == "" || s[|s| - 1] != '}')
    ensures NoPair(s + "}", '}')
  {
    forall i | 0 <= i < |s| ensures !((s + "}")[i] == '}' && (s + "}")[i + 1] == '}') {
      assert (s + "}")[i] == s[i];
    }
  }
}

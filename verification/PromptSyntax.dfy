/**
 The template language of prompts: text, `{{name}}`, `{{#if name}}`, `{{#each name}}`.

 A body is cut into tokens by "the first `{{`, then the first `}}` behind it", and the
 tokens are folded into a tree by a stack of open blocks.
 */
module PromptSyntax {

  datatype Node =
    | Text(text: string)
    | Name(path: string)
    | Block(kind: string, path: string, body: seq<Node>)

  datatype Token =
    | TextToken(text: string)
    | NameToken(path: string)
    | OpenToken(kind: string, path: string)
    | CloseToken(kind: string)
    | UnknownToken(tag: string)

  datatype ParseError =
    | UnsupportedBlock(tag: string)
    | UnbalancedClose(kind: string)
    | Unclosed(kind: string)

  datatype Parsed = Tree(nodes: seq<Node>) | Refused(error: ParseError)

  /** One open block: its kind and path, and the children read so far. */
  datatype Frame = Frame(kind: string, path: string, children: seq<Node>)

  const IF := "if"
  const EACH := "each"

  predicate IsBlockKind(kind: string) {
    kind == IF || kind == EACH
  }

  // ---------------------------------------------------------------- characters

  /** The characters `str.strip` removes and `\s` matches. */
  predicate IsSpace(c: char) {
    var n := c as int;
    || 0x09 <= n <= 0x0D || 0x1C <= n <= 0x20 || n == 0x85 || n == 0xA0 || n == 0x1680
    || 0x2000 <= n <= 0x200A || n == 0x2028 || n == 0x2029 || n == 0x202F || n == 0x205F || n == 0x3000
  }

  predicate Trimmed(s: string) {
    s == "" || (!IsSpace(s[0]) && !IsSpace(s[|s| - 1]))
  }

  function StripLeft(s: string): (r: string)
    ensures |r| <= |s| && r == s[|s| - |r|..]
    ensures r == "" || !IsSpace(r[0])
    ensures s != "" && !IsSpace(s[0]) ==> r == s
  {
    if s == "" || !IsSpace(s[0]) then s else StripLeft(s[1..])
  }

  function StripRight(s: string): (r: string)
    ensures r <= s
    ensures r == "" || !IsSpace(r[|r| - 1])
    ensures s != "" && !IsSpace(s[|s| - 1]) ==> r == s
  {
    if s == "" || !IsSpace(s[|s| - 1]) then s else StripRight(s[..|s| - 1])
  }

  function Strip(s: string): string {
    StripRight(StripLeft(s))
  }

  /** `s.partition(c)`: what precedes the first *c*, and what follows it. */
  function Partition(s: string, c: char): (r: (string, string))
    ensures c !in r.0
    ensures c in s ==> s == r.0 + [c] + r.1
    ensures c !in s ==> r == (s, "")
  {
    if s == "" then ("", "")
    else if s[0] == c then ("", s[1..])
    else
      var rest := Partition(s[1..], c);
      assert s == [s[0]] + s[1..];
      ([s[0]] + rest.0, rest.1)
  }

  /** No two adjacent occurrences of *c*. */
  ghost predicate NoPair(s: string, c: char) {
    forall i {:trigger s[i]} :: 0 <= i < |s| - 1 ==> !(s[i] == c && s[i + 1] == c)
  }

  /** The index of the first adjacent pair of *c*, or -1. */
  function FindPair(s: string, c: char, from: nat := 0): (r: int)
    requires from <= |s|
    requires forall i :: 0 <= i < from && i + 1 < |s| ==> !(s[i] == c && s[i + 1] == c)
    ensures r < 0 ==> NoPair(s, c)
    ensures 0 <= r ==> r + 1 < |s| && s[r] == c && s[r + 1] == c && NoPair(s[..r + 1], c)
    decreases |s| - from
  {
    if |s| <= from + 1 then -1
    else if s[from] == c && s[from + 1] == c then from
    else FindPair(s, c, from + 1)
  }

  lemma {:induction false} CutAtPair(s: string, c: char, i: nat)
    requires i + 1 < |s| && s[i] == c && s[i + 1] == c
    ensures s == s[..i] + [c, c] + s[i + 2..]
  {
    assert s[i..] == [c, c] + s[i + 2..];
    assert s == s[..i] + s[i..];
  }

  // -------------------------------------------------------------------- tokens

  datatype Cut = NoTag | Tag(text: string, content: string, rest: string)

  /** Cut *s* at its first complete tag. */
  function Split(s: string): (r: Cut)
    ensures r.Tag? ==> |r.rest| < |s|
  {
    var open := FindPair(s, '{');
    if open < 0 then NoTag
    else
      var tail := s[open + 2..];
      var close := FindPair(tail, '}');
      if close < 0 then NoTag
      else Tag(s[..open], tail[..close], tail[close + 2..])
  }

  /** What a stripped tag means. */
  function Classify(tag: string): Token {
    if tag != "" && tag[0] == '#' then
      var (kind, path) := Partition(tag[1..], ' ');
      if !IsBlockKind(kind) || Strip(path) == "" then UnknownToken(tag)
      else OpenToken(kind, Strip(path))
    else if tag != "" && tag[0] == '/' then CloseToken(tag[1..])
    else NameToken(tag)
  }

  function ReadTag(content: string): Token {
    Classify(Strip(content))
  }

  function TextTokens(text: string): seq<Token> {
    if text == "" then [] else [TextToken(text)]
  }

  function Tokens(s: string): seq<Token>
    decreases |s|
  {
    match Split(s)
    case NoTag => TextTokens(s)
    case Tag(text, content, rest) => TextTokens(text) + ([ReadTag(content)] + Tokens(rest))
  }

  // --------------------------------------------------------------------- trees

  datatype Fed = Now(stack: seq<Frame>) | Refuse(error: ParseError)

  /** What one token does to the stack of open blocks. */
  function Feed(stack: seq<Frame>, t: Token): (r: Fed)
    requires stack != []
    ensures r.Now? ==> r.stack != []
    ensures r.Refuse? ==> !r.error.Unclosed?
  {
    match t
    case TextToken(text) => Now(Append(stack, Text(text)))
    case NameToken(path) => Now(Append(stack, Name(path)))
    case OpenToken(kind, path) => Now(stack + [Frame(kind, path, [])])
    case UnknownToken(tag) => Refuse(UnsupportedBlock(tag))
    case CloseToken(kind) =>
      if |stack| == 1 || stack[|stack| - 1].kind != kind then Refuse(UnbalancedClose(kind))
      else Now(CloseTop(stack))
  }

  function Build(ts: seq<Token>, stack: seq<Frame>): Parsed
    requires stack != []
    decreases |ts|
  {
    if ts == [] then Finish(stack)
    else
      match Feed(stack, ts[0])
      case Now(next) => Build(ts[1..], next)
      case Refuse(error) => Refused(error)
  }

  function Finish(stack: seq<Frame>): Parsed
    requires stack != []
  {
    if |stack| == 1 then Tree(stack[0].children) else Refused(Unclosed(stack[|stack| - 1].kind))
  }

  function Append(stack: seq<Frame>, node: Node): (r: seq<Frame>)
    requires stack != []
    ensures |r| == |stack|
  {
    var top := stack[|stack| - 1];
    stack[..|stack| - 1] + [top.(children := top.children + [node])]
  }

  function CloseTop(stack: seq<Frame>): (r: seq<Frame>)
    requires |stack| > 1
    ensures |r| == |stack| - 1
  {
    var top := stack[|stack| - 1];
    Append(stack[..|stack| - 1], Block(top.kind, top.path, top.children))
  }

  const Root := Frame("", "", [])

  function Parse(body: string): Parsed {
    Build(Tokens(body), [Root])
  }

  // ------------------------------------------------------------------ printing

  function Flatten(ns: seq<Node>): seq<Token> {
    if ns == [] then [] else FlattenNode(ns[0]) + Flatten(ns[1..])
  }

  function FlattenNode(n: Node): seq<Token> {
    match n
    case Text(text) => [TextToken(text)]
    case Name(path) => [NameToken(path)]
    case Block(kind, path, body) => [OpenToken(kind, path)] + Flatten(body) + [CloseToken(kind)]
  }

  /** What stands between a tag's braces, before padding. */
  function TagSource(t: Token): string
    requires !t.TextToken?
  {
    match t
    case NameToken(path) => path
    case OpenToken(kind, path) => "#" + (kind + " " + path)
    case CloseToken(kind) => "/" + kind
    case UnknownToken(tag) => tag
  }

  function Pad(s: string): string {
    " " + s + " "
  }

  function Braced(content: string): string {
    "{{" + (content + "}}")
  }

  /** A tag is printed padded with one space on both sides. */
  function PrintToken(t: Token): string {
    if t.TextToken? then t.text else Braced(Pad(TagSource(t)))
  }

  function PrintTokens(ts: seq<Token>): string {
    if ts == [] then "" else PrintToken(ts[0]) + PrintTokens(ts[1..])
  }

  function Print(ns: seq<Node>): string {
    PrintTokens(Flatten(ns))
  }

  // ----------------------------------------------------------------- canonical

  /** A path a tag can carry: stripped, and without the closing pair. */
  ghost predicate PlainPath(path: string) {
    Trimmed(path) && NoPair(path, '}')
  }

  ghost predicate CanonicalNode(n: Node) {
    match n
    case Text(text) => text != ""
    case Name(path) => PlainPath(path) && (path == "" || (path[0] != '#' && path[0] != '/'))
    case Block(kind, path, body) =>
      IsBlockKind(kind) && path != "" && PlainPath(path) && Canonical(body, true)
  }

  /**
   The trees the parser produces: texts are maximal and free of tags, paths are plain,
   blocks are of the two kinds.  *followed* says whether a tag comes right behind.
   */
  ghost predicate Canonical(ns: seq<Node>, followed: bool) {
    ns == [] || (
      && CanonicalNode(ns[0])
      && Canonical(ns[1..], followed)
      && (ns[0].Text? && |ns| > 1 ==> !ns[1].Text?)
      && (ns[0].Text? ==>
        if |ns| > 1 || followed then NoPair(ns[0].text + "{", '{') else Split(ns[0].text).NoTag?)
    )
  }

  /** Every block of the tree is an if or an each. */
  ghost predicate KnownKinds(ns: seq<Node>) {
    forall n <- ns :: n.Block? ==> IsBlockKind(n.kind) && KnownKinds(n.body)
  }
}

/** The scanner of native references: displayed text decoded once, each character with its raw span. */
module ReferenceScanner {
  import opened Options
  import opened OutboundGating
  import opened OutboundRedaction

  /** A displayed character and the raw slice it stands for. */
  datatype Shown = Shown(c: char, lo: nat, hi: nat)

  // --------------------------------------------------------------------- escapes

  predicate IsDigit(c: char) { '0' <= c <= '9' }

  predicate IsHex(c: char) { IsDigit(c) || 'a' <= c <= 'f' || 'A' <= c <= 'F' }

  predicate IsAlpha(c: char) { 'a' <= c <= 'z' || 'A' <= c <= 'Z' }

  predicate IsAlnum(c: char) { IsAlpha(c) || IsDigit(c) }

  /** The ASCII punctuation a backslash escapes (CommonMark 0.31.2, section 2.4). */
  predicate IsPunctuation(c: char) {
    '!' <= c <= '/' || ':' <= c <= '@' || '[' <= c <= '`' || '{' <= c <= '~'
  }

  /** The end of the longest run of a class of characters. */
  function RunEnd(s: string, i: nat, inClass: char -> bool): (r: nat)
    requires i <= |s|
    ensures i <= r <= |s| && (forall k :: i <= k < r ==> inClass(s[k])) && (r < |s| ==> !inClass(s[r]))
    decreases |s| - i
  {
    if i < |s| && inClass(s[i]) then RunEnd(s, i + 1, inClass) else i
  }

  /** A run of at least *least* characters, then a semicolon: the end past it, or nothing. */
  function Terminated(s: string, i: nat, least: nat, inClass: char -> bool): (r: Option<nat>)
    requires i <= |s|
    ensures r.Some? ==> i < r.value <= |s|
  {
    var end := RunEnd(s, i, inClass);
    if end - i >= least && end < |s| && s[end] == ';' then Some(end + 1) else None
  }

  /** The end of the character reference that starts here (CommonMark 0.31.2, section 2.5). */
  function ReferenceEnd(s: string, i: nat): (r: Option<nat>)
    requires i < |s| && s[i] == '&'
    ensures r.Some? ==> i + 1 < r.value <= |s|
  {
    if i + 1 >= |s| then None
    else if s[i + 1] == '#' then
      if i + 2 < |s| && (s[i + 2] == 'x' || s[i + 2] == 'X') then Terminated(s, i + 3, 1, IsHex)
      else Terminated(s, i + 2, 1, IsDigit)
    else if IsAlpha(s[i + 1]) then Terminated(s, i + 2, 1, IsAlnum)
    else None
  }

  /** The end of the escape that starts here. */
  function EscapeEnd(s: string, i: nat): (r: Option<nat>)
    requires i < |s|
    ensures r.Some? ==> i + 1 < r.value <= |s|
  {
    if s[i] == '\\' then if i + 1 < |s| && IsPunctuation(s[i + 1]) then Some(i + 2) else None
    else if s[i] == '&' then ReferenceEnd(s, i)
    else None
  }

  /** What an escape stands for: the escaped mark, or whatever the character reference names. */
  function Meaning(s: string, i: nat, end: nat, unescape: string -> string): string
    requires i + 1 < end <= |s|
  {
    if s[i] == '\\' then [s[i + 1]] else unescape(s[i..end])
  }

  function Spread(text: string, lo: nat, hi: nat): seq<Shown> {
    seq(|text|, k requires 0 <= k < |text| => Shown(text[k], lo, hi))
  }

  /** The displayed text from here on. */
  function Decoded(s: string, i: nat, unescape: string -> string): seq<Shown>
    requires i <= |s|
    decreases |s| - i
  {
    if i == |s| then []
    else
      match EscapeEnd(s, i)
      case Some(end) => Spread(Meaning(s, i, end, unescape), i, end) + Decoded(s, end, unescape)
      case None => [Shown(s[i], i, i + 1)] + Decoded(s, i + 1, unescape)
  }

  /** A stretch of raw text, each character standing for itself. */
  function Raw(s: string, from: nat, upTo: nat): seq<Shown>
    requires from <= upTo <= |s|
  {
    seq(upTo - from, k requires 0 <= k < upTo - from => Shown(s[from + k], from + k, from + k + 1))
  }

  function Zip(text: string, spans: seq<(nat, nat)>): seq<Shown>
    requires |text| == |spans|
  {
    seq(|text|, k requires 0 <= k < |text| => Shown(text[k], spans[k].0, spans[k].1))
  }

  function Singles(from: nat, upTo: nat): seq<(nat, nat)>
    requires from <= upTo
  {
    seq(upTo - from, k requires 0 <= k < upTo - from => (from + k, from + k + 1))
  }

  function Whole(n: nat, lo: nat, hi: nat): seq<(nat, nat)> {
    seq(n, k => (lo, hi))
  }

  lemma ZipAppends(a: string, b: string, x: seq<(nat, nat)>, y: seq<(nat, nat)>)
    requires |a| == |x| && |b| == |y|
    ensures Zip(a + b, x + y) == Zip(a, x) + Zip(b, y)
  {
  }

  /** The text so far, the raw text not yet copied and what is still to come are the whole. */
  ghost predicate Reads(content: string, unescape: string -> string, text: string, spans: seq<(nat, nat)>,
      cursor: nat, i: nat) {
    && cursor <= i <= |content| && |spans| == |text|
    && Zip(text, spans) + Raw(content, cursor, i) + Decoded(content, i, unescape) == Decoded(content, 0, unescape)
  }

  lemma ChunkAppends(text: string, chunk: string, spans: seq<(nat, nat)>, marks: seq<(nat, nat)>, shown: seq<Shown>)
    requires |text| == |spans| && |chunk| == |marks| && Zip(chunk, marks) == shown
    ensures Zip(text + chunk, spans + marks) == Zip(text, spans) + shown
  {
    ZipAppends(text, chunk, spans, marks);
  }

  lemma Regrouped<T>(a: seq<T>, b: seq<T>, c: seq<T>, d: seq<T>, whole: seq<T>)
    requires a + b + (c + d) == whole
    ensures a + b + c + [] + d == whole
  {
  }

  lemma OneMore<T>(a: seq<T>, b: seq<T>, x: T, d: seq<T>)
    ensures a + b + ([x] + d) == a + (b + [x]) + d
  {
  }

  lemma EscapeReads(content: string, unescape: string -> string, text: string, spans: seq<(nat, nat)>,
      cursor: nat, i: nat, end: nat)
    requires i < |content| && Reads(content, unescape, text, spans, cursor, i) && EscapeEnd(content, i) == Some(end)
    ensures var meaning := Meaning(content, i, end, unescape);
      Reads(content, unescape, text + content[cursor..i] + meaning,
        spans + Singles(cursor, i) + Whole(|meaning|, i, end), end, end)
  {
    var meaning := Meaning(content, i, end, unescape);
    var before, shown := Zip(text, spans), Spread(meaning, i, end);
    assert Zip(content[cursor..i], Singles(cursor, i)) == Raw(content, cursor, i);
    ChunkAppends(text, content[cursor..i], spans, Singles(cursor, i), Raw(content, cursor, i));
    assert Zip(meaning, Whole(|meaning|, i, end)) == shown;
    ChunkAppends(text + content[cursor..i], meaning, spans + Singles(cursor, i), Whole(|meaning|, i, end), shown);
    Regrouped(before, Raw(content, cursor, i), shown, Decoded(content, end, unescape), Decoded(content, 0, unescape));
    assert Raw(content, end, end) == [];
  }

  lemma PlainReads(content: string, unescape: string -> string, text: string, spans: seq<(nat, nat)>,
      cursor: nat, i: nat)
    requires i < |content| && Reads(content, unescape, text, spans, cursor, i) && EscapeEnd(content, i) == None
    ensures Reads(content, unescape, text, spans, cursor, i + 1)
  {
    assert Raw(content, cursor, i + 1) == Raw(content, cursor, i) + [Shown(content[i], i, i + 1)];
    OneMore(Zip(text, spans), Raw(content, cursor, i), Shown(content[i], i, i + 1), Decoded(content, i + 1, unescape));
  }

  lemma AllIsRead(content: string, unescape: string -> string, text: string, spans: seq<(nat, nat)>, cursor: nat)
    requires Reads(content, unescape, text, spans, cursor, |content|)
    ensures Zip(text + content[cursor..], spans + Singles(cursor, |content|)) == Decoded(content, 0, unescape)
  {
    TailIsRaw(content, cursor);
    ChunkAppends(text, content[cursor..], spans, Singles(cursor, |content|), Raw(content, cursor, |content|));
    assert Decoded(content, |content|, unescape) == [];
  }

  lemma TailIsRaw(content: string, cursor: nat)
    requires cursor <= |content|
    ensures Zip(content[cursor..], Singles(cursor, |content|)) == Raw(content, cursor, |content|)
  {
  }

  lemma NothingIsRead(content: string, unescape: string -> string)
    ensures Reads(content, unescape, "", [], 0, 0)
  {
    assert Zip("", []) + Raw(content, 0, 0) == [];
  }

  /** What lies before an escape is copied, and then the escape's own meaning. */
  method ReadEscape(content: string, unescape: string -> string, text: string, spans: seq<(nat, nat)>,
      cursor: nat, i: nat, end: nat) returns (longer: string, marks: seq<(nat, nat)>)
    requires i < |content| && Reads(content, unescape, text, spans, cursor, i) && EscapeEnd(content, i) == Some(end)
    ensures Reads(content, unescape, longer, marks, end, end)
  {
    EscapeReads(content, unescape, text, spans, cursor, i, end);
    var meaning := Meaning(content, i, end, unescape);
    longer := text + content[cursor..i] + meaning;
    marks := spans + Singles(cursor, i) + Whole(|meaning|, i, end);
  }

  /** One pass over the escapes, copying what lies between them. */
  method ReferenceText(content: string, unescape: string -> string) returns (text: string, spans: seq<(nat, nat)>)
    ensures |spans| == |text| && Zip(text, spans) == Decoded(content, 0, unescape)
  {
    text, spans := "", [];
    var cursor: nat, i: nat := 0, 0;
    NothingIsRead(content, unescape);
    while i < |content|
      invariant Reads(content, unescape, text, spans, cursor, i)
    {
      var escape := EscapeEnd(content, i);
      if escape.Some? {
        text, spans := ReadEscape(content, unescape, text, spans, cursor, i, escape.value);
        cursor, i := escape.value, escape.value;
      } else {
        PlainReads(content, unescape, text, spans, cursor, i);
        i := i + 1;
      }
    }
    AllIsRead(content, unescape, text, spans, cursor);
    text, spans := text + content[cursor..], spans + Singles(cursor, |content|);
  }

  // ------------------------------------------------------------------- soundness

  /** A span is a raw character that shows as itself, or one whole escape. */
  predicate SpanOk(s: string, x: Shown) {
    && x.lo < x.hi <= |s|
    && (EscapeEnd(s, x.lo) == Some(x.hi) || (EscapeEnd(s, x.lo) == None && x.hi == x.lo + 1 && x.c == s[x.lo]))
  }

  /** Later characters stand for later raw text, or for the same escape. */
  predicate InOrder(x: Shown, y: Shown) {
    x.hi <= y.lo || (x.lo == y.lo && x.hi == y.hi)
  }

  /** Spans are in bounds, non-empty and whole, and follow the raw text. */
  predicate SoundFrom(s: string, i: nat, d: seq<Shown>) {
    && (forall k :: 0 <= k < |d| ==> i <= d[k].lo && SpanOk(s, d[k]))
    && (forall j, k :: 0 <= j < k < |d| ==> InOrder(d[j], d[k]))
  }

  lemma SoundJoined(s: string, i: nat, mid: nat, head: seq<Shown>, rest: seq<Shown>)
    requires SoundFrom(s, i, head) && SoundFrom(s, mid, rest) && i <= mid
    requires forall k :: 0 <= k < |head| ==> head[k].hi <= mid
    ensures SoundFrom(s, i, head + rest)
  {
    var d := head + rest;
    forall k | 0 <= k < |d| ensures i <= d[k].lo && SpanOk(s, d[k]) {
      assert d[k] == if k < |head| then head[k] else rest[k - |head|];
    }
    forall j, k | 0 <= j < k < |d| ensures InOrder(d[j], d[k]) {
      assert d[j] == if j < |head| then head[j] else rest[j - |head|];
      assert d[k] == if k < |head| then head[k] else rest[k - |head|];
    }
  }

  lemma {:induction false} SpansAreSound(s: string, i: nat, unescape: string -> string)
    requires i <= |s|
    ensures SoundFrom(s, i, Decoded(s, i, unescape))
    decreases |s| - i
  {
    if i < |s| {
      match EscapeEnd(s, i)
      case Some(end) =>
        SpansAreSound(s, end, unescape);
        SoundJoined(s, i, end, Spread(Meaning(s, i, end, unescape), i, end), Decoded(s, end, unescape));
      case None =>
        SpansAreSound(s, i + 1, unescape);
        SoundJoined(s, i, i + 1, [Shown(s[i], i, i + 1)], Decoded(s, i + 1, unescape));
    }
  }

  /** No raw character outside an escape is lost or moved: where there is no escape, the text is itself. */
  lemma {:induction false} PlainTextIsItself(s: string, i: nat, unescape: string -> string)
    requires i <= |s| && forall k :: i <= k < |s| ==> EscapeEnd(s, k) == None
    ensures Decoded(s, i, unescape) == Raw(s, i, |s|)
    decreases |s| - i
  {
    if i < |s| {
      PlainTextIsItself(s, i + 1, unescape);
      assert Raw(s, i, |s|) == [Shown(s[i], i, i + 1)] + Raw(s, i + 1, |s|);
    }
  }

  // ------------------------------------------------------------------------ tokens

  predicate IsSpace(c: char) {
    c == ' ' || '\t' <= c <= '\r'
  }

  /** A character a URL token runs through. */
  predicate InToken(c: char) {
    !IsSpace(c) && c != '<' && c != '>' && c != '(' && c != ')' && c != '"' && c != '\'' && c != '`'
  }

  function Lower(c: char): char {
    if 'A' <= c <= 'Z' then c + ('a' - 'A') else c
  }

  predicate StartsWith(s: string, i: nat, prefix: string) {
    i + |prefix| <= |s| && forall k :: 0 <= k < |prefix| ==> Lower(s[i + k]) == prefix[k]
  }

  /** Two slashes and at least one more character of a token. */
  function AddressEnd(s: string, i: nat): (r: Option<nat>)
    requires i <= |s|
    ensures r.Some? ==> i + 2 < r.value <= |s|
  {
    if StartsWith(s, i, "//") && RunEnd(s, i + 2, InToken) > i + 2 then Some(RunEnd(s, i + 2, InToken)) else None
  }

  /** The end of the URL token that starts here: a scheme if there is one, then an address. */
  function TokenEnd(s: string, i: nat): (r: Option<nat>)
    requires i <= |s|
    ensures r.Some? ==> i + 2 < r.value <= |s|
  {
    if StartsWith(s, i, "https:") && AddressEnd(s, i + 6).Some? then AddressEnd(s, i + 6)
    else if StartsWith(s, i, "http:") && AddressEnd(s, i + 5).Some? then AddressEnd(s, i + 5)
    else AddressEnd(s, i)
  }

  predicate IsTrailing(c: char) {
    c == '.' || c == ',' || c == ';' || c == ':' || c == '!' || c == '?'
  }

  /** The end of a token without its trailing punctuation. */
  function Trimmed(s: string, i: nat, end: nat): (r: nat)
    requires i <= end <= |s|
    ensures i <= r <= end && (forall k :: r <= k < end ==> IsTrailing(s[k])) && (i < r ==> !IsTrailing(s[r - 1]))
  {
    if i < end && IsTrailing(s[end - 1]) then Trimmed(s, i, end - 1) else end
  }

  /** An address keeps its slashes whatever is trimmed. */
  lemma TrimmedKeepsASlash(s: string, i: nat)
    requires i <= |s| && TokenEnd(s, i).Some?
    ensures i < Trimmed(s, i, TokenEnd(s, i).value)
  {
    var at := if StartsWith(s, i, "https:") && AddressEnd(s, i + 6).Some? then i + 6
              else if StartsWith(s, i, "http:") && AddressEnd(s, i + 5).Some? then i + 5
              else i;
    assert StartsWith(s, at, "//") && "//"[0] == '/';
    assert Lower(s[at]) == '/';
    assert !IsTrailing(s[at]);
  }

  /** The verdict of the native parser and the deployment's private facts on one token. */
  datatype Reading = Malformed | Unlisted | Listed(category: Category)

  function Chars(shown: seq<Shown>): string {
    seq(|shown|, k requires 0 <= k < |shown| => shown[k].c)
  }

  /** The hit a listed token makes: from the first raw character behind it to the last. */
  function HitOf(shown: seq<Shown>, i: nat, end: nat, category: Category): Hit
    requires i < end <= |shown|
  {
    Hit(category, Some(shown[i].lo), Some(shown[end - 1].hi), None)
  }

  /** The hits of the tokens from here on; one that cannot be parsed is no answer at all. */
  function Scanned(shown: seq<Shown>, i: nat, read: string -> Reading): ScanResult
    requires i <= |shown|
    decreases |shown| - i
  {
    var text := Chars(shown);
    if i == |shown| then ScanResult([], None)
    else
      match TokenEnd(text, i)
      case None => Scanned(shown, i + 1, read)
      case Some(end) =>
        TrimmedKeepsASlash(text, i);
        var last := Trimmed(text, i, end);
        var reading := read(text[i..last]);
        if reading == Malformed then ScanResult([], Some(MalformedVerdict))
        else
          Onto(Found(shown, i, last, reading), Scanned(shown, end, read))
  }

  /** Hits found so far, before what the rest comes to. */
  function Onto(hits: seq<Hit>, rest: ScanResult): ScanResult {
    if rest.failure.Some? then rest else ScanResult(hits + rest.hits, None)
  }

  lemma OntoTwice(a: seq<Hit>, b: seq<Hit>, rest: ScanResult)
    ensures Onto(a, Onto(b, rest)) == Onto(a + b, rest)
  {
    assert a + (b + rest.hits) == (a + b) + rest.hits;
  }

  function Found(shown: seq<Shown>, i: nat, last: nat, reading: Reading): seq<Hit>
    requires i < last <= |shown|
  {
    if reading.Listed? then [HitOf(shown, i, last, reading.category)] else []
  }

  /** The scan's loop over the tokens of the displayed text. */
  method Scan(content: string, unescape: string -> string, read: string -> Reading) returns (r: ScanResult)
    ensures r == Scanned(Decoded(content, 0, unescape), 0, read)
  {
    var text, spans := ReferenceText(content, unescape);
    ghost var shown := Decoded(content, 0, unescape);
    ZipsTo(text, spans, shown);
    r := ScanText(text, spans, read, shown);
  }

  lemma ZipsTo(text: string, spans: seq<(nat, nat)>, shown: seq<Shown>)
    requires |text| == |spans| && Zip(text, spans) == shown
    ensures text == Chars(shown) && (forall k :: 0 <= k < |text| ==> spans[k] == (shown[k].lo, shown[k].hi))
  {
  }

  lemma TokenScans(shown: seq<Shown>, i: nat, read: string -> Reading, end: nat)
    requires i < |shown| && TokenEnd(Chars(shown), i) == Some(end)
    ensures i < Trimmed(Chars(shown), i, end)
    ensures var last := Trimmed(Chars(shown), i, end);
      var reading := read(Chars(shown)[i..last]);
      Scanned(shown, i, read) == if reading == Malformed then ScanResult([], Some(MalformedVerdict))
                                 else Onto(Found(shown, i, last, reading), Scanned(shown, end, read))
  {
    TrimmedKeepsASlash(Chars(shown), i);
  }

  lemma FoundIs(hits: seq<Hit>, shown: seq<Shown>, i: nat, last: nat, reading: Reading, span: (nat, nat),
      until: (nat, nat))
    requires i < last <= |shown| && span.0 == shown[i].lo && until.1 == shown[last - 1].hi
    ensures hits + Found(shown, i, last, reading) ==
      if reading.Listed? then hits + [Hit(reading.category, Some(span.0), Some(until.1), None)] else hits
  {
  }

  /** What is found so far and what the rest comes to are the whole scan. */
  ghost predicate ScansOn(shown: seq<Shown>, read: string -> Reading, hits: seq<Hit>, i: nat) {
    i <= |shown| && Scanned(shown, 0, read) == Onto(hits, Scanned(shown, i, read))
  }

  lemma TokenScansOn(shown: seq<Shown>, read: string -> Reading, hits: seq<Hit>, i: nat, end: nat)
    requires i < |shown| && ScansOn(shown, read, hits, i) && TokenEnd(Chars(shown), i) == Some(end)
    ensures i < Trimmed(Chars(shown), i, end)
    ensures var last := Trimmed(Chars(shown), i, end);
      var reading := read(Chars(shown)[i..last]);
      if reading == Malformed then Scanned(shown, 0, read) == ScanResult([], Some(MalformedVerdict))
      else ScansOn(shown, read, hits + Found(shown, i, last, reading), end)
  {
    TokenScans(shown, i, read, end);
    var last := Trimmed(Chars(shown), i, end);
    OntoTwice(hits, Found(shown, i, last, read(Chars(shown)[i..last])), Scanned(shown, end, read));
  }

  /** One turn of the loop: past one character or one token, or no answer for a malformed one. */
  method ReadOn(text: string, spans: seq<(nat, nat)>, hits: seq<Hit>, i: nat, read: string -> Reading,
      ghost shown: seq<Shown>) returns (r: Option<(seq<Hit>, nat)>)
    requires |text| == |spans| == |shown| && text == Chars(shown)
    requires forall k :: 0 <= k < |text| ==> spans[k] == (shown[k].lo, shown[k].hi)
    requires i < |text| && ScansOn(shown, read, hits, i)
    ensures r.None? ==> Scanned(shown, 0, read) == ScanResult([], Some(MalformedVerdict))
    ensures r.Some? ==> i < r.value.1 && ScansOn(shown, read, r.value.0, r.value.1)
  {
    var token := TokenEnd(text, i);
    if token.None? {
      NoTokenScansOn(shown, read, hits, i);
      return Some((hits, i + 1));
    }
    TokenScansOn(shown, read, hits, i, token.value);
    var last := Trimmed(text, i, token.value);
    var reading := read(text[i..last]);
    if reading == Malformed {
      return None;
    }
    FoundIs(hits, shown, i, last, reading, spans[i], spans[last - 1]);
    var found := hits;
    if reading.Listed? {
      found := hits + [Hit(reading.category, Some(spans[i].0), Some(spans[last - 1].1), None)];
    }
    r := Some((found, token.value));
  }

  method ScanText(text: string, spans: seq<(nat, nat)>, read: string -> Reading,
      ghost shown: seq<Shown>) returns (r: ScanResult)
    requires |text| == |spans| == |shown| && text == Chars(shown)
    requires forall k :: 0 <= k < |text| ==> spans[k] == (shown[k].lo, shown[k].hi)
    ensures r == Scanned(shown, 0, read)
  {
    var hits: seq<Hit> := [];
    var i: nat := 0;
    NothingScanned(shown, read);
    while i < |text|
      invariant ScansOn(shown, read, hits, i)
    {
      var next := ReadOn(text, spans, hits, i, read, shown);
      if next.None? {
        return ScanResult([], Some(MalformedVerdict));
      }
      hits, i := next.value.0, next.value.1;
    }
    ScanIsOver(shown, read, hits);
    r := ScanResult(hits, None);
  }

  lemma NothingScanned(shown: seq<Shown>, read: string -> Reading)
    ensures ScansOn(shown, read, [], 0)
  {
    var rest := Scanned(shown, 0, read);
    assert [] + rest.hits == rest.hits;
  }

  lemma ScanIsOver(shown: seq<Shown>, read: string -> Reading, hits: seq<Hit>)
    requires ScansOn(shown, read, hits, |shown|)
    ensures Scanned(shown, 0, read) == ScanResult(hits, None)
  {
    assert hits + [] == hits;
  }

  lemma NoTokenScansOn(shown: seq<Shown>, read: string -> Reading, hits: seq<Hit>, i: nat)
    requires i < |shown| && ScansOn(shown, read, hits, i) && TokenEnd(Chars(shown), i) == None
    ensures ScansOn(shown, read, hits, i + 1)
  {
  }

  /** Where a token from each position would end. */
  function Ends(text: string): (r: seq<Option<nat>>)
    ensures |r| == |text|
    ensures forall i :: 0 <= i < |text| ==> r[i] == TokenEnd(text, i) && (r[i].Some? ==> i < r[i].value <= |text|)
  {
    seq(|text|, i requires 0 <= i < |text| => TokenEnd(text, i))
  }

  /** A token stands here that no earlier one runs into. */
  predicate Begins(ends: seq<Option<nat>>, i: nat) {
    i < |ends| && ends[i].Some? && forall j :: 0 <= j < i && Begins(ends, j) ==> ends[j].value <= i
  }

  /** No token that begins before here runs past here. */
  predicate Between(ends: seq<Option<nat>>, i: nat) {
    i <= |ends| && forall j :: 0 <= j < i && Begins(ends, j) ==> ends[j].value <= i
  }

  /** Where a token stands in the displayed text, and what it reads as once trimmed. */
  predicate TokenAt(shown: seq<Shown>, i: nat, last: nat, reading: Reading, read: string -> Reading) {
    && Begins(Ends(Chars(shown)), i) && i < last <= |shown|
    && last == Trimmed(Chars(shown), i, Ends(Chars(shown))[i].value)
    && read(Chars(shown)[i..last]) == reading
  }

  predicate ListedAt(shown: seq<Shown>, i: nat, last: nat, category: Category, read: string -> Reading) {
    TokenAt(shown, i, last, Listed(category), read)
  }

  lemma BetweenOn(ends: seq<Option<nat>>, i: nat)
    requires Between(ends, i) && i < |ends|
    requires ends[i].Some? ==> i < ends[i].value <= |ends|
    ensures ends[i].Some? <==> Begins(ends, i)
    ensures Between(ends, if ends[i].Some? then ends[i].value else i + 1)
    ensures ends[i].Some? ==> forall j :: i < j < ends[i].value ==> !Begins(ends, j)
  {
    if ends[i].Some? {
      assert Begins(ends, i);
      forall j | 0 <= j < ends[i].value && Begins(ends, j) ensures j <= i {
      }
    }
  }

  /** A hit is that of some listed token. */
  ghost predicate IsListed(shown: seq<Shown>, read: string -> Reading, hit: Hit) {
    exists i, last :: ListedAt(shown, i, last, hit.category, read) && hit == HitOf(shown, i, last, hit.category)
  }

  /** Every hit of a scan is a listed token's. */
  lemma {:induction false} HitsAreListed(shown: seq<Shown>, i: nat, read: string -> Reading, hit: Hit)
    requires Between(Ends(Chars(shown)), i) && hit in Scanned(shown, i, read).hits
    ensures IsListed(shown, read, hit)
    decreases |shown| - i
  {
    if i < |shown| {
      BetweenOn(Ends(Chars(shown)), i);
      match Ends(Chars(shown))[i]
      case None => HitsAreListed(shown, i + 1, read, hit);
      case Some(end) =>
        TokenScans(shown, i, read, end);
        var last := Trimmed(Chars(shown), i, end);
        var found := Found(shown, i, last, read(Chars(shown)[i..last]));
        if hit in found {
          assert ListedAt(shown, i, last, hit.category, read);
        } else {
          assert hit in Scanned(shown, end, read).hits;
          HitsAreListed(shown, end, read, hit);
        }
    }
  }

  /** A token further on is read: a malformed one leaves no answer, a listed one has its hit in any answer. */
  lemma {:induction false} TokenIsRead(
      shown: seq<Shown>, i: nat, read: string -> Reading, at: nat, last: nat, reading: Reading)
    requires Between(Ends(Chars(shown)), i) && i <= at && TokenAt(shown, at, last, reading, read)
    ensures reading == Malformed ==> Scanned(shown, i, read).failure.Some?
    ensures reading.Listed? && Scanned(shown, i, read).failure.None? ==>
      HitOf(shown, at, last, reading.category) in Scanned(shown, i, read).hits
    decreases |shown| - i
  {
    BetweenOn(Ends(Chars(shown)), i);
    match Ends(Chars(shown))[i]
    case None => TokenIsRead(shown, i + 1, read, at, last, reading);
    case Some(end) =>
      TokenScans(shown, i, read, end);
      if i < at {
        TokenIsRead(shown, end, read, at, last, reading);
      }
  }

  /** A scan without an answer has met a malformed token. */
  lemma {:induction false} FailureIsMalformed(shown: seq<Shown>, i: nat, read: string -> Reading)
      returns (at: nat, last: nat)
    requires Between(Ends(Chars(shown)), i) && Scanned(shown, i, read).failure.Some?
    ensures TokenAt(shown, at, last, Malformed, read)
    decreases |shown| - i
  {
    BetweenOn(Ends(Chars(shown)), i);
    match Ends(Chars(shown))[i]
    case None => at, last := FailureIsMalformed(shown, i + 1, read);
    case Some(end) =>
      TokenScans(shown, i, read, end);
      at, last := i, Trimmed(Chars(shown), i, end);
      if read(Chars(shown)[i..last]) != Malformed {
        at, last := FailureIsMalformed(shown, end, read);
      }
  }

  /**
   A scan has no answer exactly when some token is malformed; in any answer the hits are
   those of the listed tokens, none missed and none besides, where the tokens are those no
   earlier one runs into.
   */
  lemma ScanIsExact(shown: seq<Shown>, read: string -> Reading)
    ensures Scanned(shown, 0, read).failure.Some? <==> exists at, last :: TokenAt(shown, at, last, Malformed, read)
    ensures Scanned(shown, 0, read).failure.None? ==>
      forall hit :: hit in Scanned(shown, 0, read).hits <==> IsListed(shown, read, hit)
  {
    if Scanned(shown, 0, read).failure.Some? {
      var at, last := FailureIsMalformed(shown, 0, read);
    } else {
      forall hit | hit in Scanned(shown, 0, read).hits ensures IsListed(shown, read, hit) {
        HitsAreListed(shown, 0, read, hit);
      }
      forall hit | IsListed(shown, read, hit) ensures hit in Scanned(shown, 0, read).hits {
        var at, last :| ListedAt(shown, at, last, hit.category, read) && hit == HitOf(shown, at, last, hit.category);
        TokenIsRead(shown, 0, read, at, last, Listed(hit.category));
      }
    }
    forall at, last | TokenAt(shown, at, last, Malformed, read) ensures Scanned(shown, 0, read).failure.Some? {
      TokenIsRead(shown, 0, read, at, last, Malformed);
    }
  }

  /** All the raw text a displayed character stands for is within a hit, and covered. */
  ghost predicate Behind(hit: Hit, hits: seq<Hit>, x: Shown)
    requires HasSpan(hit)
  {
    hit.start.value <= x.lo < x.hi <= hit.end.value && forall p: nat :: x.lo <= p < x.hi ==> Covered(hits, p)
  }

  lemma HitSpansItsToken(content: string, shown: seq<Shown>, i: nat, last: nat)
    requires SoundFrom(content, 0, shown) && i < last <= |shown|
    ensures shown[i].lo < shown[last - 1].hi <= |content|
    ensures forall k :: i <= k < last ==> shown[i].lo <= shown[k].lo < shown[k].hi <= shown[last - 1].hi
  {
    forall k | i <= k < last ensures shown[i].lo <= shown[k].lo < shown[k].hi <= shown[last - 1].hi {
      assert SpanOk(content, shown[k]) && SpanOk(content, shown[i]) && SpanOk(content, shown[last - 1]);
      assert i < k ==> InOrder(shown[i], shown[k]);
      assert k < last - 1 ==> InOrder(shown[k], shown[last - 1]);
    }
    assert SpanOk(content, shown[last - 1]);
  }

  /**
   A reported hit's raw interval is in bounds and holds the raw text behind every character
   of its token, escapes whole, so that redacting it removes the reference as it was written.
   */
  lemma RedactingAHitRemovesItsReference(content: string, unescape: string -> string, read: string -> Reading,
      hit: Hit, hits: seq<Hit>)
      returns (i: nat, last: nat)
    requires hit in Scanned(Decoded(content, 0, unescape), 0, read).hits && hit in hits
    ensures HasSpan(hit) && hit.end.value <= |content|
    ensures ListedAt(Decoded(content, 0, unescape), i, last, hit.category, read)
    ensures forall k :: i <= k < last ==> Behind(hit, hits, Decoded(content, 0, unescape)[k])
  {
    var shown := Decoded(content, 0, unescape);
    SpansAreSound(content, 0, unescape);
    HitsAreListed(shown, 0, read, hit);
    i, last :| ListedAt(shown, i, last, hit.category, read) && hit == HitOf(shown, i, last, hit.category);
    TokenIsBehind(content, shown, i, last, hit, hits);
  }

  lemma TokenIsBehind(content: string, shown: seq<Shown>, i: nat, last: nat, hit: Hit, hits: seq<Hit>)
    requires SoundFrom(content, 0, shown) && i < last <= |shown|
    requires hit == HitOf(shown, i, last, hit.category) && hit in hits
    ensures HasSpan(hit) && hit.end.value <= |content|
    ensures forall k :: i <= k < last ==> Behind(hit, hits, shown[k])
  {
    HitSpansItsToken(content, shown, i, last);
    var at :| 0 <= at < |hits| && hits[at] == hit;
    forall k | i <= k < last ensures Behind(hit, hits, shown[k]) {
      forall p: nat | shown[k].lo <= p < shown[k].hi ensures Covered(hits, p) {
        assert Covers(hits[at], p);
      }
    }
  }
}

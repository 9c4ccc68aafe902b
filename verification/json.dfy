/**
 JSON texts (RFC 8259) and the round trip: the extractor returns exactly the printed object that a
 log ends with.
*/
module JsonText {
  import opened Verdicts
  import opened Scanner

  /** One unit of a string token, section 7 of RFC 8259. */
  datatype Piece = Plain(c: char) | Escaped(c: char) | Unicode(hex: string)

  predicate HexDigit(c: char) { '0' <= c <= '9' || 'a' <= c <= 'f' || 'A' <= c <= 'F' }

  predicate ValidPiece(p: Piece) {
    match p
    case Plain(c) => c != '"' && c != '\\' && c >= ' '
    case Escaped(c) => c == '"' || c == '\\' || c == '/' || c == 'b' || c == 'f' || c == 'n' || c == 'r' || c == 't'
    case Unicode(hex) => |hex| == 4 && forall i :: 0 <= i < 4 ==> HexDigit(hex[i])
  }

  function PrintPiece(p: Piece): Bytes {
    match p
    case Plain(c) => [c]
    case Escaped(c) => ['\\', c]
    case Unicode(hex) => ['\\', 'u'] + hex
  }

  function PrintPieces(ps: seq<Piece>): Bytes {
    if ps == [] then "" else PrintPiece(ps[0]) + PrintPieces(ps[1..])
  }

  function PrintString(ps: seq<Piece>): Bytes { "\"" + PrintPieces(ps) + "\"" }

  /**
   A JSON text with its layout. `Atom` is a number or one of the three literal names; `Pad` puts
   whitespace around any value.
  */
  datatype Json =
    | Atom(text: Bytes)
    | Str(pieces: seq<Piece>)
    | Arr(items: Items)
    | Obj(members: Members)
    | Pad(before: Bytes, inner: Json, after: Bytes)

  datatype Items = NoItems(gap: Bytes) | Item(value: Json, rest: Items)

  datatype Members = NoMembers(gap: Bytes) | Member(pre: Bytes, key: seq<Piece>, post: Bytes, value: Json, rest: Members)

  predicate IsSpace(s: Bytes) { forall i :: 0 <= i < |s| ==> s[i] == ' ' || s[i] == '\t' || s[i] == '\n' || s[i] == '\r' }

  predicate IsAtom(s: Bytes) {
    s == "true" || s == "false" || s == "null" || (|s| > 0 && forall i :: 0 <= i < |s| ==> NumberChar(s[i]))
  }

  predicate NumberChar(c: char) { '0' <= c <= '9' || c == '-' || c == '+' || c == '.' || c == 'e' || c == 'E' }

  predicate ValidPieces(ps: seq<Piece>) { forall i :: 0 <= i < |ps| ==> ValidPiece(ps[i]) }

  predicate Valid(v: Json) {
    match v
    case Atom(text) => IsAtom(text)
    case Str(pieces) => ValidPieces(pieces)
    case Arr(items) => ValidItems(items)
    case Obj(members) => ValidMembers(members)
    case Pad(before, inner, after) => IsSpace(before) && Valid(inner) && IsSpace(after)
  }

  predicate ValidItems(items: Items) {
    match items
    case NoItems(gap) => IsSpace(gap)
    case Item(value, rest) => Valid(value) && ValidItems(rest)
  }

  predicate ValidMembers(members: Members) {
    match members
    case NoMembers(gap) => IsSpace(gap)
    case Member(pre, key, post, value, rest) =>
      IsSpace(pre) && ValidPieces(key) && IsSpace(post) && Valid(value) && ValidMembers(rest)
  }

  function Print(v: Json): Bytes {
    match v
    case Atom(text) => text
    case Str(pieces) => PrintString(pieces)
    case Arr(items) => "[" + PrintItems(items) + "]"
    case Obj(members) => "{" + PrintMembers(members) + "}"
    case Pad(before, inner, after) => before + Print(inner) + after
  }

  function PrintItems(items: Items): Bytes {
    match items
    case NoItems(gap) => gap
    case Item(value, NoItems(gap)) => Print(value) + gap
    case Item(value, rest) => Print(value) + "," + PrintItems(rest)
  }

  function PrintMembers(members: Members): Bytes {
    match members
    case NoMembers(gap) => gap
    case Member(pre, key, post, value, NoMembers(gap)) => PrintMember(pre, key, post) + Print(value) + gap
    case Member(pre, key, post, value, rest) => PrintMember(pre, key, post) + Print(value) + "," + PrintMembers(rest)
  }

  function PrintMember(pre: Bytes, key: seq<Piece>, post: Bytes): Bytes { pre + PrintString(key) + post + ":" }

  // ---- scanning printed text ----

  /** The depth never falls below d while `s` is read. */
  predicate Above(st: Scan, s: Bytes, d: int)
    decreases |s|
  {
    st.depth >= d && (s == "" || Above(Next(st, s[0]), s[1..], d))
  }

  lemma {:induction false} AboveConcat(st: Scan, s: Bytes, t: Bytes, d: int)
    requires Above(st, s, d) && Above(Run(st, s), t, d)
    ensures Above(st, s + t, d)
    decreases |s|
  {
    if s == "" {
      assert s + t == t;
    } else {
      assert (s + t)[1..] == s[1..] + t;
      AboveConcat(Next(st, s[0]), s[1..], t, d);
    }
  }

  /** Read outside strings at any depth, `s` leaves the scan as it was and never dips below. */
  ghost predicate Neutral(s: Bytes) {
    forall d :: Passes(d, s)
  }

  predicate Passes(d: int, s: Bytes) {
    Run(Scan(d, false, false), s) == Scan(d, false, false) && Above(Scan(d, false, false), s, d)
  }

  lemma NeutralConcat(s: Bytes, t: Bytes)
    requires Neutral(s) && Neutral(t)
    ensures Neutral(s + t)
  {
    forall d ensures Passes(d, s + t) {
      assert Passes(d, s) && Passes(d, t);
      RunConcat(Scan(d, false, false), s, t);
      AboveConcat(Scan(d, false, false), s, t, d);
    }
  }

  predicate Structural(c: char) { c == '{' || c == '}' || c == '"' || c == '\\' }

  lemma {:induction false} PlainPasses(d: int, s: Bytes)
    requires forall i :: 0 <= i < |s| ==> !Structural(s[i])
    ensures Passes(d, s)
    decreases |s|
  {
    if s != "" { PlainPasses(d, s[1..]); }
  }

  lemma PlainNeutral(s: Bytes)
    requires forall i :: 0 <= i < |s| ==> !Structural(s[i])
    ensures Neutral(s)
  {
    forall d ensures Passes(d, s) { PlainPasses(d, s); }
  }

  predicate InString(d: int, s: Bytes) {
    Run(Scan(d, true, false), s) == Scan(d, true, false) && Above(Scan(d, true, false), s, d)
  }

  lemma {:induction false} PlainInString(d: int, s: Bytes)
    requires forall i :: 0 <= i < |s| ==> s[i] != '"' && s[i] != '\\'
    ensures InString(d, s)
    decreases |s|
  {
    if s != "" { PlainInString(d, s[1..]); }
  }

  lemma PieceInString(d: int, p: Piece)
    requires ValidPiece(p)
    ensures InString(d, PrintPiece(p))
  {
    var st := Scan(d, true, false);
    match p
    case Plain(c) => PlainInString(d, [c]);
    case Escaped(c) =>
      assert PrintPiece(p)[1..] == [c];
      assert [c][1..] == "";
    case Unicode(hex) =>
      assert PrintPiece(p)[1..] == ['u'] + hex;
      assert (['u'] + hex)[1..] == hex;
      assert Next(Next(st, '\\'), 'u') == st;
      PlainInString(d, hex);
  }

  lemma {:induction false} PiecesInString(d: int, ps: seq<Piece>)
    requires ValidPieces(ps)
    ensures InString(d, PrintPieces(ps))
  {
    if ps != [] {
      PieceInString(d, ps[0]);
      PiecesInString(d, ps[1..]);
      RunConcat(Scan(d, true, false), PrintPiece(ps[0]), PrintPieces(ps[1..]));
      AboveConcat(Scan(d, true, false), PrintPiece(ps[0]), PrintPieces(ps[1..]), d);
    }
  }

  /** A string token is neutral, whatever braces, quotes and backslashes it spells. */
  lemma StringNeutral(ps: seq<Piece>)
    requires ValidPieces(ps)
    ensures Neutral(PrintString(ps))
  {
    var body := PrintPieces(ps);
    forall d ensures Passes(d, PrintString(ps)) {
      PiecesInString(d, ps);
      var st := Scan(d, true, false);
      assert PrintString(ps) == "\"" + (body + "\"");
      assert ("\"" + (body + "\""))[1..] == body + "\"";
      RunConcat(st, body, "\"");
      assert "\""[1..] == "";
      AboveConcat(st, body, "\"", d);
    }
  }

  /** '{', neutral text, '}' is neutral. */
  lemma BracesNeutral(s: Bytes)
    requires Neutral(s)
    ensures Neutral("{" + s + "}")
  {
    forall d ensures Passes(d, "{" + s + "}") {
      assert Passes(d + 1, s);
      var st := Scan(d + 1, false, false);
      assert "{" + s + "}" == "{" + (s + "}");
      assert ("{" + (s + "}"))[1..] == s + "}";
      RunConcat(st, s, "}");
      assert "}"[1..] == "";
      AboveWeakens(st, s, d + 1, d);
      AboveConcat(st, s, "}", d);
    }
  }

  lemma {:induction false} AboveWeakens(st: Scan, s: Bytes, d: int, e: int)
    requires Above(st, s, d) && e <= d
    ensures Above(st, s, e)
    decreases |s|
  {
    if s != "" { AboveWeakens(Next(st, s[0]), s[1..], d, e); }
  }

  lemma {:induction false} PrintNeutral(v: Json)
    requires Valid(v)
    ensures Neutral(Print(v))
    decreases v
  {
    match v
    case Atom(text) => PlainNeutral(text);
    case Str(pieces) => StringNeutral(pieces);
    case Arr(items) =>
      ItemsNeutral(items);
      PlainNeutral("[");
      PlainNeutral("]");
      NeutralConcat("[", PrintItems(items));
      NeutralConcat("[" + PrintItems(items), "]");
    case Obj(members) =>
      MembersNeutral(members);
      BracesNeutral(PrintMembers(members));
    case Pad(before, inner, after) =>
      PrintNeutral(inner);
      PlainNeutral(before);
      PlainNeutral(after);
      NeutralConcat(before, Print(inner));
      NeutralConcat(before + Print(inner), after);
  }

  lemma {:induction false} ItemsNeutral(items: Items)
    requires ValidItems(items)
    ensures Neutral(PrintItems(items))
    decreases items
  {
    match items
    case NoItems(gap) => PlainNeutral(gap);
    case Item(value, rest) =>
      PrintNeutral(value);
      ItemsNeutral(rest);
      match rest {
        case NoItems(gap) => NeutralConcat(Print(value), gap);
        case Item(_, _) =>
          PlainNeutral(",");
          NeutralConcat(Print(value), ",");
          NeutralConcat(Print(value) + ",", PrintItems(rest));
      }
  }

  lemma MemberNeutral(pre: Bytes, key: seq<Piece>, post: Bytes)
    requires IsSpace(pre) && ValidPieces(key) && IsSpace(post)
    ensures Neutral(PrintMember(pre, key, post))
  {
    PlainNeutral(pre);
    StringNeutral(key);
    PlainNeutral(post);
    PlainNeutral(":");
    NeutralConcat(pre, PrintString(key));
    NeutralConcat(pre + PrintString(key), post);
    NeutralConcat(pre + PrintString(key) + post, ":");
  }

  lemma {:induction false} MembersNeutral(members: Members)
    requires ValidMembers(members)
    ensures Neutral(PrintMembers(members))
    decreases members
  {
    match members
    case NoMembers(gap) => PlainNeutral(gap);
    case Member(pre, key, post, value, rest) =>
      var head := PrintMember(pre, key, post);
      MemberNeutral(pre, key, post);
      PrintNeutral(value);
      MembersNeutral(rest);
      NeutralConcat(head, Print(value));
      match rest {
        case NoMembers(gap) => NeutralConcat(head + Print(value), gap);
        case Member(_, _, _, _, _) =>
          PlainNeutral(",");
          NeutralConcat(head + Print(value), ",");
          NeutralConcat(head + Print(value) + ",", PrintMembers(rest));
      }
  }

  // ---- the scan of a whole log ----

  /** While the depth stays at 1 or more the exit test does not fire. */
  lemma {:induction false} SkipAbove(b: Bytes, j: nat, k: nat, st: Scan)
    requires j <= k <= |b| && Above(st, b[j..k], 1)
    ensures CloseFrom(b, j, st) == CloseFrom(b, k, Run(st, b[j..k]))
    decreases k - j
  {
    if j < k {
      assert b[j..k][1..] == b[j + 1..k];
      assert b[j..k][0] == b[j];
      SkipAbove(b, j + 1, k, Next(st, b[j]));
    }
  }

  lemma SubSlice(b: Bytes, i: nat, e: nat, x: nat, y: nat)
    requires i <= e <= |b| && x <= y <= e - i
    ensures b[i..e][x..y] == b[i + x..i + y]
  {
    var l, r := b[i..e][x..y], b[i + x..i + y];
    forall k | 0 <= k < y - x ensures l[k] == r[k] {
      assert b[i..e][x + k] == b[i + (x + k)];
    }
  }

  lemma ObjectBytes(b: Bytes, i: nat, m: Bytes)
    requires i + |m| + 2 <= |b| && b[i..i + |m| + 2] == "{" + m + "}"
    ensures b[i] == '{' && b[i + 1..i + 1 + |m|] == m && b[i + 1 + |m|] == '}'
  {
    var text := b[i..i + |m| + 2];
    assert b[i] == text[0] && b[i + 1 + |m|] == text[|m| + 1];
    SubSlice(b, i, i + |m| + 2, 1, 1 + |m|);
    assert text[1..1 + |m|] == m;
  }

  lemma Opens(b: Bytes, i: nat)
    requires i < |b| && b[i] == '{'
    ensures CloseFrom(b, i, START) == CloseFrom(b, i + 1, Scan(1, false, false))
  {
  }

  lemma ClosesHere(b: Bytes, k: nat)
    requires k < |b| && b[k] == '}'
    ensures CloseFrom(b, k, Scan(1, false, false)) == Some(k)
  {
  }

  /** Braces around text that keeps the depth: the second one closes the first. */
  lemma BracedCloses(b: Bytes, i: nat, m: Bytes)
    requires i + |m| + 2 <= |b| && b[i..i + |m| + 2] == "{" + m + "}" && Passes(1, m)
    ensures b[i] == '{' && CloseFrom(b, i, START) == Some(i + |m| + 1)
  {
    hide CloseFrom, Run, Above;
    ObjectBytes(b, i, m);
    Opens(b, i);
    SkipAbove(b, i + 1, i + 1 + |m|, Scan(1, false, false));
    ClosesHere(b, i + 1 + |m|);
  }

  /** A printed object is closed by its own last byte. */
  lemma ObjectCloses(b: Bytes, i: nat, members: Members)
    requires ValidMembers(members)
    requires var text := Print(Obj(members)); i + |text| <= |b| && b[i..i + |text|] == text
    ensures b[i] == '{' && CloseFrom(b, i, START) == Some(i + |Print(Obj(members))| - 1)
  {
    hide CloseFrom, Run, Above;
    var m := PrintMembers(members);
    assert Print(Obj(members)) == "{" + m + "}";
    MembersNeutral(members);
    assert Passes(1, m);
    BracedCloses(b, i, m);
  }

  predicate NoBrace(s: Bytes) { forall i :: 0 <= i < |s| ==> s[i] != '{' }

  lemma {:induction false} SkipGap(b: Bytes, i: nat, k: nat)
    requires i <= k <= |b| && NoBrace(b[i..k])
    ensures Objects(b, i) == Objects(b, k)
    decreases k - i
  {
    if i < k {
      assert b[i..k][0] == b[i];
      assert b[i + 1..k] == b[i..k][1..];
      SkipGap(b, i + 1, k);
    }
  }

  /** A log: brace-free text, an object, brace-free text, an object, ..., brace-free text. */
  datatype Segment = Segment(gap: Bytes, members: Members)

  function PrintLog(segs: seq<Segment>, tail: Bytes): Bytes {
    if segs == [] then tail
    else segs[0].gap + Print(Obj(segs[0].members)) + PrintLog(segs[1..], tail)
  }

  predicate ValidLog(segs: seq<Segment>, tail: Bytes) {
    NoBrace(tail) && forall i :: 0 <= i < |segs| ==> NoBrace(segs[i].gap) && ValidMembers(segs[i].members)
  }

  function Spans(segs: seq<Segment>, i: nat): seq<Span> {
    if segs == [] then []
    else
      var s := i + |segs[0].gap|;
      var e := s + |Print(Obj(segs[0].members))|;
      [Span(s, e)] + Spans(segs[1..], e)
  }

  lemma CutLog(b: Bytes, i: nat, gap: Bytes, text: Bytes, rest: Bytes)
    requires i <= |b| && b[i..] == gap + text + rest
    ensures var s := i + |gap|;
            var e := s + |text|;
            e <= |b| && b[i..s] == gap && b[s..e] == text && b[e..] == rest
  {
    var s := i + |gap|;
    var e := s + |text|;
    assert b[i..s] == b[i..][..|gap|];
    assert b[s..e] == b[i..][|gap|..|gap| + |text|];
    assert b[e..] == b[i..][|gap| + |text|..];
  }

  lemma ObjectsStep(b: Bytes, s: nat, e: nat)
    requires s < e <= |b| && b[s] == '{' && CloseFrom(b, s, START) == Some(e - 1)
    ensures Objects(b, s) == [Span(s, e)] + Objects(b, e)
  {
  }

  /** Brace-free text and one object: the scan finds that object and goes on after it. */
  lemma SegmentObject(b: Bytes, i: nat, s: nat, e: nat, members: Members)
    requires i <= s < e <= |b| && NoBrace(b[i..s]) && ValidMembers(members) && b[s..e] == Print(Obj(members))
    ensures Objects(b, i) == [Span(s, e)] + Objects(b, e)
  {
    hide Print, Objects, CloseFrom;
    SkipGap(b, i, s);
    ObjectCloses(b, s, members);
    ObjectsStep(b, s, e);
  }

  lemma TailHasNone(b: Bytes, i: nat)
    requires i <= |b| && NoBrace(b[i..])
    ensures Objects(b, i) == []
  {
    assert b[i..|b|] == b[i..];
    SkipGap(b, i, |b|);
  }

  lemma ValidRest(segs: seq<Segment>, tail: Bytes)
    requires ValidLog(segs, tail) && segs != []
    ensures NoBrace(segs[0].gap) && ValidMembers(segs[0].members) && ValidLog(segs[1..], tail)
  {
    forall k | 0 <= k < |segs| - 1 ensures NoBrace(segs[1..][k].gap) && ValidMembers(segs[1..][k].members) {
      assert segs[1..][k] == segs[k + 1];
    }
  }

  /** Where the first segment's object lies, and what is left after it. */
  lemma FirstSegment(b: Bytes, i: nat, segs: seq<Segment>, tail: Bytes) returns (s: nat, e: nat)
    requires segs != [] && i <= |b| && b[i..] == PrintLog(segs, tail)
    ensures s == i + |segs[0].gap| && e == s + |Print(Obj(segs[0].members))| && s < e <= |b|
    ensures b[i..s] == segs[0].gap && b[s..e] == Print(Obj(segs[0].members)) && b[e..] == PrintLog(segs[1..], tail)
  {
    var gap, text := segs[0].gap, Print(Obj(segs[0].members));
    s := i + |gap|;
    e := s + |text|;
    CutLog(b, i, gap, text, PrintLog(segs[1..], tail));
  }

  /** The scan finds the log's objects, all of them and nothing else. */
  lemma {:induction false} LogObjects(b: Bytes, i: nat, segs: seq<Segment>, tail: Bytes)
    requires ValidLog(segs, tail) && i <= |b| && b[i..] == PrintLog(segs, tail)
    ensures Objects(b, i) == Spans(segs, i)
    decreases |segs|
  {
    if segs == [] {
      TailHasNone(b, i);
    } else {
      hide Print, PrintLog, Objects, CloseFrom;
      var s, e := FirstSegment(b, i, segs, tail);
      ValidRest(segs, tail);
      SegmentObject(b, i, s, e, segs[0].members);
      LogObjects(b, e, segs[1..], tail);
    }
  }

  lemma {:induction false} LastSpan(b: Bytes, i: nat, segs: seq<Segment>, tail: Bytes)
    requires segs != [] && i <= |b| && b[i..] == PrintLog(segs, tail)
    ensures var o := Spans(segs, i);
            && o != [] && o[|o| - 1].start <= o[|o| - 1].end <= |b|
            && b[o[|o| - 1].start..o[|o| - 1].end] == Print(Obj(segs[|segs| - 1].members))
    decreases |segs|
  {
    hide Print, PrintLog;
    var s, e := FirstSegment(b, i, segs, tail);
    if |segs| > 1 { LastSpan(b, e, segs[1..], tail); }
  }

  /**
   The round trip. Whatever JSON objects a log prints between brace-free lines, the extractor
   returns the text of the last one, byte for byte.
  */
  lemma ExtractsTheLastObject(segs: seq<Segment>, tail: Bytes)
    requires ValidLog(segs, tail)
    ensures Extracted(PrintLog(segs, tail)) ==
              if segs == [] then None else Some(Print(Obj(segs[|segs| - 1].members)))
  {
    var b := PrintLog(segs, tail);
    assert b[0..] == b;
    LogObjects(b, 0, segs, tail);
    if segs != [] { LastSpan(b, 0, segs, tail); }
  }

  /** One object with brace-free text on both sides. */
  lemma ExtractsTheObject(prefix: Bytes, members: Members, suffix: Bytes)
    requires NoBrace(prefix) && ValidMembers(members) && NoBrace(suffix)
    ensures Extracted(prefix + Print(Obj(members)) + suffix) == Some(Print(Obj(members)))
  {
    var segs := [Segment(prefix, members)];
    assert segs[1..] == [];
    assert PrintLog(segs, suffix) == prefix + Print(Obj(members)) + suffix;
    ExtractsTheLastObject(segs, suffix);
  }
}

/**
 The canonical encoding of JSON values: object keys sorted, no spaces.  A parser of
 the grammar of RFC 8259 (sections 2 to 7, whitespace and every escape included)
 undoes it.
 */
module CanonicalJson {
  import opened Market
  import opened Hex
  import opened JsonNumber
  import opened Lex
  import opened Sorting

  datatype Field = Field(key: Text, value: Json)

  /**
   A JSON value.  An object is its fields in property order; a finite number is the
   decimal text it prints as.
   */
  datatype Json = Null | Bool(b: bool) | Num(text: Text) | Str(s: Text) | Arr(items: seq<Json>) | Obj(fields: seq<Field>)

  const QUOTE: CodeUnit := '"' as int
  const BACKSLASH: CodeUnit := '\\' as int
  const SLASH: CodeUnit := '/' as int
  const COMMA: CodeUnit := ',' as int
  const COLON: CodeUnit := ':' as int
  const OPEN_ARR: CodeUnit := '[' as int
  const CLOSE_ARR: CodeUnit := ']' as int
  const OPEN_OBJ: CodeUnit := '{' as int
  const CLOSE_OBJ: CodeUnit := '}' as int
  const NULL_TEXT: Text := ['n' as int, 'u' as int, 'l' as int, 'l' as int]
  const TRUE_TEXT: Text := ['t' as int, 'r' as int, 'u' as int, 'e' as int]
  const FALSE_TEXT: Text := ['f' as int, 'a' as int, 'l' as int, 's' as int, 'e' as int]

  predicate DistinctKeys(fs: seq<Field>)
  {
    forall i, j :: 0 <= i < j < |fs| ==> fs[i].key != fs[j].key
  }

  /** Values a program can hold: an object has each key once, and numbers print as numbers. */
  predicate Valid(v: Json)
  {
    match v
    case Num(t) => NumberText(t)
    case Arr(items) => forall i :: 0 <= i < |items| ==> Valid(items[i])
    case Obj(fields) => DistinctKeys(fields) && forall i :: 0 <= i < |fields| ==> Valid(fields[i].value)
    case _ => true
  }

  // ---- Encoding -----------------------------------------------------------------------

  predicate HighSurrogate(c: CodeUnit) { 0xD800 <= c < 0xDC00 }

  predicate LowSurrogate(c: CodeUnit) { 0xDC00 <= c < 0xE000 }

  /** A surrogate without its partner. */
  predicate LoneSurrogate(s: Text, i: nat)
    requires i < |s|
  {
    (HighSurrogate(s[i]) && !(i + 1 < |s| && LowSurrogate(s[i + 1]))) ||
    (LowSurrogate(s[i]) && !(i > 0 && HighSurrogate(s[i - 1])))
  }

  function UnicodeEscape(c: CodeUnit): Text
  {
    [BACKSLASH, 'u' as int] + Padded(Print(c), 4)
  }

  function EscapeAt(s: Text, i: nat): Text
    requires i < |s|
  {
    var c := s[i];
    if c == QUOTE || c == BACKSLASH then [BACKSLASH, c]
    else if c == 8 then [BACKSLASH, 'b' as int]
    else if c == 9 then [BACKSLASH, 't' as int]
    else if c == 10 then [BACKSLASH, 'n' as int]
    else if c == 12 then [BACKSLASH, 'f' as int]
    else if c == 13 then [BACKSLASH, 'r' as int]
    else if c < 0x20 || LoneSurrogate(s, i) then UnicodeEscape(c)
    else [c]
  }

  function EscapeFrom(s: Text, i: nat): Text
    requires i <= |s|
    decreases |s| - i
  {
    if i == |s| then [] else EscapeAt(s, i) + EscapeFrom(s, i + 1)
  }

  function Quoted(s: Text): Text
  {
    [QUOTE] + EscapeFrom(s, 0) + [QUOTE]
  }

  function Join(ts: seq<Text>): Text
  {
    if |ts| == 0 then [] else if |ts| == 1 then ts[0] else ts[0] + [COMMA] + Join(ts[1..])
  }

  datatype Member = Member(key: Text, text: Text)

  predicate MemberLe(a: Member, b: Member) { LexLe(a.key, b.key) }

  predicate FieldLe(a: Field, b: Field) { LexLe(a.key, b.key) }

  function MemberText(m: Member): Text
  {
    Quoted(m.key) + [COLON] + m.text
  }

  function MemberTexts(ms: seq<Member>): seq<Text>
  {
    seq(|ms|, i requires 0 <= i < |ms| => MemberText(ms[i]))
  }

  function Canonical(v: Json): Text
  {
    match v
    case Null => NULL_TEXT
    case Bool(b) => if b then TRUE_TEXT else FALSE_TEXT
    case Num(t) => t
    case Str(s) => Quoted(s)
    case Arr(items) =>
      [OPEN_ARR] + Join(seq(|items|, i requires 0 <= i < |items| => Canonical(items[i]))) + [CLOSE_ARR]
    case Obj(fields) =>
      var ms := seq(|fields|, i requires 0 <= i < |fields| => Member(fields[i].key, Canonical(fields[i].value)));
      [OPEN_OBJ] + Join(MemberTexts(Sort(MemberLe, ms))) + [CLOSE_OBJ]
  }

  // ---- Parsing ---------------------------------------------------------------------------

  datatype Parsed<T> = Parsed(value: T, rest: Text)

  predicate IsSpace(c: CodeUnit) { c == 0x20 || c == 0x09 || c == 0x0A || c == 0x0D }

  function SkipSpace(t: Text): (r: Text)
    ensures |r| <= |t| && (|r| > 0 ==> !IsSpace(r[0]))
  {
    if |t| > 0 && IsSpace(t[0]) then SkipSpace(t[1..]) else t
  }

  predicate StartsWith(t: Text, c: CodeUnit) { |t| > 0 && t[0] == c }

  /** One character of a string, escaped or not; control characters must be. */
  function ReadUnit(t: Text): (r: Option<Parsed<CodeUnit>>)
    ensures r.Some? ==> |r.value.rest| < |t|
  {
    if |t| == 0 || t[0] == QUOTE || t[0] < 0x20 then None
    else if t[0] != BACKSLASH then Some(Parsed(t[0], t[1..]))
    else if |t| < 2 then None
    else if t[1] == QUOTE || t[1] == BACKSLASH || t[1] == SLASH then Some(Parsed(t[1], t[2..]))
    else if t[1] == 'b' as int then Some(Parsed(8, t[2..]))
    else if t[1] == 't' as int then Some(Parsed(9, t[2..]))
    else if t[1] == 'n' as int then Some(Parsed(10, t[2..]))
    else if t[1] == 'f' as int then Some(Parsed(12, t[2..]))
    else if t[1] == 'r' as int then Some(Parsed(13, t[2..]))
    else if t[1] == 'u' as int && |t| >= 6 && (forall i :: 2 <= i < 6 ==> IsDigit(t[i])) && Parse(t[2..6]) < 0x1_0000
    then Some(Parsed(Parse(t[2..6]), t[6..]))
    else None
  }

  /** The rest of a string, after its opening quote. */
  function ReadString(t: Text): (r: Option<Parsed<Text>>)
    ensures r.Some? ==> |r.value.rest| < |t|
    decreases |t|
  {
    if |t| > 0 && t[0] == QUOTE then Some(Parsed([], t[1..])) else
    match ReadUnit(t)
    case None => None
    case Some(u) =>
      match ReadString(u.rest)
      case None => None
      case Some(more) => Some(Parsed([u.value] + more.value, more.rest))
  }

  function ParseValue(t: Text): (r: Option<Parsed<Json>>)
    ensures r.Some? ==> |r.value.rest| < |t|
    decreases |t|, 1
  {
    ParseBare(SkipSpace(t))
  }

  /** A value without spaces before it. */
  function ParseBare(t: Text): (r: Option<Parsed<Json>>)
    ensures r.Some? ==> |r.value.rest| < |t|
    decreases |t|, 0
  {
    if |t| == 0 then None
    else if NULL_TEXT <= t then Some(Parsed(Null, t[4..]))
    else if TRUE_TEXT <= t then Some(Parsed(Bool(true), t[4..]))
    else if FALSE_TEXT <= t then Some(Parsed(Bool(false), t[5..]))
    else if t[0] == QUOTE then
      match ReadString(t[1..])
      case None => None
      case Some(s) => Some(Parsed(Str(s.value), s.rest))
    else if t[0] == OPEN_ARR then
      var inside := SkipSpace(t[1..]);
      if StartsWith(inside, CLOSE_ARR) then Some(Parsed(Arr([]), inside[1..])) else
      match ParseItems(t[1..])
      case None => None
      case Some(items) => Some(Parsed(Arr(items.value), items.rest))
    else if t[0] == OPEN_OBJ then
      var inside := SkipSpace(t[1..]);
      if StartsWith(inside, CLOSE_OBJ) then Some(Parsed(Obj([]), inside[1..])) else
      match ParseFields(t[1..])
      case None => None
      case Some(fields) => Some(Parsed(Obj(fields.value), fields.rest))
    else
      var n := NumberSpan(t);
      if n == 0 then None else Some(Parsed(Num(t[..n]), t[n..]))
  }

  /** A whole text: one value, with spaces around it at most. */
  function ParseText(t: Text): Option<Json>
  {
    match ParseValue(t)
    case None => None
    case Some(v) => if SkipSpace(v.rest) == [] then Some(v.value) else None
  }

  /** Values separated by commas, up to the closing bracket. */
  function ParseItems(t: Text): (r: Option<Parsed<seq<Json>>>)
    ensures r.Some? ==> |r.value.rest| < |t|
    decreases |t|, 2
  {
    match ParseValue(t)
    case None => None
    case Some(v) =>
      var rest := SkipSpace(v.rest);
      if StartsWith(rest, CLOSE_ARR) then Some(Parsed([v.value], rest[1..]))
      else if !StartsWith(rest, COMMA) then None
      else
        match ParseItems(rest[1..])
        case None => None
        case Some(more) => Some(Parsed([v.value] + more.value, more.rest))
  }

  /** One key, a colon and its value. */
  function ParseField(t: Text): (r: Option<Parsed<Field>>)
    ensures r.Some? ==> |r.value.rest| < |t|
    decreases |t|, 2
  {
    var u := SkipSpace(t);
    if !StartsWith(u, QUOTE) then None else
    match ReadString(u[1..])
    case None => None
    case Some(k) =>
      var rest := SkipSpace(k.rest);
      if !StartsWith(rest, COLON) then None else
      match ParseValue(rest[1..])
      case None => None
      case Some(v) => Some(Parsed(Field(k.value, v.value), v.rest))
  }

  function ParseFields(t: Text): (r: Option<Parsed<seq<Field>>>)
    ensures r.Some? ==> |r.value.rest| < |t|
    decreases |t|, 3
  {
    match ParseField(t)
    case None => None
    case Some(f) =>
      var rest := SkipSpace(f.rest);
      if StartsWith(rest, CLOSE_OBJ) then Some(Parsed([f.value], rest[1..]))
      else if !StartsWith(rest, COMMA) then None
      else
        match ParseFields(rest[1..])
        case None => None
        case Some(more) => Some(Parsed([f.value] + more.value, more.rest))
  }

  /** What the grammar allows beyond the encoding: spaces before a value, and an escaped slash. */
  lemma BeyondCanonical(c: CodeUnit, t: Text)
    requires IsSpace(c)
    ensures ParseValue([c] + t) == ParseValue(t)
    ensures ReadUnit([BACKSLASH, SLASH] + t) == Some(Parsed(SLASH, t))
  {
    assert ([c] + t)[1..] == t;
    assert ([BACKSLASH, SLASH] + t)[2..] == t;
  }

  // ---- Strings read back ---------------------------------------------------------------------

  lemma EscapeReads(s: Text, i: nat, r: Text)
    requires i < |s|
    ensures ReadUnit(EscapeAt(s, i) + r) == Some(Parsed(s[i], r))
    ensures (EscapeAt(s, i) + r)[0] != QUOTE
  {
    var c := s[i];
    var e := EscapeAt(s, i);
    var t := e + r;
    if e == UnicodeEscape(c) {
      assert Power(4) == 0x1_0000;
      PaddedRoundTrip(c, 4);
      assert t[2..6] == Padded(Print(c), 4);
      assert t[6..] == r;
      assert forall k :: 2 <= k < 6 ==> t[k] == t[2..6][k - 2];
    } else if e == [c] {
      assert t[1..] == r;
    } else {
      assert t[2..] == r;
    }
  }

  lemma StringStep(t: Text, u: CodeUnit, after: Text, more: Text, r: Text)
    requires |t| > 0 && t[0] != QUOTE && ReadUnit(t) == Some(Parsed(u, after))
    requires ReadString(after) == Some(Parsed(more, r))
    ensures ReadString(t) == Some(Parsed([u] + more, r))
  {
  }

  lemma EscapeOn(s: Text, i: nat, r: Text)
    requires i < |s|
    ensures EscapeFrom(s, i) + [QUOTE] + r == EscapeAt(s, i) + (EscapeFrom(s, i + 1) + [QUOTE] + r)
  {
  }

  lemma {:induction false} StringReads(s: Text, i: nat, r: Text)
    requires i <= |s|
    ensures ReadString(EscapeFrom(s, i) + [QUOTE] + r) == Some(Parsed(s[i..], r))
    decreases |s| - i
  {
    if i == |s| {
      StringEnds(r);
      assert s[i..] == [];
      assert EscapeFrom(s, i) + [QUOTE] + r == [QUOTE] + r;
    } else {
      StringReads(s, i + 1, r);
      UnitReads(s, i, r);
    }
  }

  lemma StringEnds(r: Text)
    ensures ReadString([QUOTE] + r) == Some(Parsed([], r))
  {
    assert ([QUOTE] + r)[1..] == r;
  }

  lemma UnitReads(s: Text, i: nat, r: Text)
    requires i < |s| && ReadString(EscapeFrom(s, i + 1) + [QUOTE] + r) == Some(Parsed(s[i + 1..], r))
    ensures ReadString(EscapeFrom(s, i) + [QUOTE] + r) == Some(Parsed(s[i..], r))
  {
    var after := EscapeFrom(s, i + 1) + [QUOTE] + r;
    EscapeOn(s, i, r);
    EscapeReads(s, i, after);
    StringStep(EscapeAt(s, i) + after, s[i], after, s[i + 1..], r);
    assert s[i..] == [s[i]] + s[i + 1..];
  }

  lemma QuotedStarts(s: Text, r: Text)
    ensures (Quoted(s) + r)[0] == QUOTE && (Quoted(s) + r)[1..] == EscapeFrom(s, 0) + [QUOTE] + r
  {
    assert Quoted(s) + r == [QUOTE] + (EscapeFrom(s, 0) + [QUOTE] + r);
  }

  lemma QuotedReads(s: Text, r: Text)
    ensures var t := Quoted(s) + r; t[0] == QUOTE && ReadString(t[1..]) == Some(Parsed(s, r))
  {
    QuotedStarts(s, r);
    StringReads(s, 0, r);
    assert s[0..] == s;
  }

  // ---- Values read back ------------------------------------------------------------------------

  /** A text that reads as a value, whatever delimiter follows. */
  ghost predicate Reads(t: Text, v: Json)
  {
    forall r: Text :: Delimited(r) ==> ParseValue(t + r) == Some(Parsed(v, r))
  }

  /** The value with every object's fields sorted by key. */
  function Norm(v: Json): Json
  {
    match v
    case Arr(items) => Arr(seq(|items|, i requires 0 <= i < |items| => Norm(items[i])))
    case Obj(fields) =>
      Obj(Sort(FieldLe, seq(|fields|, i requires 0 <= i < |fields| => Field(fields[i].key, Norm(fields[i].value)))))
    case _ => v
  }

  /** A text that goes on past its first part. */
  lemma Reassociate(a: Text, x: CodeUnit, b: Text, y: CodeUnit, r: Text)
    ensures a + [x] + b + [y] + r == a + ([x] + (b + [y] + r))
    ensures a + [x] + r == a + ([x] + r)
    ensures ([x] + r)[1..] == r
  {
  }

  lemma LastItem(t: Text, v: Json, r: Text)
    requires ParseValue(t) == Some(Parsed(v, [CLOSE_ARR] + r))
    ensures ParseItems(t) == Some(Parsed([v], r))
  {
    assert ([CLOSE_ARR] + r)[1..] == r;
  }

  lemma MoreItems(t: Text, v: Json, after: Text, vs: seq<Json>, r: Text)
    requires ParseValue(t) == Some(Parsed(v, [COMMA] + after)) && ParseItems(after) == Some(Parsed(vs, r))
    ensures ParseItems(t) == Some(Parsed([v] + vs, r))
  {
    assert ([COMMA] + after)[1..] == after;
  }

  lemma {:induction false} ItemsRead(ts: seq<Text>, vs: seq<Json>, r: Text)
    requires |ts| == |vs| > 0 && forall i :: 0 <= i < |ts| ==> Reads(ts[i], vs[i])
    ensures ParseItems(Join(ts) + [CLOSE_ARR] + r) == Some(Parsed(vs, r))
  {
    if |ts| == 1 {
      LastItemReads(ts[0], vs[0], r);
      assert vs == [vs[0]];
    } else {
      ItemsRead(ts[1..], vs[1..], r);
      MoreItemsRead(ts[0], vs[0], Join(ts[1..]), vs[1..], r);
      assert vs == [vs[0]] + vs[1..];
    }
  }

  lemma LastItemReads(t: Text, v: Json, r: Text)
    requires Reads(t, v)
    ensures ParseItems(t + [CLOSE_ARR] + r) == Some(Parsed([v], r))
  {
    Reassociate(t, CLOSE_ARR, [], COMMA, r);
    ReadsWith(t, v, [CLOSE_ARR] + r);
    LastItem(t + ([CLOSE_ARR] + r), v, r);
  }

  lemma MoreItemsRead(t: Text, v: Json, more: Text, vs: seq<Json>, r: Text)
    requires Reads(t, v) && ParseItems(more + [CLOSE_ARR] + r) == Some(Parsed(vs, r))
    ensures ParseItems(t + [COMMA] + more + [CLOSE_ARR] + r) == Some(Parsed([v] + vs, r))
  {
    var after := more + [CLOSE_ARR] + r;
    Reassociate(t, COMMA, more, CLOSE_ARR, r);
    ReadsWith(t, v, [COMMA] + after);
    MoreItems(t + ([COMMA] + after), v, after, vs, r);
  }

  ghost predicate ReadsField(m: Member, f: Field)
  {
    m.key == f.key && Reads(m.text, f.value)
  }

  lemma ReadsWith(t: Text, v: Json, r: Text)
    requires Reads(t, v) && Delimited(r)
    ensures ParseValue(t + r) == Some(Parsed(v, r))
  {
  }

  lemma FieldStep(t: Text, key: Text, after: Text, v: Json, r: Text)
    requires |t| > 0 && t[0] == QUOTE && ReadString(t[1..]) == Some(Parsed(key, [COLON] + after))
    requires ParseValue(after) == Some(Parsed(v, r))
    ensures ParseField(t) == Some(Parsed(Field(key, v), r))
  {
    assert ([COLON] + after)[1..] == after;
  }

  lemma MemberTextOn(m: Member, r: Text)
    ensures MemberText(m) + r == Quoted(m.key) + ([COLON] + (m.text + r))
  {
  }

  lemma MemberReads(m: Member, f: Field, r: Text)
    requires ReadsField(m, f) && Delimited(r)
    ensures ParseField(MemberText(m) + r) == Some(Parsed(f, r))
  {
    var value := m.text + r;
    QuotedReads(m.key, [COLON] + value);
    MemberTextOn(m, r);
    ReadsWith(m.text, f.value, r);
    FieldStep(Quoted(m.key) + ([COLON] + value), m.key, value, f.value, r);
  }

  lemma LastField(t: Text, f: Field, r: Text)
    requires ParseField(t) == Some(Parsed(f, [CLOSE_OBJ] + r))
    ensures ParseFields(t) == Some(Parsed([f], r))
  {
    assert ([CLOSE_OBJ] + r)[1..] == r;
  }

  lemma MoreFields(t: Text, f: Field, after: Text, fs: seq<Field>, r: Text)
    requires ParseField(t) == Some(Parsed(f, [COMMA] + after)) && ParseFields(after) == Some(Parsed(fs, r))
    ensures ParseFields(t) == Some(Parsed([f] + fs, r))
  {
    assert ([COMMA] + after)[1..] == after;
  }

  lemma {:induction false} MembersRead(ms: seq<Member>, fs: seq<Field>, r: Text)
    requires |ms| == |fs| > 0 && forall i :: 0 <= i < |ms| ==> ReadsField(ms[i], fs[i])
    ensures ParseFields(Join(MemberTexts(ms)) + [CLOSE_OBJ] + r) == Some(Parsed(fs, r))
  {
    if |ms| == 1 {
      LastMemberReads(MemberText(ms[0]), ms[0], fs[0], r);
      assert fs == [fs[0]];
    } else {
      MembersRead(ms[1..], fs[1..], r);
      MembersJoin(ms);
      MoreMembersRead(ms[0], fs[0], Join(MemberTexts(ms[1..])), fs[1..], r);
      assert fs == [fs[0]] + fs[1..];
    }
  }

  lemma MembersJoin(ms: seq<Member>)
    requires |ms| > 1
    ensures Join(MemberTexts(ms)) == MemberText(ms[0]) + [COMMA] + Join(MemberTexts(ms[1..]))
  {
    assert MemberTexts(ms)[1..] == MemberTexts(ms[1..]);
  }

  lemma LastMemberReads(t: Text, m: Member, f: Field, r: Text)
    requires ReadsField(m, f) && t == MemberText(m)
    ensures ParseFields(t + [CLOSE_OBJ] + r) == Some(Parsed([f], r))
  {
    Reassociate(t, CLOSE_OBJ, [], COMMA, r);
    MemberReads(m, f, [CLOSE_OBJ] + r);
    LastField(t + ([CLOSE_OBJ] + r), f, r);
  }

  lemma MoreMembersRead(m: Member, f: Field, more: Text, fs: seq<Field>, r: Text)
    requires ReadsField(m, f) && ParseFields(more + [CLOSE_OBJ] + r) == Some(Parsed(fs, r))
    ensures ParseFields(MemberText(m) + [COMMA] + more + [CLOSE_OBJ] + r) == Some(Parsed([f] + fs, r))
  {
    var after := more + [CLOSE_OBJ] + r;
    Reassociate(MemberText(m), COMMA, more, CLOSE_OBJ, r);
    MemberReads(m, f, [COMMA] + after);
    MoreFields(MemberText(m) + ([COMMA] + after), f, after, fs, r);
  }

  lemma NumberStep(t: Text, n: nat)
    requires |t| > 0 && (t[0] == '-' as int || IsDecimal(t[0])) && NumberSpan(t) == n > 0
    ensures ParseValue(t) == Some(Parsed(Num(t[..n]), t[n..]))
  {
    ValueIsBare(t);
    BareNumber(t, n);
  }

  lemma ValueIsBare(t: Text)
    requires |t| > 0 && !IsSpace(t[0])
    ensures ParseValue(t) == ParseBare(t)
  {
  }

  /** A minus or a digit starts no word, string, array or object. */
  lemma StartsNoOther(t: Text)
    requires |t| > 0 && (t[0] == '-' as int || IsDecimal(t[0]))
    ensures !(NULL_TEXT <= t) && !(TRUE_TEXT <= t) && !(FALSE_TEXT <= t)
    ensures t[0] != QUOTE && t[0] != OPEN_ARR && t[0] != OPEN_OBJ
  {
    assert NULL_TEXT[0] == 'n' as int && TRUE_TEXT[0] == 't' as int && FALSE_TEXT[0] == 'f' as int;
  }

  lemma BareNumber(t: Text, n: nat)
    requires |t| > 0 && (t[0] == '-' as int || IsDecimal(t[0])) && NumberSpan(t) == n > 0
    ensures ParseBare(t) == Some(Parsed(Num(t[..n]), t[n..]))
  {
    StartsNoOther(t);
    BareOther(t);
  }

  lemma BareOther(t: Text)
    requires |t| > 0 && !(NULL_TEXT <= t) && !(TRUE_TEXT <= t) && !(FALSE_TEXT <= t)
    requires t[0] != QUOTE && t[0] != OPEN_ARR && t[0] != OPEN_OBJ && NumberSpan(t) > 0
    ensures ParseBare(t) == Some(Parsed(Num(t[..NumberSpan(t)]), t[NumberSpan(t)..]))
  {
  }

  lemma NumberReads(n: Text, r: Text)
    requires NumberText(n) && Delimited(r)
    ensures ParseValue(n + r) == Some(Parsed(Num(n), r))
  {
    SpanOfNumber(n, r);
    NumberStarts(n);
    assert (n + r)[0] == n[0];
    NumberStep(n + r, |n|);
    assert (n + r)[..|n|] == n && (n + r)[|n|..] == r;
  }

  lemma StringValueReads(s: Text, r: Text)
    ensures ParseValue(Quoted(s) + r) == Some(Parsed(Str(s), r))
  {
    QuotedReads(s, r);
  }

  lemma WordsRead(r: Text)
    ensures ParseValue(NULL_TEXT + r) == Some(Parsed(Null, r))
    ensures ParseValue(TRUE_TEXT + r) == Some(Parsed(Bool(true), r))
    ensures ParseValue(FALSE_TEXT + r) == Some(Parsed(Bool(false), r))
  {
    var n, t, f := NULL_TEXT + r, TRUE_TEXT + r, FALSE_TEXT + r;
    assert n[4..] == r && t[4..] == r && f[5..] == r;
    assert n[0] == NULL_TEXT[0] && t[0] == TRUE_TEXT[0] && f[0] == FALSE_TEXT[0];
    assert NULL_TEXT <= n && TRUE_TEXT <= t && FALSE_TEXT <= f;
  }

  lemma ScalarReads(v: Json)
    requires Valid(v) && !v.Arr? && !v.Obj?
    ensures Reads(Canonical(v), v)
  {
    forall r: Text | Delimited(r)
      ensures ParseValue(Canonical(v) + r) == Some(Parsed(v, r))
    {
      match v
      case Null => WordsRead(r);
      case Bool(b) => WordsRead(r);
      case Num(n) => NumberReads(n, r);
      case Str(s) => StringValueReads(s, r);
    }
  }

  lemma ArrStep(t: Text, vs: seq<Json>, r: Text)
    requires |t| > 1 && t[0] == OPEN_ARR && !StartsWith(SkipSpace(t[1..]), CLOSE_ARR)
    requires ParseItems(t[1..]) == Some(Parsed(vs, r))
    ensures ParseValue(t) == Some(Parsed(Arr(vs), r))
  {
  }

  lemma ObjStep(t: Text, fs: seq<Field>, r: Text)
    requires |t| > 1 && t[0] == OPEN_OBJ && t[1] != CLOSE_OBJ && ParseFields(t[1..]) == Some(Parsed(fs, r))
    ensures ParseValue(t) == Some(Parsed(Obj(fs), r))
  {
  }

  lemma EmptyReads(r: Text)
    ensures ParseValue([OPEN_ARR] + [CLOSE_ARR] + r) == Some(Parsed(Arr([]), r))
    ensures ParseValue([OPEN_OBJ] + [CLOSE_OBJ] + r) == Some(Parsed(Obj([]), r))
  {
    var a, o := [OPEN_ARR] + [CLOSE_ARR] + r, [OPEN_OBJ] + [CLOSE_OBJ] + r;
    assert a[0] == OPEN_ARR && a[1] == CLOSE_ARR && a[2..] == r;
    assert o[0] == OPEN_OBJ && o[1] == CLOSE_OBJ && o[2..] == r;
    assert !(NULL_TEXT <= a) && !(TRUE_TEXT <= a) && !(FALSE_TEXT <= a);
    assert !(NULL_TEXT <= o) && !(TRUE_TEXT <= o) && !(FALSE_TEXT <= o);
  }

  lemma ArrReadsWith(ts: seq<Text>, vs: seq<Json>, r: Text)
    requires |ts| == |vs| && forall i :: 0 <= i < |ts| ==> Reads(ts[i], vs[i])
    ensures ParseValue([OPEN_ARR] + Join(ts) + [CLOSE_ARR] + r) == Some(Parsed(Arr(vs), r))
  {
    var t := [OPEN_ARR] + Join(ts) + [CLOSE_ARR] + r;
    if |ts| == 0 {
      assert t == [OPEN_ARR] + [CLOSE_ARR] + r;
      EmptyReads(r);
    } else {
      NeverClosesAtOnce(ts, vs, [CLOSE_ARR] + r);
      assert t[1..] == Join(ts) + ([CLOSE_ARR] + r);
      assert t[1..] == Join(ts) + [CLOSE_ARR] + r;
      ItemsRead(ts, vs, r);
      ArrStep(t, vs, r);
    }
  }

  lemma ArrReads(ts: seq<Text>, vs: seq<Json>)
    requires |ts| == |vs| && forall i :: 0 <= i < |ts| ==> Reads(ts[i], vs[i])
    ensures Reads([OPEN_ARR] + Join(ts) + [CLOSE_ARR], Arr(vs))
  {
    forall r: Text | Delimited(r)
      ensures ParseValue([OPEN_ARR] + Join(ts) + [CLOSE_ARR] + r) == Some(Parsed(Arr(vs), r))
    {
      ArrReadsWith(ts, vs, r);
    }
  }

  /** A value does not start with a closing bracket. */
  lemma {:induction false} SkipOn(a: Text, b: Text)
    requires SkipSpace(a) != []
    ensures SkipSpace(a + b) == SkipSpace(a) + b
  {
    if IsSpace(a[0]) {
      assert (a + b)[1..] == a[1..] + b;
      SkipOn(a[1..], b);
    }
  }

  lemma NoValueCloses(t: Text)
    requires StartsWith(t, CLOSE_ARR)
    ensures ParseBare(t) == None
  {
    assert t[0..] == t;
  }

  lemma ValueNeverCloses(t: Text, v: Json)
    requires Reads(t, v)
    ensures SkipSpace(t) != [] && !StartsWith(SkipSpace(t), CLOSE_ARR)
  {
    ReadsWith(t, v, []);
    assert t + [] == t;
    if StartsWith(SkipSpace(t), CLOSE_ARR) {
      NoValueCloses(SkipSpace(t));
    }
  }

  lemma JoinStarts(ts: seq<Text>, more: Text) returns (tail: Text)
    requires |ts| > 0
    ensures |Join(ts)| >= |ts[0]| && Join(ts) + more == ts[0] + tail
  {
    tail := Join(ts)[|ts[0]|..] + more;
  }

  lemma SpaceShortens(t: Text)
    ensures SkipSpace(t) != [] ==> |t| > 0
  {
  }

  lemma NeverClosesAtOnce(ts: seq<Text>, vs: seq<Json>, more: Text)
    requires |ts| == |vs| > 0 && Reads(ts[0], vs[0])
    ensures |Join(ts)| > 0 && !StartsWith(SkipSpace(Join(ts) + more), CLOSE_ARR)
  {
    ValueNeverCloses(ts[0], vs[0]);
    SpaceShortens(ts[0]);
    var tail := JoinStarts(ts, more);
    SkipOn(ts[0], tail);
    assert (SkipSpace(ts[0]) + tail)[0] == SkipSpace(ts[0])[0];
  }

  lemma ObjReadsWith(ms: seq<Member>, fs: seq<Field>, r: Text)
    requires |ms| == |fs| && forall i :: 0 <= i < |ms| ==> ReadsField(ms[i], fs[i])
    ensures ParseValue([OPEN_OBJ] + Join(MemberTexts(ms)) + [CLOSE_OBJ] + r) == Some(Parsed(Obj(fs), r))
  {
    var ts := MemberTexts(ms);
    var t := [OPEN_OBJ] + Join(ts) + [CLOSE_OBJ] + r;
    if |ms| == 0 {
      assert t == [OPEN_OBJ] + [CLOSE_OBJ] + r;
      EmptyReads(r);
    } else {
      assert t[1..] == Join(ts) + [CLOSE_OBJ] + r;
      MembersRead(ms, fs, r);
      assert t[1] == Join(ts)[0] == MemberText(ms[0])[0] == QUOTE;
      ObjStep(t, fs, r);
    }
  }

  lemma ObjReads(ms: seq<Member>, fs: seq<Field>)
    requires |ms| == |fs| && forall i :: 0 <= i < |ms| ==> ReadsField(ms[i], fs[i])
    ensures Reads([OPEN_OBJ] + Join(MemberTexts(ms)) + [CLOSE_OBJ], Obj(fs))
  {
    forall r: Text | Delimited(r)
      ensures ParseValue([OPEN_OBJ] + Join(MemberTexts(ms)) + [CLOSE_OBJ] + r) == Some(Parsed(Obj(fs), r))
    {
      ObjReadsWith(ms, fs, r);
    }
  }

  /** Parsing a canonical text gives the value back, its keys in order. */
  lemma {:induction false} CanonicalReads(v: Json)
    requires Valid(v)
    ensures Reads(Canonical(v), Norm(v))
  {
    match v
    case Arr(items) =>
      forall i | 0 <= i < |items| ensures Reads(Canonical(items[i]), Norm(items[i])) {
        CanonicalReads(items[i]);
      }
      ArrReads(seq(|items|, i requires 0 <= i < |items| => Canonical(items[i])),
               seq(|items|, i requires 0 <= i < |items| => Norm(items[i])));
    case Obj(fields) =>
      forall i | 0 <= i < |fields| ensures Reads(Canonical(fields[i].value), Norm(fields[i].value)) {
        CanonicalReads(fields[i].value);
      }
      var ms := seq(|fields|, i requires 0 <= i < |fields| => Member(fields[i].key, Canonical(fields[i].value)));
      var fs := seq(|fields|, i requires 0 <= i < |fields| => Field(fields[i].key, Norm(fields[i].value)));
      SortRelated(MemberLe, FieldLe, ReadsField, ms, fs);
      ObjReads(Sort(MemberLe, ms), Sort(FieldLe, fs));
    case _ => ScalarReads(v);
  }

  // ---- Equal up to key order -----------------------------------------------------------------------

  /** Same kind, same content; objects have the same keys with the same values, in any order. */
  ghost predicate Same(a: Json, b: Json)
  {
    match a
    case Arr(items) =>
      b.Arr? && |b.items| == |items| && forall i :: 0 <= i < |items| ==> Same(items[i], b.items[i])
    case Obj(fields) =>
      b.Obj? && |b.fields| == |fields| && forall i :: 0 <= i < |fields| ==> Kept(fields[i], b.fields)
    case _ => a == b
  }

  /** A field that another object has too, in whatever place. */
  ghost predicate Kept(f: Field, gs: seq<Field>)
  {
    exists j :: 0 <= j < |gs| && f.key == gs[j].key && Same(f.value, gs[j].value)
  }

  lemma FieldOf(a: Json, b: Json, i: nat) returns (j: nat)
    requires a.Obj? && b.Obj? && Same(a, b) && i < |a.fields|
    ensures j < |b.fields| && a.fields[i].key == b.fields[j].key && Same(a.fields[i].value, b.fields[j].value)
  {
    assert Kept(a.fields[i], b.fields);
    j :| 0 <= j < |b.fields| && a.fields[i].key == b.fields[j].key && Same(a.fields[i].value, b.fields[j].value);
  }

  lemma SameAligned(fs: seq<Field>, gs: seq<Field>, i: nat)
    requires |fs| == |gs| && DistinctKeys(fs) && forall k :: 0 <= k < |fs| ==> fs[k].key == gs[k].key
    requires Same(Obj(fs), Obj(gs)) && i < |fs|
    ensures Same(fs[i].value, gs[i].value)
  {
    var j := FieldOf(Obj(fs), Obj(gs), i);
    assert fs[j].key == gs[j].key;
  }

  lemma AlignedThenSame(fs: seq<Field>, gs: seq<Field>)
    requires |fs| == |gs| && forall i :: 0 <= i < |fs| ==> fs[i].key == gs[i].key
    requires forall i :: 0 <= i < |fs| ==> Same(fs[i].value, gs[i].value)
    ensures Same(Obj(fs), Obj(gs))
  {
    forall i | 0 <= i < |fs| ensures Kept(fs[i], gs) {
      assert fs[i].key == gs[i].key && Same(fs[i].value, gs[i].value);
    }
  }

  /** Objects that list the same keys in the same order compare field by field. */
  lemma AlignedSame(fs: seq<Field>, gs: seq<Field>)
    requires |fs| == |gs| && DistinctKeys(fs) && forall i :: 0 <= i < |fs| ==> fs[i].key == gs[i].key
    ensures Same(Obj(fs), Obj(gs)) <==> forall i :: 0 <= i < |fs| ==> Same(fs[i].value, gs[i].value)
  {
    if Same(Obj(fs), Obj(gs)) {
      forall i | 0 <= i < |fs| ensures Same(fs[i].value, gs[i].value) {
        SameAligned(fs, gs, i);
      }
    } else if forall i :: 0 <= i < |fs| ==> Same(fs[i].value, gs[i].value) {
      AlignedThenSame(fs, gs);
    }
  }

  function NormFields(fs: seq<Field>): seq<Field>
  {
    seq(|fs|, i requires 0 <= i < |fs| => Field(fs[i].key, Norm(fs[i].value)))
  }

  lemma NormObj(fs: seq<Field>)
    ensures Norm(Obj(fs)) == Obj(Sort(FieldLe, NormFields(fs)))
  {
  }

  lemma FieldOrder()
    ensures TotalPreorder(FieldLe)
  {
    forall a: Field, b: Field ensures FieldLe(a, b) || FieldLe(b, a) { LexTotal(a.key, b.key); }
    forall a: Field, b: Field, c: Field | FieldLe(a, b) && FieldLe(b, c) ensures FieldLe(a, c) {
      LexTransitive(a.key, b.key, c.key);
    }
  }

  lemma KeysNeverTie(fs: seq<Field>)
    requires DistinctKeys(fs)
    ensures NoTies(FieldLe, fs)
  {
    forall a, b | a in multiset(fs) && b in multiset(fs) && FieldLe(a, b) && FieldLe(b, a)
      ensures a == b
    {
      LexAntisymmetric(a.key, b.key);
      var i :| 0 <= i < |fs| && fs[i] == a;
      var j :| 0 <= j < |fs| && fs[j] == b;
      assert i == j;
    }
  }

  lemma {:induction false} OnceEach(fs: seq<Field>, f: Field)
    requires DistinctKeys(fs)
    ensures multiset(fs)[f] == if f in fs then 1 else 0
  {
    if |fs| > 0 {
      OnceEach(fs[..|fs| - 1], f);
      assert fs == fs[..|fs| - 1] + [fs[|fs| - 1]];
      if f == fs[|fs| - 1] {
        assert f !in fs[..|fs| - 1];
      }
    }
  }

  /** Fields all found among as many fields are a permutation of them. */
  lemma SameFields(fs: seq<Field>, gs: seq<Field>)
    requires |fs| == |gs| && DistinctKeys(fs) && DistinctKeys(gs) && forall i :: 0 <= i < |fs| ==> fs[i] in gs
    ensures multiset(fs) == multiset(gs)
  {
    forall f ensures multiset(fs)[f] <= multiset(gs)[f] {
      OnceEach(fs, f);
      OnceEach(gs, f);
    }
    assert multiset(fs) <= multiset(gs);
    assert |multiset(gs) - multiset(fs)| == 0;
    assert multiset(gs) == multiset(fs) + (multiset(gs) - multiset(fs));
  }

  /** Values equal up to key order have the same normal form. */
  lemma {:induction false} SameThenNorm(a: Json, b: Json)
    requires Valid(a) && Valid(b) && Same(a, b)
    ensures Norm(a) == Norm(b)
  {
    match a
    case Arr(items) =>
      forall i | 0 <= i < |items| ensures Norm(items[i]) == Norm(b.items[i]) {
        SameThenNorm(items[i], b.items[i]);
      }
    case Obj(fields) =>
      var fs, gs := NormFields(fields), NormFields(b.fields);
      forall i | 0 <= i < |fs| ensures fs[i] in gs {
        var j :| 0 <= j < |b.fields| && fields[i].key == b.fields[j].key && Same(fields[i].value, b.fields[j].value);
        SameThenNorm(fields[i].value, b.fields[j].value);
        assert gs[j] == fs[i];
      }
      SameFields(fs, gs);
      FieldOrder();
      KeysNeverTie(fs);
      SortForgetsOrder(FieldLe, fs, gs);
      NormObj(fields);
      NormObj(b.fields);
    case _ =>
  }

  lemma NormKeepsKind(v: Json)
    ensures Norm(v).Arr? <==> v.Arr?
    ensures Norm(v).Obj? <==> v.Obj?
    ensures !v.Arr? && !v.Obj? ==> Norm(v) == v
  {
  }

  /** Each field has a field of the same key and the same normal value among the others. */
  ghost predicate MatchedIn(fs: seq<Field>, gs: seq<Field>)
  {
    |fs| == |gs| &&
    forall i :: 0 <= i < |fs| ==>
      exists j :: 0 <= j < |gs| && fs[i].key == gs[j].key && Norm(fs[i].value) == Norm(gs[j].value)
  }

  lemma NormMatches(fs: seq<Field>, gs: seq<Field>)
    requires Norm(Obj(fs)) == Norm(Obj(gs))
    ensures MatchedIn(fs, gs)
  {
    var nf, ng := NormFields(fs), NormFields(gs);
    NormObj(fs);
    NormObj(gs);
    SortPermutes(FieldLe, nf);
    SortPermutes(FieldLe, ng);
    assert |nf| == |multiset(nf)| == |multiset(ng)| == |ng|;
    forall i | 0 <= i < |fs|
      ensures exists j :: 0 <= j < |gs| && fs[i].key == gs[j].key && Norm(fs[i].value) == Norm(gs[j].value)
    {
      assert nf[i] in multiset(ng);
      var j :| 0 <= j < |ng| && ng[j] == nf[i];
      assert fs[i].key == gs[j].key;
    }
  }

  lemma NormItems(xs: seq<Json>, ys: seq<Json>)
    requires Norm(Arr(xs)) == Norm(Arr(ys))
    ensures |xs| == |ys| && forall i :: 0 <= i < |xs| ==> Norm(xs[i]) == Norm(ys[i])
  {
    var ms, ns := Norm(Arr(xs)).items, Norm(Arr(ys)).items;
    assert |ms| == |xs| && |ns| == |ys|;
    assert forall i :: 0 <= i < |xs| ==> ms[i] == Norm(xs[i]);
    assert forall i :: 0 <= i < |ys| ==> ns[i] == Norm(ys[i]);
  }

  /** And only they do. */
  lemma {:induction false} NormThenSame(a: Json, b: Json)
    requires Norm(a) == Norm(b)
    ensures Same(a, b)
  {
    NormKeepsKind(a);
    NormKeepsKind(b);
    match a
    case Arr(items) =>
      NormItems(items, b.items);
      forall i | 0 <= i < |items| ensures Same(items[i], b.items[i]) {
        NormThenSame(items[i], b.items[i]);
      }
    case Obj(fields) =>
      NormMatches(fields, b.fields);
      forall i | 0 <= i < |fields|
        ensures exists j :: 0 <= j < |b.fields| && fields[i].key == b.fields[j].key && Same(fields[i].value, b.fields[j].value)
      {
        var j :| 0 <= j < |b.fields| && fields[i].key == b.fields[j].key && Norm(fields[i].value) == Norm(b.fields[j].value);
        NormThenSame(fields[i].value, b.fields[j].value);
      }
    case _ =>
  }

  ghost predicate Prints(m: Member, f: Field)
  {
    m.key == f.key && m.text == Canonical(f.value)
  }

  function Members(fs: seq<Field>): seq<Member>
  {
    seq(|fs|, i requires 0 <= i < |fs| => Member(fs[i].key, Canonical(fs[i].value)))
  }

  lemma CanonicalObj(fs: seq<Field>)
    ensures Canonical(Obj(fs)) == [OPEN_OBJ] + Join(MemberTexts(Sort(MemberLe, Members(fs)))) + [CLOSE_OBJ]
  {
  }

  lemma MemberOrder()
    ensures TotalPreorder(MemberLe)
  {
    forall a: Member, b: Member ensures MemberLe(a, b) || MemberLe(b, a) { LexTotal(a.key, b.key); }
    forall a: Member, b: Member, c: Member | MemberLe(a, b) && MemberLe(b, c) ensures MemberLe(a, c) {
      LexTransitive(a.key, b.key, c.key);
    }
  }

  /** The encoding sees a value only through its normal form. */
  lemma {:induction false} CanonicalOfNorm(v: Json)
    ensures Canonical(Norm(v)) == Canonical(v)
  {
    match v
    case Arr(items) =>
      var xs := Norm(v).items;
      forall i | 0 <= i < |items| ensures Canonical(xs[i]) == Canonical(items[i]) {
        CanonicalOfNorm(items[i]);
      }
      assert seq(|items|, i requires 0 <= i < |items| => Canonical(items[i]))
          == seq(|xs|, i requires 0 <= i < |xs| => Canonical(xs[i]));
    case Obj(fields) =>
      var ms, fs := Members(fields), NormFields(fields);
      forall i | 0 <= i < |fields| ensures Prints(ms[i], fs[i]) {
        CanonicalOfNorm(fields[i].value);
      }
      SortRelated(MemberLe, FieldLe, Prints, ms, fs);
      MemberOrder();
      SortSorted(MemberLe, ms);
      assert Members(Sort(FieldLe, fs)) == Sort(MemberLe, ms);
      SortOfSorted(MemberLe, Sort(MemberLe, ms));
      NormObj(fields);
      CanonicalObj(fields);
      CanonicalObj(Sort(FieldLe, fs));
    case _ =>
  }

  /** Two values encode alike exactly when they are equal up to the order of object keys. */
  lemma CanonicalDecides(a: Json, b: Json)
    requires Valid(a) && Valid(b)
    ensures Canonical(a) == Canonical(b) <==> Same(a, b)
  {
    if Canonical(a) == Canonical(b) {
      CanonicalReads(a);
      CanonicalReads(b);
      ReadsWith(Canonical(a), Norm(a), []);
      ReadsWith(Canonical(b), Norm(b), []);
      NormThenSame(a, b);
    }
    if Same(a, b) {
      SameThenNorm(a, b);
      CanonicalOfNorm(a);
      CanonicalOfNorm(b);
    }
  }

  /** Parsing the encoding of a value gives an equal value. */
  lemma CanonicalRoundTrip(v: Json)
    requires Valid(v)
    ensures ParseText(Canonical(v)).Some? && Same(v, ParseText(Canonical(v)).value)
  {
    CanonicalReads(v);
    ReadsWith(Canonical(v), Norm(v), []);
    assert Canonical(v) + [] == Canonical(v);
    NormIdempotent(v);
    NormThenSame(v, Norm(v));
  }

  lemma {:induction false} NormIdempotent(v: Json)
    ensures Norm(Norm(v)) == Norm(v)
  {
    match v
    case Arr(items) =>
      forall i | 0 <= i < |items| ensures Norm(Norm(items[i])) == Norm(items[i]) {
        NormIdempotent(items[i]);
      }
    case Obj(fields) =>
      var fs := NormFields(fields);
      forall i | 0 <= i < |fs| ensures Normal(fs[i]) {
        NormIdempotent(fields[i].value);
      }
      var sorted := Sort(FieldLe, fs);
      SortPermutes(FieldLe, fs);
      forall i | 0 <= i < |sorted| ensures Normal(sorted[i]) {
        assert sorted[i] in multiset(fs);
      }
      assert NormFields(sorted) == sorted;
      FieldOrder();
      SortSorted(FieldLe, fs);
      SortOfSorted(FieldLe, sorted);
      NormObj(fields);
      NormObj(sorted);
    case _ =>
  }

  ghost predicate Normal(f: Field)
  {
    Field(f.key, Norm(f.value)) == f
  }

  // ---- As it is written -----------------------------------------------------------------------------------

  /** Six units: a backslash, `u`, and the unit in four hexadecimal digits. */
  ghost predicate SixUnits(t: Text, c: CodeUnit)
  {
    |t| == 6 && t[0] == '\\' as int && t[1] == 'u' as int &&
    (forall i :: 2 <= i < 6 ==> IsDigit(t[i]) && !('A' as int <= t[i] <= 'F' as int)) && Parse(t[2..]) == c
  }

  /** The unit that stands for a control character after a backslash, if it has one of its own. */
  function Short(c: CodeUnit): Option<char>
  {
    match c
    case 8 => Some('b')
    case 9 => Some('t')
    case 10 => Some('n')
    case 12 => Some('f')
    case 13 => Some('r')
    case 34 => Some('"')
    case 92 => Some('\\')
    case _ => None
  }

  /**
   A unit is written as itself, except for quotes, backslashes and the control characters
   with an escape of their own, in two, and other control characters and lone surrogates,
   in six.
   */
  lemma EscapedExactly(s: Text, i: nat)
    requires i < |s|
    ensures var c, t := s[i], EscapeAt(s, i);
      if Short(c).Some? then t == ['\\' as int, Short(c).value as int]
      else if c < 32 || LoneSurrogate(s, i) then SixUnits(t, c)
      else t == [c]
  {
    FourDigits(s[i]);
  }

  lemma {:induction false} LowerDigits(n: nat)
    ensures forall i :: 0 <= i < |Print(n)| ==> !('A' as int <= Print(n)[i] <= 'F' as int)
  {
    if n >= 16 {
      LowerDigits(n / 16);
    }
  }

  lemma {:induction false} LowerZeros(k: nat)
    ensures forall i :: 0 <= i < |Zeros(k)| ==> !('A' as int <= Zeros(k)[i] <= 'F' as int)
  {
    if k > 0 {
      LowerZeros(k - 1);
    }
  }

  lemma FourDigits(c: CodeUnit)
    ensures SixUnits(UnicodeEscape(c), c)
  {
    assert Power(4) == 0x1_0000;
    PaddedRoundTrip(c, 4);
    LowerDigits(c);
    if |Print(c)| < 4 {
      LowerZeros(4 - |Print(c)|);
    }
    assert UnicodeEscape(c)[2..] == Padded(Print(c), 4);
  }

  /** An array is its values between brackets, with commas and nothing else between them. */
  lemma ArraysExactly(a: Json, b: Json)
    ensures Canonical(Arr([])) == ['[' as int, ']' as int]
    ensures Canonical(Arr([a])) == ['[' as int] + Canonical(a) + [']' as int]
    ensures Canonical(Arr([a, b])) == ['[' as int] + Canonical(a) + [',' as int] + Canonical(b) + [']' as int]
  {
    Joins(Canonical(a), Canonical(b));
    Three(a, b);
  }

  lemma Joins(t: Text, u: Text)
    ensures Join([]) == [] && Join([t]) == t && Join([t, u]) == t + [',' as int] + u
  {
    assert [t, u][1..] == [u];
  }

  lemma Three(a: Json, b: Json)
    ensures Canonical(Arr([])) == [OPEN_ARR] + Join([]) + [CLOSE_ARR]
    ensures Canonical(Arr([a])) == [OPEN_ARR] + Join([Canonical(a)]) + [CLOSE_ARR]
    ensures Canonical(Arr([a, b])) == [OPEN_ARR] + Join([Canonical(a), Canonical(b)]) + [CLOSE_ARR]
  {
    var none, one, two: seq<Json> := [], [a], [a, b];
    assert seq(|none|, i requires 0 <= i < |none| => Canonical(none[i])) == [];
    assert seq(|one|, i requires 0 <= i < |one| => Canonical(one[i])) == [Canonical(a)];
    assert seq(|two|, i requires 0 <= i < |two| => Canonical(two[i])) == [Canonical(a), Canonical(b)];
  }

  /** An object of two fields writes the smaller key first, whichever was given first, with colons and a comma. */
  lemma ObjectsExactly(f: Field, g: Field)
    requires f.key != g.key && LexLe(f.key, g.key)
    ensures Canonical(Obj([f, g])) == Written(Quoted(f.key), Canonical(f.value), Quoted(g.key), Canonical(g.value))
    ensures Canonical(Obj([g, f])) == Written(Quoted(f.key), Canonical(f.value), Quoted(g.key), Canonical(g.value))
  {
    var m, n := Member(f.key, Canonical(f.value)), Member(g.key, Canonical(g.value));
    if LexLe(g.key, f.key) {
      LexAntisymmetric(f.key, g.key);
    }
    TwoMembers(m, n);
    TwoFields(f, g);
    TwoFields(g, f);
    MembersWritten(m, n);
  }

  function Written(k: Text, v: Text, l: Text, w: Text): Text
  {
    ['{' as int] + k + [':' as int] + v + [',' as int] + l + [':' as int] + w + ['}' as int]
  }

  lemma MembersWritten(m: Member, n: Member)
    ensures [OPEN_OBJ] + Join([MemberText(m), MemberText(n)]) + [CLOSE_OBJ] == Written(Quoted(m.key), m.text, Quoted(n.key), n.text)
  {
    Joins(MemberText(m), MemberText(n));
    Flattened(Quoted(m.key), m.text, Quoted(n.key), n.text);
  }

  lemma Flattened(k: Text, v: Text, l: Text, w: Text)
    ensures ['{' as int] + ((k + [':' as int] + v) + [',' as int] + (l + [':' as int] + w)) + ['}' as int] == Written(k, v, l, w)
  {
  }

  lemma TwoFields(f: Field, g: Field)
    ensures Canonical(Obj([f, g])) ==
      [OPEN_OBJ] + Join(MemberTexts(Sort(MemberLe, [Member(f.key, Canonical(f.value)), Member(g.key, Canonical(g.value))])))
        + [CLOSE_OBJ]
  {
    var fields := [f, g];
    assert seq(|fields|, i requires 0 <= i < |fields| => Member(fields[i].key, Canonical(fields[i].value)))
        == [Member(f.key, Canonical(f.value)), Member(g.key, Canonical(g.value))];
  }

  lemma SortOne(m: Member)
    ensures Sort(MemberLe, [m]) == [m]
  {
    assert [m][..0] == [];
  }

  lemma InsertTwo(m: Member, n: Member)
    ensures Insert(MemberLe, [m], n) == if MemberLe(m, n) then [m, n] else [n, m]
  {
    assert [m][..0] == [];
    assert Insert(MemberLe, [], n) == [n];
  }

  lemma SortTwo(m: Member, n: Member)
    ensures Sort(MemberLe, [m, n]) == if MemberLe(m, n) then [m, n] else [n, m]
  {
    SortOne(m);
    assert [m, n] == [m] + [n];
    SortOn(MemberLe, [m], n);
    InsertTwo(m, n);
  }

  lemma TwoMembers(m: Member, n: Member)
    requires MemberLe(m, n) && !MemberLe(n, m)
    ensures Sort(MemberLe, [m, n]) == [m, n] == Sort(MemberLe, [n, m])
    ensures MemberTexts([m, n]) == [MemberText(m), MemberText(n)]
  {
    SortTwo(m, n);
    SortTwo(n, m);
  }
}

/** Models `canonical` of server/bootstrap-startup-context.js over JSON values: keys sorted by
    UTF-16 code unit, strings quoted as `JSON.stringify` does (section 7 of RFC 8259). The main
    theorem: two values print the same if and only if they are equal up to object key order. */
module Canonical {

  /** A UTF-16 code unit; a JavaScript string is a sequence of them. */
  newtype Unit = u: int | 0 <= u < 0x10000

  type Text = seq<Unit>

  const QUOTE: Unit := 0x22
  const BACKSLASH: Unit := 0x5C
  const COMMA: Unit := 0x2C
  const COLON: Unit := 0x3A
  const OPEN_BRACKET: Unit := 0x5B
  const CLOSE_BRACKET: Unit := 0x5D
  const OPEN_BRACE: Unit := 0x7B
  const CLOSE_BRACE: Unit := 0x7D
  const MINUS: Unit := 0x2D
  const LETTER_U: Unit := 0x75

  const NULL: Text := [0x6E, 0x75, 0x6C, 0x6C]
  const TRUE: Text := [0x74, 0x72, 0x75, 0x65]
  const FALSE: Text := [0x66, 0x61, 0x6C, 0x73, 0x65]

  /** A JSON value. A number is the text JavaScript prints for it; an object's members are in
      insertion order. */
  datatype Json =
    | Null
    | Bool(b: bool)
    | Number(lexeme: Text)
    | String(text: Text)
    | Array(items: seq<Json>)
    | Object(members: seq<Member>)

  datatype Member = Member(key: Text, value: Json)

  predicate IsDigit(u: Unit) { 0x30 <= u <= 0x39 }

  predicate NumberUnit(u: Unit) {
    IsDigit(u) || u == MINUS || u == 0x2B || u == 0x2E || u == 0x45 || u == 0x65
  }

  predicate NumberLexeme(t: Text) {
    |t| > 0 && (IsDigit(t[0]) || t[0] == MINUS) && forall i :: 0 <= i < |t| ==> NumberUnit(t[i])
  }

  predicate WellFormed(v: Json) {
    match v
    case Number(lexeme) => NumberLexeme(lexeme)
    case Array(items) => forall i :: 0 <= i < |items| ==> WellFormed(items[i])
    case Object(members) =>
      && (forall i, j :: 0 <= i < j < |members| ==> members[i].key != members[j].key)
      && (forall i :: 0 <= i < |members| ==> WellFormed(members[i].value))
    case _ => true
  }

  // ---------------------------------------------------------------- equality up to key order

  /** Equal up to the order of object keys (which are distinct). */
  ghost predicate Same(a: Json, b: Json)
    decreases a, 0
  {
    match a
    case Array(xs) =>
      b.Array? && |b.items| == |xs| && forall i :: 0 <= i < |xs| ==> Same(xs[i], b.items[i])
    case Object(ms) =>
      b.Object? && |b.members| == |ms| && forall i :: 0 <= i < |ms| ==> Listed(ms[i], b.members)
    case _ => a == b
  }

  /** Some member of `ns` has the key of `m` and the same value. */
  ghost predicate Listed(m: Member, ns: seq<Member>)
    decreases m, 1
  {
    exists j :: 0 <= j < |ns| && ns[j].key == m.key && Same(m.value, ns[j].value)
  }

  ghost predicate SameMember(m: Member, n: Member) { m.key == n.key && Same(m.value, n.value) }

  // ---------------------------------------------------------------- printing

  /** Comparison of two keys by code unit, as `Array.prototype.sort` orders strings. */
  predicate Below(a: Text, b: Text) {
    if a == [] then true
    else if b == [] then false
    else a[0] < b[0] || (a[0] == b[0] && Below(a[1..], b[1..]))
  }

  function Size(v: Json): nat {
    match v
    case Array(items) => 1 + SizeItems(items)
    case Object(members) => 1 + SizeMembers(members)
    case _ => 1
  }

  function SizeItems(vs: seq<Json>): nat {
    if vs == [] then 0 else Size(vs[0]) + SizeItems(vs[1..])
  }

  function SizeMember(m: Member): nat { 1 + Size(m.value) }

  function SizeMembers(ms: seq<Member>): nat {
    if ms == [] then 0 else SizeMember(ms[0]) + SizeMembers(ms[1..])
  }

  function Insert(m: Member, ms: seq<Member>): (r: seq<Member>)
    ensures SizeMembers(r) == SizeMember(m) + SizeMembers(ms)
    ensures multiset(r) == multiset{m} + multiset(ms)
  {
    if ms == [] then [m]
    else if Below(m.key, ms[0].key) then [m] + ms
    else
      assert ms == [ms[0]] + ms[1..];
      [ms[0]] + Insert(m, ms[1..])
  }

  function SortByKey(ms: seq<Member>): (r: seq<Member>)
    ensures SizeMembers(r) == SizeMembers(ms)
    ensures multiset(r) == multiset(ms)
  {
    if ms == [] then []
    else
      assert ms == [ms[0]] + ms[1..];
      Insert(ms[0], SortByKey(ms[1..]))
  }

  predicate HighSurrogate(u: Unit) { 0xD800 <= u <= 0xDBFF }
  predicate LowSurrogate(u: Unit) { 0xDC00 <= u <= 0xDFFF }

  function HexDigit(n: int): Unit
    requires 0 <= n < 16
  {
    if n < 10 then (0x30 + n) as Unit else (0x57 + n) as Unit
  }

  function Hex4(u: Unit): (t: Text)
    ensures |t| == 4
  {
    var n := u as int;
    [HexDigit(n / 16 / 16 / 16), HexDigit(n / 16 / 16 % 16), HexDigit(n / 16 % 16), HexDigit(n % 16)]
  }

  function ShortEscape(u: Unit): Unit {
    if u == 8 then 0x62 else if u == 9 then 0x74 else if u == 10 then 0x6E
    else if u == 12 then 0x66 else if u == 13 then 0x72 else u
  }

  predicate HasShortEscape(u: Unit) { u in {8, 9, 10, 12, 13} || u == QUOTE || u == BACKSLASH }

  function Escaped(u: Unit): Text {
    if HasShortEscape(u) then [BACKSLASH, ShortEscape(u)] else [BACKSLASH, LETTER_U] + Hex4(u)
  }

  predicate Plain(u: Unit) {
    u >= 0x20 && u != QUOTE && u != BACKSLASH && !HighSurrogate(u) && !LowSurrogate(u)
  }

  /** The characters between the quotes: a surrogate pair is kept, a lone surrogate is escaped. */
  function QuotedBody(t: Text): Text {
    if t == [] then []
    else if |t| >= 2 && HighSurrogate(t[0]) && LowSurrogate(t[1]) then t[..2] + QuotedBody(t[2..])
    else if Plain(t[0]) then [t[0]] + QuotedBody(t[1..])
    else Escaped(t[0]) + QuotedBody(t[1..])
  }

  function Quoted(t: Text): Text { [QUOTE] + QuotedBody(t) + [QUOTE] }

  /** Texts joined by commas. */
  function Join(ps: seq<Text>): Text {
    if ps == [] then [] else ps[0] + JoinRest(ps[1..])
  }

  function JoinRest(ps: seq<Text>): Text {
    if ps == [] then [] else [COMMA] + (ps[0] + JoinRest(ps[1..]))
  }

  function Wrapped(first: Unit, body: Text, last: Unit): Text { [first] + (body + [last]) }

  function Print(v: Json): Text
    decreases Size(v), 0
  {
    match v
    case Null => NULL
    case Bool(b) => if b then TRUE else FALSE
    case Number(lexeme) => lexeme
    case String(text) => Quoted(text)
    case Array(items) => Wrapped(OPEN_BRACKET, Join(PrintAll(items)), CLOSE_BRACKET)
    case Object(members) => Wrapped(OPEN_BRACE, Join(PrintMembers(SortByKey(members))), CLOSE_BRACE)
  }

  function PrintAll(vs: seq<Json>): (r: seq<Text>)
    ensures |r| == |vs|
    decreases SizeItems(vs), 1
  {
    if vs == [] then [] else [Print(vs[0])] + PrintAll(vs[1..])
  }

  function PrintMember(m: Member): Text
    decreases SizeMember(m), 0
  {
    Quoted(m.key) + ([COLON] + Print(m.value))
  }

  function PrintMembers(ms: seq<Member>): (r: seq<Text>)
    ensures |r| == |ms|
    decreases SizeMembers(ms), 1
  {
    if ms == [] then [] else [PrintMember(ms[0])] + PrintMembers(ms[1..])
  }

  lemma {:induction false} PrintAllAt(vs: seq<Json>, i: nat)
    requires i < |vs|
    ensures PrintAll(vs)[i] == Print(vs[i]) && Size(vs[i]) <= SizeItems(vs)
  {
    if i > 0 { PrintAllAt(vs[1..], i - 1); }
  }

  lemma {:induction false} PrintMembersAt(ms: seq<Member>, i: nat)
    requires i < |ms|
    ensures PrintMembers(ms)[i] == PrintMember(ms[i]) && SizeMember(ms[i]) <= SizeMembers(ms)
  {
    if i > 0 { PrintMembersAt(ms[1..], i - 1); }
  }

  // ---------------------------------------------------------------- reading quoted text back

  lemma HexDigitInjective(m: int, n: int)
    requires 0 <= m < 16 && 0 <= n < 16 && HexDigit(m) == HexDigit(n)
    ensures m == n
  {
  }

  lemma Hex4Injective(u: Unit, v: Unit)
    requires Hex4(u) == Hex4(v)
    ensures u == v
  {
    var a, b := u as int, v as int;
    assert Hex4(u)[0] == Hex4(v)[0] && Hex4(u)[1] == Hex4(v)[1];
    assert Hex4(u)[2] == Hex4(v)[2] && Hex4(u)[3] == Hex4(v)[3];
    HexDigitInjective(a / 16 / 16 / 16, b / 16 / 16 / 16);
    HexDigitInjective(a / 16 / 16 % 16, b / 16 / 16 % 16);
    HexDigitInjective(a / 16 % 16, b / 16 % 16);
    HexDigitInjective(a % 16, b % 16);
  }

  lemma EscapedUnique(u: Unit, v: Unit, s: Text, t: Text)
    requires !Plain(u) && !Plain(v) && Escaped(u) + s == Escaped(v) + t
    ensures u == v && s == t
  {
    var x, y := Escaped(u) + s, Escaped(v) + t;
    assert x[1] == Escaped(u)[1] && y[1] == Escaped(v)[1];
    assert HasShortEscape(u) == HasShortEscape(v);
    if HasShortEscape(u) {
      assert x[2..] == s && y[2..] == t;
    } else {
      assert x[2..6] == Hex4(u) && y[2..6] == Hex4(v);
      Hex4Injective(u, v);
      assert x[6..] == s && y[6..] == t;
    }
  }

  /** One step of reading `t` back: how many units the first token takes, and what it prints. */
  function Take(t: Text): (n: nat)
    requires t != []
    ensures 1 <= n <= |t|
  {
    if |t| >= 2 && HighSurrogate(t[0]) && LowSurrogate(t[1]) then 2 else 1
  }

  function Token(t: Text): (r: Text)
    requires t != []
    ensures r != []
  {
    if Take(t) == 2 then t[..2] else if Plain(t[0]) then [t[0]] else Escaped(t[0])
  }

  lemma TokenUnique(a: Text, b: Text, s: Text, t: Text)
    requires a != [] && b != [] && Token(a) + s == Token(b) + t
    ensures Take(a) == Take(b) && a[..Take(a)] == b[..Take(b)] && s == t
  {
    var x, y := Token(a) + s, Token(b) + t;
    assert x[0] == Token(a)[0] && y[0] == Token(b)[0];
    if x[0] == BACKSLASH {
      EscapedUnique(a[0], b[0], s, t);
    } else if HighSurrogate(x[0]) {
      assert x[1] == a[1] && y[1] == b[1] && x[2..] == s && y[2..] == t;
    } else {
      assert x[1..] == s && y[1..] == t;
    }
  }

  /** The rest of a printed string: `t` quoted, the closing quote, and what follows. */
  function Closed(t: Text, s: Text): Text { QuotedBody(t) + ([QUOTE] + s) }

  lemma ClosedEmpty(s: Text)
    ensures Closed([], s)[0] == QUOTE && Closed([], s)[1..] == s
  {
  }

  lemma ClosedStep(t: Text, s: Text)
    requires t != []
    ensures Closed(t, s) == Token(t) + Closed(t[Take(t)..], s)
    ensures Closed(t, s)[0] == Token(t)[0] != QUOTE
  {
  }

  lemma {:induction false} QuotedUnique(a: Text, b: Text, s: Text, t: Text)
    requires Closed(a, s) == Closed(b, t)
    ensures a == b && s == t
    decreases |a|
  {
    if a == [] || b == [] {
      ClosedEmpty(s);
      ClosedEmpty(t);
      if a != [] { ClosedStep(a, s); }
      if b != [] { ClosedStep(b, t); }
    } else {
      ClosedStep(a, s);
      ClosedStep(b, t);
      var n := Take(a);
      TokenUnique(a, b, Closed(a[n..], s), Closed(b[Take(b)..], t));
      QuotedUnique(a[n..], b[n..], s, t);
      assert a == a[..n] + a[n..] && b == b[..n] + b[n..];
    }
  }

  lemma QuotedPrefix(a: Text, b: Text, s: Text, t: Text)
    requires Quoted(a) + s == Quoted(b) + t
    ensures a == b && s == t
  {
    assert (Quoted(a) + s)[1..] == Closed(a, s);
    assert (Quoted(b) + t)[1..] == Closed(b, t);
    QuotedUnique(a, b, s, t);
  }

  // ---------------------------------------------------------------- telling texts apart

  /** What may follow a value inside a printed text. */
  predicate Follows(t: Text) { t == [] || Closing(t[0]) }

  predicate Closing(u: Unit) { u == COMMA || u == CLOSE_BRACKET || u == CLOSE_BRACE }

  /** Whatever may follow them, the two texts are told apart. */
  ghost predicate Apart(p: Text, q: Text) {
    forall u, v :: Follows(u) && Follows(v) && p + u == q + v ==> p == q
  }

  predicate Starts(p: Text) { p != [] && !Closing(p[0]) }

  lemma ApartCancels(p: Text, q: Text, u: Text, v: Text)
    requires Apart(p, q) && Follows(u) && Follows(v) && p + u == q + v
    ensures p == q && u == v
  {
    assert (p + u)[|p|..] == u && (q + v)[|q|..] == v;
  }

  lemma {:induction false} JoinRestUnique(ps: seq<Text>, qs: seq<Text>, s: Text, t: Text)
    requires forall i :: 0 <= i < |ps| && i < |qs| ==> Apart(ps[i], qs[i])
    requires s != [] && t != [] && Closing(s[0]) && Closing(t[0]) && s[0] != COMMA && t[0] != COMMA
    requires JoinRest(ps) + s == JoinRest(qs) + t
    ensures ps == qs && s == t
    decreases |ps|
  {
    assert (JoinRest(ps) + s)[0] == COMMA <==> ps != [];
    assert (JoinRest(qs) + t)[0] == COMMA <==> qs != [];
    if ps != [] {
      var u, v := JoinRest(ps[1..]) + s, JoinRest(qs[1..]) + t;
      assert (JoinRest(ps) + s)[1..] == ps[0] + u && (JoinRest(qs) + t)[1..] == qs[0] + v;
      ApartCancels(ps[0], qs[0], u, v);
      JoinRestUnique(ps[1..], qs[1..], s, t);
      assert ps == [ps[0]] + ps[1..] && qs == [qs[0]] + qs[1..];
    } else {
      assert JoinRest(ps) + s == s && JoinRest(qs) + t == t;
    }
  }

  lemma JoinUnique(ps: seq<Text>, qs: seq<Text>, s: Text, t: Text)
    requires forall i :: 0 <= i < |ps| && i < |qs| ==> Apart(ps[i], qs[i])
    requires forall i :: 0 <= i < |ps| ==> Starts(ps[i])
    requires forall i :: 0 <= i < |qs| ==> Starts(qs[i])
    requires s != [] && t != [] && Closing(s[0]) && Closing(t[0]) && s[0] != COMMA && t[0] != COMMA
    requires Join(ps) + s == Join(qs) + t
    ensures ps == qs && s == t
  {
    assert Closing((Join(ps) + s)[0]) <==> ps == [];
    assert Closing((Join(qs) + t)[0]) <==> qs == [];
    if ps != [] {
      var u, v := JoinRest(ps[1..]) + s, JoinRest(qs[1..]) + t;
      assert Join(ps) + s == ps[0] + u && Join(qs) + t == qs[0] + v;
      ApartCancels(ps[0], qs[0], u, v);
      JoinRestUnique(ps[1..], qs[1..], s, t);
      assert ps == [ps[0]] + ps[1..] && qs == [qs[0]] + qs[1..];
    } else {
      assert Join(ps) + s == s && Join(qs) + t == t;
    }
  }

  lemma FirstsApart(p: Text, q: Text)
    requires p != [] && q != [] && p[0] != q[0]
    ensures Apart(p, q)
  {
    forall u, v ensures p + u != q + v {
      assert (p + u)[0] == p[0] && (q + v)[0] == q[0];
    }
  }

  lemma WrappedApart(first: Unit, last: Unit, ps: seq<Text>, qs: seq<Text>)
    requires forall i :: 0 <= i < |ps| && i < |qs| ==> Apart(ps[i], qs[i])
    requires forall i :: 0 <= i < |ps| ==> Starts(ps[i])
    requires forall i :: 0 <= i < |qs| ==> Starts(qs[i])
    requires Closing(last) && last != COMMA
    ensures Apart(Wrapped(first, Join(ps), last), Wrapped(first, Join(qs), last))
    ensures Wrapped(first, Join(ps), last) == Wrapped(first, Join(qs), last) ==> ps == qs
  {
    var p, q := Wrapped(first, Join(ps), last), Wrapped(first, Join(qs), last);
    forall u, v | p + u == q + v ensures ps == qs {
      assert (p + u)[1..] == Join(ps) + ([last] + u);
      assert (q + v)[1..] == Join(qs) + ([last] + v);
      JoinUnique(ps, qs, [last] + u, [last] + v);
    }
    if p == q { assert p + [] == q + []; }
  }

  lemma KeyedApart(k: Text, l: Text, p: Text, q: Text)
    requires Apart(p, q)
    ensures Apart(Quoted(k) + ([COLON] + p), Quoted(l) + ([COLON] + q))
    ensures Quoted(k) + ([COLON] + p) == Quoted(l) + ([COLON] + q) ==> k == l && p == q
  {
    var x, y := Quoted(k) + ([COLON] + p), Quoted(l) + ([COLON] + q);
    forall u, v | Follows(u) && Follows(v) && x + u == y + v ensures k == l && p == q {
      var s, t := [COLON] + (p + u), [COLON] + (q + v);
      assert x + u == Quoted(k) + s && y + v == Quoted(l) + t;
      QuotedPrefix(k, l, s, t);
      assert s[1..] == p + u && t[1..] == q + v;
    }
    if x == y { assert x + [] == y + []; }
  }

  // ---------------------------------------------------------------- printing is injective

  function FirstUnit(v: Json): (u: Unit)
    requires WellFormed(v)
    ensures !Closing(u)
  {
    match v
    case Null => 0x6E
    case Bool(b) => if b then 0x74 else 0x66
    case Number(lexeme) => lexeme[0]
    case String(_) => QUOTE
    case Array(_) => OPEN_BRACKET
    case Object(_) => OPEN_BRACE
  }

  lemma PrintStarts(v: Json)
    requires WellFormed(v)
    ensures Print(v) != [] && Print(v)[0] == FirstUnit(v)
  {
  }

  lemma SameKind(a: Json, b: Json)
    requires WellFormed(a) && WellFormed(b) && FirstUnit(a) == FirstUnit(b)
    ensures match a
            case Null => b.Null?
            case Bool(_) => a == b
            case Number(_) => b.Number?
            case String(_) => b.String?
            case Array(_) => b.Array?
            case Object(_) => b.Object?
  {
  }

  lemma NumbersApart(a: Text, b: Text)
    requires NumberLexeme(a) && NumberLexeme(b)
    ensures Apart(a, b)
  {
    forall s, t | Follows(s) && Follows(t) && a + s == b + t ensures a == b {
      var x := a + s;
      assert x[..|a|] == a && x[..|b|] == b && x[|a|..] == s && x[|b|..] == t;
    }
  }

  lemma StringsApart(a: Text, b: Text)
    ensures Apart(Quoted(a), Quoted(b))
  {
    forall s, t | Follows(s) && Follows(t) && Quoted(a) + s == Quoted(b) + t ensures Quoted(a) == Quoted(b) {
      QuotedPrefix(a, b, s, t);
    }
  }

  predicate AllWellFormed(ms: seq<Member>) { forall i :: 0 <= i < |ms| ==> WellFormed(ms[i].value) }

  /** Two printed values are told apart whatever follows, and equal prints mean equal values. */
  lemma {:induction false} PrintInjective(a: Json, b: Json)
    requires WellFormed(a) && WellFormed(b)
    ensures Apart(Print(a), Print(b))
    ensures Print(a) == Print(b) ==> Same(a, b)
    decreases Size(a), 0
  {
    PrintStarts(a);
    PrintStarts(b);
    if FirstUnit(a) != FirstUnit(b) {
      FirstsApart(Print(a), Print(b));
    } else {
      SameKind(a, b);
      match a
      case Number(lexeme) => NumbersApart(lexeme, b.lexeme);
      case String(text) =>
        StringsApart(text, b.text);
        if Print(a) == Print(b) { QuotedPrefix(text, b.text, [], []); }
      case Array(items) => ArraysInjective(items, b.items);
      case Object(members) => ObjectsInjective(members, b.members);
      case _ =>
    }
  }

  lemma {:induction false} ArraysInjective(xs: seq<Json>, ys: seq<Json>)
    requires WellFormed(Array(xs)) && WellFormed(Array(ys))
    ensures Apart(Print(Array(xs)), Print(Array(ys)))
    ensures Print(Array(xs)) == Print(Array(ys)) ==> Same(Array(xs), Array(ys))
    decreases SizeItems(xs), 1
  {
    var ps, qs := PrintAll(xs), PrintAll(ys);
    forall i | 0 <= i < |ps| ensures Starts(ps[i]) { PrintAllAt(xs, i); PrintStarts(xs[i]); }
    forall i | 0 <= i < |qs| ensures Starts(qs[i]) { PrintAllAt(ys, i); PrintStarts(ys[i]); }
    forall i | 0 <= i < |ps| && i < |qs|
      ensures Apart(ps[i], qs[i]) && (ps[i] == qs[i] ==> Same(xs[i], ys[i]))
    {
      PrintAllAt(xs, i);
      PrintAllAt(ys, i);
      PrintInjective(xs[i], ys[i]);
    }
    WrappedApart(OPEN_BRACKET, CLOSE_BRACKET, ps, qs);
  }

  lemma {:induction false} MembersInjective(m: Member, n: Member)
    requires WellFormed(m.value) && WellFormed(n.value)
    ensures Starts(PrintMember(m)) && Starts(PrintMember(n)) && Apart(PrintMember(m), PrintMember(n))
    ensures PrintMember(m) == PrintMember(n) ==> SameMember(m, n)
    decreases SizeMember(m), 0
  {
    PrintInjective(m.value, n.value);
    KeyedApart(m.key, n.key, Print(m.value), Print(n.value));
  }

  lemma {:induction false} MemberListsInjective(xs: seq<Member>, ys: seq<Member>)
    requires AllWellFormed(xs) && AllWellFormed(ys)
    ensures var p := Wrapped(OPEN_BRACE, Join(PrintMembers(xs)), CLOSE_BRACE);
            var q := Wrapped(OPEN_BRACE, Join(PrintMembers(ys)), CLOSE_BRACE);
            Apart(p, q) && (p == q ==> |xs| == |ys| && forall i :: 0 <= i < |xs| ==> SameMember(xs[i], ys[i]))
    decreases SizeMembers(xs), 1
  {
    var ps, qs := PrintMembers(xs), PrintMembers(ys);
    forall i | 0 <= i < |ps| ensures Starts(ps[i]) { PrintMembersAt(xs, i); }
    forall i | 0 <= i < |qs| ensures Starts(qs[i]) { PrintMembersAt(ys, i); }
    forall i | 0 <= i < |ps| && i < |qs|
      ensures Apart(ps[i], qs[i]) && (ps[i] == qs[i] ==> SameMember(xs[i], ys[i]))
    {
      PrintMembersAt(xs, i);
      PrintMembersAt(ys, i);
      MembersInjective(xs[i], ys[i]);
    }
    WrappedApart(OPEN_BRACE, CLOSE_BRACE, ps, qs);
  }

  lemma {:induction false} ObjectsInjective(ms: seq<Member>, ns: seq<Member>)
    requires WellFormed(Object(ms)) && WellFormed(Object(ns))
    ensures Apart(Print(Object(ms)), Print(Object(ns)))
    ensures Print(Object(ms)) == Print(Object(ns)) ==> Same(Object(ms), Object(ns))
    decreases SizeMembers(ms), 2
  {
    SortKeepsWellFormed(ms);
    SortKeepsWellFormed(ns);
    MemberListsInjective(SortByKey(ms), SortByKey(ns));
    if Print(Object(ms)) == Print(Object(ns)) { SameFromSorted(ms, ns); }
  }

  lemma {:induction false} SortKeepsWellFormed(ms: seq<Member>)
    requires AllWellFormed(ms)
    ensures AllWellFormed(SortByKey(ms))
  {
    SortKeepsMembers(ms);
    var xs := SortByKey(ms);
    forall i | 0 <= i < |xs| ensures WellFormed(xs[i].value) { assert xs[i] in ms; }
  }

  lemma {:induction false} SortKeepsMembers(ms: seq<Member>)
    ensures |SortByKey(ms)| == |ms|
    ensures forall m :: m in SortByKey(ms) <==> m in ms
  {
    assert |multiset(ms)| == |multiset(SortByKey(ms))|;
    forall m ensures m in SortByKey(ms) <==> m in ms {
      assert m in SortByKey(ms) <==> m in multiset(SortByKey(ms));
      assert m in ms <==> m in multiset(ms);
    }
  }

  lemma {:induction false} SameFromSorted(ms: seq<Member>, ns: seq<Member>)
    requires var xs, ys := SortByKey(ms), SortByKey(ns);
             |xs| == |ys| && forall i :: 0 <= i < |xs| ==> SameMember(xs[i], ys[i])
    ensures Same(Object(ms), Object(ns))
  {
    var xs, ys := SortByKey(ms), SortByKey(ns);
    SortKeepsMembers(ms);
    SortKeepsMembers(ns);
    forall i | 0 <= i < |ms| ensures Listed(ms[i], ns) {
      assert ms[i] in xs;
      var k :| 0 <= k < |xs| && xs[k] == ms[i];
      assert SameMember(xs[k], ys[k]) && ys[k] in ns;
      var j :| 0 <= j < |ns| && ns[j] == ys[k];
    }
  }

  // ---------------------------------------------------------------- printing ignores key order

  lemma BelowTotal(a: Text, b: Text)
    ensures Below(a, b) || Below(b, a)
    ensures Below(a, b) && Below(b, a) ==> a == b
  {
    if a != [] && b != [] && a[0] == b[0] {
      BelowTotal(a[1..], b[1..]);
      assert a == [a[0]] + a[1..] && b == [b[0]] + b[1..];
    }
  }

  lemma BelowTransitive(a: Text, b: Text, c: Text)
    requires Below(a, b) && Below(b, c)
    ensures Below(a, c)
  {
  }

  predicate Sorted(ms: seq<Member>) {
    forall i, j :: 0 <= i < j < |ms| ==> Below(ms[i].key, ms[j].key)
  }

  lemma {:induction false} InsertSorted(m: Member, ms: seq<Member>)
    requires Sorted(ms)
    ensures Sorted(Insert(m, ms))
    decreases |ms|
  {
    if ms == [] {
    } else if Below(m.key, ms[0].key) {
      forall j | 0 <= j < |ms| ensures Below(m.key, ms[j].key) {
        if j > 0 { BelowTransitive(m.key, ms[0].key, ms[j].key); }
      }
    } else {
      BelowTotal(m.key, ms[0].key);
      InsertSorted(m, ms[1..]);
      var r := Insert(m, ms[1..]);
      forall j | 0 <= j < |r| ensures Below(ms[0].key, r[j].key) {
        assert r[j] in multiset(r);
        assert r[j] == m || r[j] in multiset(ms[1..]);
        if r[j] != m { var k :| 0 <= k < |ms[1..]| && ms[1..][k] == r[j]; assert ms[k+1] == r[j]; }
      }
    }
  }

  lemma {:induction false} SortSorts(ms: seq<Member>)
    ensures Sorted(SortByKey(ms))
    decreases |ms|
  {
    if ms != [] {
      SortSorts(ms[1..]);
      InsertSorted(ms[0], SortByKey(ms[1..]));
    }
  }

  predicate DistinctKeys(ms: seq<Member>) {
    forall i, j :: 0 <= i < j < |ms| ==> ms[i].key != ms[j].key
  }

  ghost function Keys(ms: seq<Member>): set<Text> { set m | m in ms :: m.key }

  lemma KeyIn(ms: seq<Member>, i: nat)
    requires i < |ms|
    ensures ms[i].key in Keys(ms)
  {
    assert ms[i] in ms;
  }

  lemma {:induction false} DistinctCount(ms: seq<Member>)
    ensures |Keys(ms)| <= |ms|
    ensures DistinctKeys(ms) <==> |Keys(ms)| == |ms|
    decreases |ms|
  {
    if ms == [] {
    } else {
      var rest := ms[1..];
      DistinctCount(rest);
      assert ms == [ms[0]] + rest;
      assert Keys(ms) == Keys(rest) + {ms[0].key};
      assert DistinctKeys(ms) <==> DistinctKeys(rest) && ms[0].key !in Keys(rest) by {
        if DistinctKeys(ms) {
          forall i, j | 0 <= i < j < |rest| ensures rest[i].key != rest[j].key { assert ms[i+1].key != ms[j+1].key; }
        }
        if ms[0].key !in Keys(rest) {
          forall j | 1 <= j < |ms| ensures ms[0].key != ms[j].key { KeyIn(rest, j - 1); }
        }
      }
    }
  }

  lemma FirstKeysAgree(xs: seq<Member>, ys: seq<Member>)
    requires xs != [] && ys != [] && Sorted(xs) && Sorted(ys) && Keys(xs) == Keys(ys)
    ensures xs[0].key == ys[0].key
  {
    KeyIn(xs, 0);
    KeyIn(ys, 0);
    var k :| 0 <= k < |ys| && ys[k].key == xs[0].key;
    var l :| 0 <= l < |xs| && xs[l].key == ys[0].key;
    BelowTotal(xs[0].key, ys[0].key);
  }

  lemma KeysOfRest(xs: seq<Member>)
    requires xs != [] && DistinctKeys(xs)
    ensures Keys(xs[1..]) == Keys(xs) - {xs[0].key}
  {
    assert xs == [xs[0]] + xs[1..];
    forall m | m in xs[1..] ensures m.key != xs[0].key {
      var i :| 0 <= i < |xs[1..]| && xs[1..][i] == m;
      assert xs[i+1] == m;
    }
  }

  /** Two sorted member lists with the same distinct keys list them in the same order. */
  lemma {:induction false} SortedKeysAgree(xs: seq<Member>, ys: seq<Member>)
    requires Sorted(xs) && Sorted(ys) && DistinctKeys(xs) && DistinctKeys(ys) && Keys(xs) == Keys(ys)
    ensures |xs| == |ys| && forall i :: 0 <= i < |xs| ==> xs[i].key == ys[i].key
    decreases |xs|
  {
    DistinctCount(xs);
    DistinctCount(ys);
    if xs != [] {
      FirstKeysAgree(xs, ys);
      KeysOfRest(xs);
      KeysOfRest(ys);
      SortedKeysAgree(xs[1..], ys[1..]);
      assert forall i :: 1 <= i < |xs| ==> xs[i] == xs[1..][i-1] && ys[i] == ys[1..][i-1];
    }
  }

  lemma {:induction false} SamePrints(a: Json, b: Json)
    requires WellFormed(a) && WellFormed(b) && Same(a, b)
    ensures Print(a) == Print(b)
    decreases Size(a), 0
  {
    match a
    case Array(items) =>
      forall i | 0 <= i < |items| ensures PrintAll(items)[i] == PrintAll(b.items)[i] {
        PrintAllAt(items, i);
        PrintAllAt(b.items, i);
        SamePrints(items[i], b.items[i]);
      }
      assert PrintAll(items) == PrintAll(b.items);
    case Object(members) =>
      var xs, ys := SortByKey(members), SortByKey(b.members);
      SortedMembersSame(members, b.members);
      forall i | 0 <= i < |xs| ensures PrintMembers(xs)[i] == PrintMembers(ys)[i] {
        PrintMembersAt(xs, i);
        PrintMembersAt(ys, i);
        SamePrints(xs[i].value, ys[i].value);
      }
      assert PrintMembers(xs) == PrintMembers(ys);
    case _ =>
  }

  lemma {:induction false} SameKeys(ms: seq<Member>, ns: seq<Member>)
    requires DistinctKeys(ms) && DistinctKeys(ns) && |ms| == |ns|
    requires forall i :: 0 <= i < |ms| ==> Listed(ms[i], ns)
    ensures Keys(ms) == Keys(ns)
  {
    forall k | k in Keys(ms) ensures k in Keys(ns) {
      var i :| 0 <= i < |ms| && ms[i].key == k;
      assert Listed(ms[i], ns);
      var j :| 0 <= j < |ns| && ns[j].key == ms[i].key;
      KeyIn(ns, j);
    }
    DistinctCount(ms);
    DistinctCount(ns);
    SubsetOfEqualSize(Keys(ms), Keys(ns));
  }

  lemma SubsetOfEqualSize(a: set<Text>, b: set<Text>)
    requires a <= b && |a| == |b|
    ensures a == b
  {
    assert b == a + (b - a);
    assert |b - a| == 0;
  }

  lemma {:induction false} SortKeepsKeys(ms: seq<Member>)
    requires DistinctKeys(ms)
    ensures Keys(SortByKey(ms)) == Keys(ms) && DistinctKeys(SortByKey(ms))
  {
    SortKeepsMembers(ms);
    DistinctCount(ms);
    DistinctCount(SortByKey(ms));
  }

  lemma {:induction false} SortedMembersSame(ms: seq<Member>, ns: seq<Member>)
    requires WellFormed(Object(ms)) && WellFormed(Object(ns)) && Same(Object(ms), Object(ns))
    ensures var xs, ys := SortByKey(ms), SortByKey(ns);
            && AllWellFormed(xs) && AllWellFormed(ys) && |xs| == |ys|
            && forall i :: 0 <= i < |xs| ==> SameMember(xs[i], ys[i])
  {
    var xs, ys := SortByKey(ms), SortByKey(ns);
    SortKeepsMembers(ms);
    SortKeepsMembers(ns);
    SortSorts(ms);
    SortSorts(ns);
    SameKeys(ms, ns);
    SortKeepsKeys(ms);
    SortKeepsKeys(ns);
    SortedKeysAgree(xs, ys);
    forall i | 0 <= i < |xs| ensures SameMember(xs[i], ys[i]) {
      assert xs[i] in ms && ys[i] in ns;
      var p :| 0 <= p < |ms| && ms[p] == xs[i];
      var q :| 0 <= q < |ns| && ns[q] == ys[i];
      assert Listed(ms[p], ns);
      var j :| 0 <= j < |ns| && ns[j].key == ms[p].key && Same(ms[p].value, ns[j].value);
      assert j == q;
    }
    forall i | 0 <= i < |xs| ensures WellFormed(xs[i].value) { assert xs[i] in ms; }
    forall i | 0 <= i < |ys| ensures WellFormed(ys[i].value) { assert ys[i] in ns; }
  }

  /** `canonical` is a faithful normal form: two JSON values print the same if and only if they
      are equal up to object key order. */
  lemma CanonicalIsFaithful(a: Json, b: Json)
    requires WellFormed(a) && WellFormed(b)
    ensures Print(a) == Print(b) <==> Same(a, b)
  {
    PrintInjective(a, b);
    if Same(a, b) { SamePrints(a, b); }
  }
}

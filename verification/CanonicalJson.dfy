/** The canonical JSON printer behind the command body hash, over UTF-16 code units. */
module CanonicalJson {

  type Unit = u: int | 0 <= u < 0x1_0000
  type Text = seq<Unit>

  /** An ASCII literal as code units. */
  function Ascii(s: string): Text
    requires forall i | 0 <= i < |s| :: s[i] as int < 128
  {
    seq(|s|, i requires 0 <= i < |s| => s[i] as int)
  }

  const QUOTE: Unit := 34
  const COMMA: Unit := 44
  const COLON: Unit := 58
  const OPEN_ARR: Unit := 91
  const BACKSLASH: Unit := 92
  const CLOSE_ARR: Unit := 93
  const OPEN_OBJ: Unit := 123
  const CLOSE_OBJ: Unit := 125
  const LETTER_U: Unit := 117

  /** The printed form of a finite number: it starts with a digit or a minus sign and has no JSON punctuation. */
  predicate IsNumberText(t: Text) {
    && t != [] && (t[0] == 45 || 48 <= t[0] <= 57)
    && forall i | 0 <= i < |t| :: 48 <= t[i] <= 57 || t[i] in {43, 45, 46, 101}
  }

  type NumberText = t: Text | IsNumberText(t) witness [48]

  /**
   * A finite JSON value as the program holds it; a number is given by the text it prints as (distinct
   * finite numbers print differently, but for the two zeros). Fields are in insertion order.
   */
  datatype Value =
    | Null
    | Undefined
    | Bool(b: bool)
    | Num(text: NumberText)
    | Str(s: Text)
    | Arr(items: Items)
    | Obj(fields: Fields)

  datatype Items = NoItems | Item(first: Value, others: Items)

  datatype Fields = NoFields | Field(key: Text, val: Value, others: Fields)

  function Keys(fields: Fields): set<Text> {
    if fields.NoFields? then {} else {fields.key} + Keys(fields.others)
  }

  /** An object has each key once. */
  predicate DistinctKeys(v: Value) {
    match v
    case Arr(items) => DistinctInItems(items)
    case Obj(fields) => DistinctInFields(fields)
    case _ => true
  }

  predicate DistinctInItems(items: Items) {
    items.NoItems? || (DistinctKeys(items.first) && DistinctInItems(items.others))
  }

  predicate DistinctInFields(fields: Fields) {
    fields.NoFields?
    || (fields.key !in Keys(fields.others) && DistinctKeys(fields.val) && DistinctInFields(fields.others))
  }

  // ---------------------------------------------------------------------------------------------
  // Strings
  // ---------------------------------------------------------------------------------------------

  predicate IsHigh(u: Unit) { 0xD800 <= u <= 0xDBFF }
  predicate IsLow(u: Unit) { 0xDC00 <= u <= 0xDFFF }

  function HexDigit(d: int): Unit
    requires 0 <= d < 16
  {
    if d < 10 then 48 + d else 87 + d
  }

  function HexEscape(u: Unit): Text {
    [BACKSLASH, LETTER_U, HexDigit(u / 4096), HexDigit(u / 256 % 16), HexDigit(u / 16 % 16), HexDigit(u % 16)]
  }

  /** How JSON.stringify prints one code unit that is not half of a surrogate pair. */
  function EscapeUnit(u: Unit): Text {
    if u == QUOTE then [BACKSLASH, QUOTE]
    else if u == BACKSLASH then [BACKSLASH, BACKSLASH]
    else if u == 8 then [BACKSLASH, 98]
    else if u == 9 then [BACKSLASH, 116]
    else if u == 10 then [BACKSLASH, 110]
    else if u == 12 then [BACKSLASH, 102]
    else if u == 13 then [BACKSLASH, 114]
    else if u < 32 || IsHigh(u) || IsLow(u) then HexEscape(u)
    else [u]
  }

  function Escape(s: Text): Text {
    if s == [] then []
    else if |s| > 1 && IsHigh(s[0]) && IsLow(s[1]) then s[..2] + Escape(s[2..])
    else EscapeUnit(s[0]) + Escape(s[1..])
  }

  function Quoted(s: Text): Text {
    [QUOTE] + Escape(s) + [QUOTE]
  }

  function HexValue(u: Unit): int {
    if u < 58 then u - 48 else u - 87
  }

  /** The code unit at the start of an escaped text, and how many units of text it takes. */
  function DecodeUnit(t: Text): (Unit, nat)
    requires t != []
  {
    if t[0] != BACKSLASH || |t| < 2 then (t[0], 1)
    else if t[1] == 98 then (8, 2)
    else if t[1] == 116 then (9, 2)
    else if t[1] == 110 then (10, 2)
    else if t[1] == 102 then (12, 2)
    else if t[1] == 114 then (13, 2)
    else if t[1] == LETTER_U && |t| >= 6 then
      var v := HexValue(t[2]) * 4096 + HexValue(t[3]) * 256 + HexValue(t[4]) * 16 + HexValue(t[5]);
      (if 0 <= v < 0x1_0000 then v else 0, 6)
    else (t[1], 2)
  }

  /** Reads an escaped text up to the first unescaped quote: what it stands for, and what follows the quote. */
  function Decode(t: Text): (Text, Text)
    decreases |t|
  {
    if t == [] then ([], [])
    else if t[0] == QUOTE then ([], t[1..])
    else
      var (u, n) := DecodeUnit(t);
      if n > |t| then ([], [])
      else
        var (s, rest) := Decode(t[n..]);
        ([u] + s, rest)
  }

  lemma HexDigits(u: Unit)
    ensures u == u / 4096 * 4096 + u / 256 % 16 * 256 + u / 16 % 16 * 16 + u % 16
    ensures 0 <= u / 4096 < 16
  {
    assert u / 256 == u / 4096 * 16 + u / 256 % 16;
    assert u / 16 == u / 256 * 16 + u / 16 % 16;
  }

  lemma DecodeHex(u: Unit, rest: Text)
    ensures DecodeUnit(HexEscape(u) + rest) == (u, 6)
  {
    HexDigits(u);
    var t := HexEscape(u) + rest;
    assert t[0] == BACKSLASH && t[1] == LETTER_U && |t| >= 6;
    assert HexValue(t[2]) == u / 4096 && HexValue(t[3]) == u / 256 % 16;
    assert HexValue(t[4]) == u / 16 % 16 && HexValue(t[5]) == u % 16;
  }

  lemma DecodeEscapedUnit(u: Unit, rest: Text)
    ensures EscapeUnit(u) != [] && EscapeUnit(u)[0] != QUOTE
    ensures DecodeUnit(EscapeUnit(u) + rest) == (u, |EscapeUnit(u)|)
  {
    hide HexEscape;
    var e := EscapeUnit(u);
    if e == HexEscape(u) {
      DecodeHex(u, rest);
      HexEscapeShape(u);
    } else if |e| == 2 {
      assert (e + rest)[0] == BACKSLASH && (e + rest)[1] == e[1];
    } else {
      assert (e + rest)[0] == u;
    }
  }

  lemma HexEscapeShape(u: Unit)
    ensures |HexEscape(u)| == 6 && HexEscape(u)[0] == BACKSLASH
  {
  }

  lemma DecodeStep(e: Text, t: Text, u: Unit)
    requires e != [] && e[0] != QUOTE && DecodeUnit(e + t) == (u, |e|)
    ensures Decode(e + t) == ([u] + Decode(t).0, Decode(t).1)
  {
    assert (e + t)[|e|..] == t;
  }

  /** Quoting loses nothing: the reader gets the string and the following text back. */
  lemma {:induction false} DecodeEscape(s: Text, rest: Text)
    ensures Decode(Escape(s) + ([QUOTE] + rest)) == (s, rest)
    decreases |s|
  {
    hide DecodeUnit, EscapeUnit;
    if s == [] {
      assert Escape(s) + ([QUOTE] + rest) == [QUOTE] + rest;
    } else if |s| > 1 && IsHigh(s[0]) && IsLow(s[1]) {
      hide Decode, Escape;
      DecodeEscape(s[2..], rest);
      EscapePair(s, rest);
      DecodePair(s[0], s[1], Escape(s[2..]) + ([QUOTE] + rest));
      assert s == [s[0]] + ([s[1]] + s[2..]);
    } else {
      hide Decode, Escape;
      DecodeEscape(s[1..], rest);
      EscapeOne(s, rest);
      DecodeEscapedUnit(s[0], Escape(s[1..]) + ([QUOTE] + rest));
      DecodeStep(EscapeUnit(s[0]), Escape(s[1..]) + ([QUOTE] + rest), s[0]);
      assert s == [s[0]] + s[1..];
    }
  }

  /** A surrogate pair is printed raw, unit by unit. */
  lemma DecodePair(high: Unit, low: Unit, t: Text)
    requires IsHigh(high) && IsLow(low)
    ensures Decode([high] + ([low] + t)) == ([high] + ([low] + Decode(t).0), Decode(t).1)
  {
    hide DecodeUnit, Decode;
    RawUnit(low, t);
    DecodeStep([low], t, low);
    RawUnit(high, [low] + t);
    DecodeStep([high], [low] + t, high);
  }

  lemma EscapePair(s: Text, rest: Text)
    requires |s| > 1 && IsHigh(s[0]) && IsLow(s[1])
    ensures Escape(s) + ([QUOTE] + rest) == [s[0]] + ([s[1]] + (Escape(s[2..]) + ([QUOTE] + rest)))
  {
    assert s[..2] == [s[0], s[1]];
    Regroup(s[0], s[1], Escape(s[2..]), [QUOTE] + rest);
    hide Escape;
  }

  lemma Regroup(a: Unit, b: Unit, t: Text, u: Text)
    ensures [a, b] + t + u == [a] + ([b] + (t + u))
  {
  }

  lemma EscapeOne(s: Text, rest: Text)
    requires s != [] && !(|s| > 1 && IsHigh(s[0]) && IsLow(s[1]))
    ensures Escape(s) + ([QUOTE] + rest) == EscapeUnit(s[0]) + (Escape(s[1..]) + ([QUOTE] + rest))
  {
    hide EscapeUnit;
  }

  lemma RawUnit(u: Unit, t: Text)
    requires u != QUOTE && u != BACKSLASH
    ensures DecodeUnit([u] + t) == (u, 1)
  {
  }

  // ---------------------------------------------------------------------------------------------
  // Sorted keys
  // ---------------------------------------------------------------------------------------------

  /** The default order of `sort`: by code units. */
  predicate Less(a: Text, b: Text) {
    b != [] && (a == [] || a[0] < b[0] || (a[0] == b[0] && Less(a[1..], b[1..])))
  }

  /** The order of JavaScript's string comparison: a proper prefix, or smaller at the first difference. */
  ghost predicate Precedes(a: Text, b: Text) {
    a < b || exists i :: SmallerAt(a, b, i)
  }

  ghost predicate SmallerAt(a: Text, b: Text, i: int) {
    0 <= i < |a| && i < |b| && (forall k | 0 <= k < i :: a[k] == b[k]) && a[i] < b[i]
  }

  /** The comparison of `sort` is that order. */
  lemma {:induction false} LessIsPrecedes(a: Text, b: Text)
    ensures Less(a, b) <==> Precedes(a, b)
    decreases |a|
  {
    if a != [] && b != [] {
      if a[0] == b[0] {
        LessIsPrecedes(a[1..], b[1..]);
        PrecedesBehind(a, b);
      } else {
        assert SmallerAt(a, b, 0) <==> a[0] < b[0];
      }
    }
  }

  lemma PrecedesBehind(a: Text, b: Text)
    requires a != [] && b != [] && a[0] == b[0]
    ensures Precedes(a, b) <==> Precedes(a[1..], b[1..])
  {
    var c, d := a[1..], b[1..];
    forall i: nat | i < |c| && i < |d| ensures SmallerAt(c, d, i) <==> SmallerAt(a, b, i + 1) {
      if SmallerAt(c, d, i) {
        assert forall k | 0 < k < i + 1 :: a[k] == c[k - 1] && b[k] == d[k - 1];
      }
    }
    if i :| SmallerAt(a, b, i) {
      assert SmallerAt(c, d, i - 1);
    }
    assert a == [a[0]] + c && b == [a[0]] + d;
  }

  lemma {:induction false} LessTotal(a: Text, b: Text)
    ensures Less(a, b) || a == b || Less(b, a)
    ensures !(Less(a, b) && Less(b, a)) && !Less(a, a)
    decreases |a|
  {
    if a != [] {
      LessTotal(a[1..], a[1..]);
      if b != [] {
        LessTotal(a[1..], b[1..]);
        if a[0] == b[0] && a[1..] == b[1..] { assert a == [a[0]] + a[1..] == b; }
      }
    }
  }

  lemma {:induction false} LessTransitive(a: Text, b: Text, c: Text)
    requires Less(a, b) && Less(b, c)
    ensures Less(a, c)
    decreases |a|
  {
    if a != [] && a[0] == b[0] == c[0] { LessTransitive(a[1..], b[1..], c[1..]); }
  }

  function Insert(key: Text, val: Value, fields: Fields): Fields {
    if fields.NoFields? || Less(key, fields.key) then Field(key, val, fields)
    else Field(fields.key, fields.val, Insert(key, val, fields.others))
  }

  function Sort(fields: Fields): Fields {
    if fields.NoFields? then NoFields else Insert(fields.key, fields.val, Sort(fields.others))
  }

  predicate Sorted(fields: Fields) {
    fields.NoFields? || fields.others.NoFields? || (Less(fields.key, fields.others.key) && Sorted(fields.others))
  }

  // ---------------------------------------------------------------------------------------------
  // The printer
  // ---------------------------------------------------------------------------------------------

  /** Printing by way of the canonical value; `CanonicalStringify` has the recursion of the source. */
  function Print(v: Value): Text {
    PrintCanonical(Canonical(v))
  }

  /** The value with undefined read as null and all fields sorted by key. */
  function Canonical(v: Value): Value {
    match v
    case Undefined => Null
    case Arr(items) => Arr(CanonicalItems(items))
    case Obj(fields) => Obj(Sort(CanonicalFields(fields)))
    case _ => v
  }

  function CanonicalItems(items: Items): Items {
    if items.NoItems? then NoItems else Item(Canonical(items.first), CanonicalItems(items.others))
  }

  function CanonicalFields(fields: Fields): Fields {
    if fields.NoFields? then NoFields else Field(fields.key, Canonical(fields.val), CanonicalFields(fields.others))
  }

  function PrintCanonical(v: Value): Text {
    match v
    case Null => Ascii("null")
    case Undefined => Ascii("null")
    case Bool(b) => if b then Ascii("true") else Ascii("false")
    case Num(text) => text
    case Str(s) => Quoted(s)
    case Arr(items) => [OPEN_ARR] + JoinItems(items) + [CLOSE_ARR]
    case Obj(fields) => [OPEN_OBJ] + JoinFields(fields) + [CLOSE_OBJ]
  }

  /** The printed items, joined by commas. */
  function JoinItems(items: Items): Text {
    if items.NoItems? then []
    else if items.others.NoItems? then PrintCanonical(items.first)
    else PrintCanonical(items.first) + [COMMA] + JoinItems(items.others)
  }

  function JoinFields(fields: Fields): Text {
    if fields.NoFields? then []
    else
      var one := Quoted(fields.key) + [COLON] + PrintCanonical(fields.val);
      if fields.others.NoFields? then one else one + [COMMA] + JoinFields(fields.others)
  }

  /** No undefined anywhere, all fields strictly sorted. */
  predicate IsCanonical(v: Value) {
    match v
    case Undefined => false
    case Arr(items) => IsCanonicalItems(items)
    case Obj(fields) => IsCanonicalFields(fields) && Sorted(fields)
    case _ => true
  }

  predicate IsCanonicalItems(items: Items) {
    items.NoItems? || (IsCanonical(items.first) && IsCanonicalItems(items.others))
  }

  predicate IsCanonicalFields(fields: Fields) {
    fields.NoFields? || (IsCanonical(fields.val) && IsCanonicalFields(fields.others))
  }

  // ---------------------------------------------------------------------------------------------
  // The printed form is unambiguous
  // ---------------------------------------------------------------------------------------------

  /** What may follow a value inside a larger text. */
  predicate Stops(t: Text) {
    t == [] || t[0] in {COMMA, CLOSE_ARR, CLOSE_OBJ}
  }

  lemma FirstUnit(v: Value)
    requires !v.Undefined?
    ensures var t := PrintCanonical(v);
      && t != []
      && t[0] == (match v
                  case Null => 110
                  case Bool(b) => if b then 116 else 102
                  case Num(text) => text[0]
                  case Str(_) => QUOTE
                  case Arr(_) => OPEN_ARR
                  case Obj(_) => OPEN_OBJ)
  {
  }

  lemma {:induction false} NumberEnds(a: Text, b: Text, x: Text, y: Text)
    requires forall i | 0 <= i < |a| :: !Stops([a[i]])
    requires forall i | 0 <= i < |b| :: !Stops([b[i]])
    requires a + x == b + y && Stops(x) && Stops(y)
    ensures a == b && x == y
    decreases |a|
  {
    assert (a == [] ==> a + x == x) && (b == [] ==> b + y == y);
    if a != [] && b != [] {
      assert (a + x)[0] == a[0] && (b + y)[0] == b[0];
      assert (a + x)[1..] == a[1..] + x && (b + y)[1..] == b[1..] + y;
      NumberEnds(a[1..], b[1..], x, y);
      assert a == [a[0]] + a[1..] && b == [b[0]] + b[1..];
    } else if a == [] && b != [] {
      StopsFirst(b, y);
    } else if a != [] {
      StopsFirst(a, x);
    }
  }

  lemma StopsFirst(a: Text, x: Text)
    requires a != [] && !Stops([a[0]])
    ensures !Stops(a + x)
  {
  }

  lemma DecodeQuoted(s: Text, x: Text)
    ensures Quoted(s) + x != [] && Decode((Quoted(s) + x)[1..]) == (s, x)
  {
    hide Decode;
    DecodeEscape(s, x);
    assert (Quoted(s) + x)[1..] == Escape(s) + ([QUOTE] + x);
  }

  lemma QuotedEnds(a: Text, b: Text, x: Text, y: Text)
    requires Quoted(a) + x == Quoted(b) + y
    ensures a == b && x == y
  {
    hide Decode, Quoted;
    DecodeQuoted(a, x);
    DecodeQuoted(b, y);
  }

  lemma SameConstructor(a: Value, b: Value, x: Text, y: Text)
    requires !a.Undefined? && !b.Undefined? && PrintCanonical(a) + x == PrintCanonical(b) + y
    ensures a.Null? == b.Null? && a.Bool? == b.Bool? && a.Num? == b.Num? && a.Str? == b.Str? && a.Arr? == b.Arr? && a.Obj? == b.Obj?
    ensures a.Bool? && b.Bool? ==> a == b
  {
    FirstUnit(a);
    FirstUnit(b);
    assert (PrintCanonical(a) + x)[0] == PrintCanonical(a)[0];
    assert (PrintCanonical(b) + y)[0] == PrintCanonical(b)[0];
  }

  /** Two canonical values whose texts, followed by anything that may follow, agree are the same. */
  lemma {:induction false} Unambiguous(a: Value, b: Value, x: Text, y: Text)
    requires IsCanonical(a) && IsCanonical(b) && Stops(x) && Stops(y)
    requires PrintCanonical(a) + x == PrintCanonical(b) + y
    ensures a == b && x == y
    decreases a
  {
    SameConstructor(a, b, x, y);
    match a
    case Null => SamePrefix(Ascii("null"), x, y);
    case Bool(v) => SamePrefix(PrintCanonical(a), x, y);
    case Num(text) => NumberEnds(text, b.text, x, y);
    case Str(s) => QuotedEnds(s, b.s, x, y);
    case Arr(items) =>
      Shift(OPEN_ARR, JoinItems(items), CLOSE_ARR, x, JoinItems(b.items), y);
      UnambiguousItems(items, b.items, x, y);
    case Obj(fields) =>
      Shift(OPEN_OBJ, JoinFields(fields), CLOSE_OBJ, x, JoinFields(b.fields), y);
      UnambiguousFields(fields, b.fields, x, y);
  }

  lemma SamePrefix(p: Text, x: Text, y: Text)
    requires p + x == p + y
    ensures x == y
  {
    assert x == (p + x)[|p|..] == (p + y)[|p|..] == y;
  }

  lemma Shift(open: Unit, a: Text, close: Unit, x: Text, b: Text, y: Text)
    requires [open] + a + [close] + x == [open] + b + [close] + y
    ensures a + ([close] + x) == b + ([close] + y)
  {
    assert ([open] + a + [close] + x)[1..] == a + ([close] + x);
    assert ([open] + b + [close] + y)[1..] == b + ([close] + y);
  }

  /** The text of a non-empty list is its first item followed by a comma or by what ends the list. */
  function AfterFirst(items: Items, x: Text): Text
    requires items.Item?
  {
    if items.others.NoItems? then [CLOSE_ARR] + x else [COMMA] + (JoinItems(items.others) + ([CLOSE_ARR] + x))
  }

  lemma FirstItem(items: Items, x: Text)
    requires items.Item?
    ensures JoinItems(items) + ([CLOSE_ARR] + x) == PrintCanonical(items.first) + AfterFirst(items, x)
  {
  }

  lemma {:induction false} UnambiguousItems(a: Items, b: Items, x: Text, y: Text)
    requires IsCanonicalItems(a) && IsCanonicalItems(b)
    requires JoinItems(a) + ([CLOSE_ARR] + x) == JoinItems(b) + ([CLOSE_ARR] + y)
    ensures a == b && x == y
    decreases a
  {
    if a.NoItems? || b.NoItems? {
      EmptyItems(a, b, x, y);
    } else {
      FirstItem(a, x);
      FirstItem(b, y);
      var p, q := AfterFirst(a, x), AfterFirst(b, y);
      Unambiguous(a.first, b.first, p, q);
      assert p[0] == q[0] && p[1..] == q[1..];
      if a.others.NoItems? {
        assert x == p[1..] && b.others.NoItems?;
      } else {
        assert p[1..] == JoinItems(a.others) + ([CLOSE_ARR] + x);
        assert q[1..] == JoinItems(b.others) + ([CLOSE_ARR] + y);
        UnambiguousItems(a.others, b.others, x, y);
      }
    }
  }

  lemma EmptyItems(a: Items, b: Items, x: Text, y: Text)
    requires IsCanonicalItems(a) && IsCanonicalItems(b) && (a.NoItems? || b.NoItems?)
    requires JoinItems(a) + ([CLOSE_ARR] + x) == JoinItems(b) + ([CLOSE_ARR] + y)
    ensures a == b && x == y
  {
    ItemsStart(a, x);
    ItemsStart(b, y);
    SamePrefix([CLOSE_ARR], x, y);
  }

  lemma ItemsStart(items: Items, x: Text)
    requires IsCanonicalItems(items)
    ensures var t := JoinItems(items) + ([CLOSE_ARR] + x);
      && t != [] && (t[0] == CLOSE_ARR <==> items.NoItems?)
      && (items.NoItems? ==> t == [CLOSE_ARR] + x)
  {
    if items.Item? {
      FirstItem(items, x);
      FirstUnit(items.first);
    }
  }

  function AfterKey(fields: Fields, x: Text): Text
    requires fields.Field?
  {
    [COLON] + (PrintCanonical(fields.val) + AfterField(fields, x))
  }

  function AfterField(fields: Fields, x: Text): Text
    requires fields.Field?
  {
    if fields.others.NoFields? then [CLOSE_OBJ] + x else [COMMA] + (JoinFields(fields.others) + ([CLOSE_OBJ] + x))
  }

  lemma FirstField(fields: Fields, x: Text)
    requires fields.Field?
    ensures JoinFields(fields) + ([CLOSE_OBJ] + x) == Quoted(fields.key) + AfterKey(fields, x)
  {
  }

  lemma {:induction false} UnambiguousFields(a: Fields, b: Fields, x: Text, y: Text)
    requires IsCanonicalFields(a) && IsCanonicalFields(b)
    requires JoinFields(a) + ([CLOSE_OBJ] + x) == JoinFields(b) + ([CLOSE_OBJ] + y)
    ensures a == b && x == y
    decreases a
  {
    if a.NoFields? || b.NoFields? {
      EmptyFields(a, b, x, y);
    } else {
      FirstField(a, x);
      FirstField(b, y);
      QuotedEnds(a.key, b.key, AfterKey(a, x), AfterKey(b, y));
      var p, q := AfterField(a, x), AfterField(b, y);
      SamePrefix([COLON], PrintCanonical(a.val) + p, PrintCanonical(b.val) + q);
      Unambiguous(a.val, b.val, p, q);
      assert p[0] == q[0] && p[1..] == q[1..];
      if a.others.NoFields? {
        assert x == p[1..] && b.others.NoFields?;
      } else {
        assert p[1..] == JoinFields(a.others) + ([CLOSE_OBJ] + x);
        assert q[1..] == JoinFields(b.others) + ([CLOSE_OBJ] + y);
        UnambiguousFields(a.others, b.others, x, y);
      }
    }
  }

  lemma EmptyFields(a: Fields, b: Fields, x: Text, y: Text)
    requires a.NoFields? || b.NoFields?
    requires JoinFields(a) + ([CLOSE_OBJ] + x) == JoinFields(b) + ([CLOSE_OBJ] + y)
    ensures a == b && x == y
  {
    FieldsStart(a, x);
    FieldsStart(b, y);
    SamePrefix([CLOSE_OBJ], x, y);
  }

  lemma FieldsStart(fields: Fields, x: Text)
    ensures var t := JoinFields(fields) + ([CLOSE_OBJ] + x);
      && t != [] && (t[0] == CLOSE_OBJ <==> fields.NoFields?)
      && (fields.NoFields? ==> t == [CLOSE_OBJ] + x)
  {
    if fields.Field? { FirstField(fields, x); }
  }

  // ---------------------------------------------------------------------------------------------
  // What a value means
  // ---------------------------------------------------------------------------------------------

  /** A value up to the order of object keys, with undefined read as null. */
  datatype Meaning =
    | MNull
    | MBool(b: bool)
    | MNum(text: NumberText)
    | MStr(s: Text)
    | MArr(items: seq<Meaning>)
    | MObj(fields: map<Text, Meaning>)

  function Denote(v: Value): Meaning {
    match v
    case Null => MNull
    case Undefined => MNull
    case Bool(b) => MBool(b)
    case Num(text) => MNum(text)
    case Str(s) => MStr(s)
    case Arr(items) => MArr(DenoteItems(items))
    case Obj(fields) => MObj(DenoteFields(fields))
  }

  function DenoteItems(items: Items): seq<Meaning> {
    if items.NoItems? then [] else [Denote(items.first)] + DenoteItems(items.others)
  }

  function DenoteFields(fields: Fields): (m: map<Text, Meaning>)
    ensures m.Keys == Keys(fields)
  {
    if fields.NoFields? then map[] else DenoteFields(fields.others)[fields.key := Denote(fields.val)]
  }

  lemma {:induction false} InsertKeepsMeaning(key: Text, val: Value, fields: Fields)
    requires key !in Keys(fields)
    ensures Keys(Insert(key, val, fields)) == Keys(fields) + {key}
    ensures DenoteFields(Insert(key, val, fields)) == DenoteFields(fields)[key := Denote(val)]
  {
    hide Less, Denote;
    if fields.Field? && !Less(key, fields.key) {
      var more := Insert(key, val, fields.others);
      assert Insert(key, val, fields) == Field(fields.key, fields.val, more);
      hide Insert;
      assert key !in Keys(fields.others) && key != fields.key;
      InsertKeepsMeaning(key, val, fields.others);
      UpdatesCommute(DenoteFields(fields.others), key, Denote(val), fields.key, Denote(fields.val));
    }
  }

  lemma UpdatesCommute(m: map<Text, Meaning>, k: Text, v: Meaning, l: Text, w: Meaning)
    requires k != l
    ensures m[k := v][l := w] == m[l := w][k := v]
  {
  }

  lemma {:induction false} InsertKeepsCanonical(key: Text, val: Value, fields: Fields)
    requires key !in Keys(fields) && IsCanonicalFields(fields) && IsCanonical(val)
    ensures IsCanonicalFields(Insert(key, val, fields))
  {
    if fields.Field? && !Less(key, fields.key) {
      InsertKeepsMeaning(key, val, fields.others);
      InsertKeepsCanonical(key, val, fields.others);
    }
  }

  lemma {:induction false} InsertKeepsSorted(key: Text, val: Value, fields: Fields)
    requires Sorted(fields) && key !in Keys(fields)
    ensures Sorted(Insert(key, val, fields))
    ensures var r := Insert(key, val, fields);
      r.key == key || (fields.Field? && r.key == fields.key)
  {
    if fields.Field? && !Less(key, fields.key) {
      LessTotal(key, fields.key);
      InsertKeepsSorted(key, val, fields.others);
    }
  }

  lemma {:induction false} SortIs(fields: Fields)
    requires DistinctInFieldKeys(fields)
    ensures Sorted(Sort(fields)) && Keys(Sort(fields)) == Keys(fields)
    ensures DenoteFields(Sort(fields)) == DenoteFields(fields)
    ensures IsCanonicalFields(fields) ==> IsCanonicalFields(Sort(fields))
  {
    if fields.Field? {
      SortIs(fields.others);
      InsertKeepsMeaning(fields.key, fields.val, Sort(fields.others));
      if IsCanonicalFields(fields) {
        InsertKeepsCanonical(fields.key, fields.val, Sort(fields.others));
      }
      InsertKeepsSorted(fields.key, fields.val, Sort(fields.others));
    }
  }

  predicate DistinctInFieldKeys(fields: Fields) {
    fields.NoFields? || (fields.key !in Keys(fields.others) && DistinctInFieldKeys(fields.others))
  }

  /** Making a value canonical keeps its meaning. */
  lemma {:induction false} CanonicalIs(v: Value)
    requires DistinctKeys(v)
    ensures IsCanonical(Canonical(v)) && Denote(Canonical(v)) == Denote(v)
    decreases v
  {
    match v
    case Arr(items) => CanonicalItemsIs(items);
    case Obj(fields) =>
      CanonicalFieldsIs(fields);
      SortIs(CanonicalFields(fields));
    case _ =>
  }

  lemma {:induction false} CanonicalItemsIs(items: Items)
    requires DistinctInItems(items)
    ensures IsCanonicalItems(CanonicalItems(items)) && DenoteItems(CanonicalItems(items)) == DenoteItems(items)
    decreases items
  {
    if items.Item? {
      CanonicalIs(items.first);
      CanonicalItemsIs(items.others);
    }
  }

  lemma {:induction false} CanonicalFieldsIs(fields: Fields)
    requires DistinctInFields(fields)
    ensures var r := CanonicalFields(fields);
      IsCanonicalFields(r) && DenoteFields(r) == DenoteFields(fields) && Keys(r) == Keys(fields) && DistinctInFieldKeys(r)
    decreases fields
  {
    if fields.Field? {
      CanonicalIs(fields.val);
      CanonicalFieldsIs(fields.others);
    }
  }

  lemma {:induction false} FirstIsLeast(fields: Fields, key: Text)
    requires Sorted(fields) && fields.Field? && key in Keys(fields.others)
    ensures Less(fields.key, key)
    decreases fields
  {
    if key != fields.others.key {
      FirstIsLeast(fields.others, key);
      LessTransitive(fields.key, fields.others.key, key);
    }
  }

  lemma SortedFirstUnique(fields: Fields)
    requires Sorted(fields) && fields.Field?
    ensures fields.key !in Keys(fields.others)
  {
    if fields.key in Keys(fields.others) {
      LessTotal(fields.key, fields.key);
      FirstIsLeast(fields, fields.key);
    }
  }

  /** Two canonical values with the same meaning are the same value. */
  lemma {:induction false} CanonicalUnique(a: Value, b: Value)
    requires IsCanonical(a) && IsCanonical(b) && Denote(a) == Denote(b)
    ensures a == b
    decreases a
  {
    match a
    case Arr(items) => CanonicalItemsUnique(items, b.items);
    case Obj(fields) => CanonicalFieldsUnique(fields, b.fields);
    case _ =>
  }

  lemma {:induction false} CanonicalItemsUnique(a: Items, b: Items)
    requires IsCanonicalItems(a) && IsCanonicalItems(b) && DenoteItems(a) == DenoteItems(b)
    ensures a == b
    decreases a
  {
    if a.Item? && b.Item? {
      assert DenoteItems(a)[0] == Denote(a.first) && DenoteItems(b)[0] == Denote(b.first);
      assert DenoteItems(a)[1..] == DenoteItems(a.others) && DenoteItems(b)[1..] == DenoteItems(b.others);
      CanonicalUnique(a.first, b.first);
      CanonicalItemsUnique(a.others, b.others);
    }
  }

  lemma SameFirstKey(a: Fields, b: Fields)
    requires Sorted(a) && Sorted(b) && a.Field? && b.Field? && Keys(a) == Keys(b)
    ensures a.key == b.key
  {
    assert a.key in Keys(b) && b.key in Keys(a);
    if a.key != b.key {
      FirstIsLeast(a, b.key);
      FirstIsLeast(b, a.key);
      LessTotal(a.key, b.key);
    }
  }

  lemma {:induction false} CanonicalFieldsUnique(a: Fields, b: Fields)
    requires IsCanonicalFields(a) && IsCanonicalFields(b) && Sorted(a) && Sorted(b)
    requires DenoteFields(a) == DenoteFields(b)
    ensures a == b
    decreases a
  {
    assert Keys(a) == DenoteFields(a).Keys == DenoteFields(b).Keys == Keys(b);
    if a.Field? && b.Field? {
      SameFirstKey(a, b);
      SortedFirstUnique(a);
      SortedFirstUnique(b);
      assert DenoteFields(a)[a.key] == Denote(a.val) && DenoteFields(b)[b.key] == Denote(b.val);
      CanonicalUnique(a.val, b.val);
      assert DenoteFields(a.others) == DenoteFields(a) - {a.key};
      assert DenoteFields(b.others) == DenoteFields(b) - {b.key};
      CanonicalFieldsUnique(a.others, b.others);
    }
  }

  /**
   * Canonical printing is faithful: two values print to the same text exactly when they are equal up
   * to the order of object keys (undefined read as null).
   */
  lemma PrintIsFaithful(a: Value, b: Value)
    requires DistinctKeys(a) && DistinctKeys(b)
    ensures Print(a) == Print(b) <==> Denote(a) == Denote(b)
  {
    CanonicalIs(a);
    CanonicalIs(b);
    if Print(a) == Print(b) {
      assert PrintCanonical(Canonical(a)) + [] == PrintCanonical(Canonical(b)) + [];
      Unambiguous(Canonical(a), Canonical(b), [], []);
    }
    if Denote(a) == Denote(b) {
      CanonicalUnique(Canonical(a), Canonical(b));
    }
  }
}

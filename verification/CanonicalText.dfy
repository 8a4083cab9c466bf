/**
 * The text that stableStringify prints, from the texts of the parts: the keys of an object in the
 * order of JavaScript strings, the punctuation and the escapes of JSON.
 */
module CanonicalText {
  import opened CanonicalJson
  import opened CanonicalStringify

  // ---------------------------------------------------------------------------------------------
  // The keys of an object
  // ---------------------------------------------------------------------------------------------

  /** Of any two keys the earlier is a proper prefix of the later, or smaller at their first difference. */
  ghost predicate InOrder(keys: seq<Text>) {
    forall i, j | 0 <= i < j < |keys| :: Precedes(keys[i], keys[j])
  }

  ghost predicate Distinct(keys: seq<Text>) {
    forall i, j | 0 <= i < j < |keys| :: keys[i] != keys[j]
  }

  lemma PrecedesIrreflexive(a: Text)
    ensures !Precedes(a, a)
  {
  }

  lemma InOrderIsDistinct(keys: seq<Text>)
    requires InOrder(keys)
    ensures Distinct(keys)
  {
    hide Precedes;
    forall i, j | 0 <= i < j < |keys| ensures keys[i] != keys[j] {
      PrecedesIrreflexive(keys[i]);
    }
  }

  lemma FirstBeforeAll(key: Text, keys: seq<Text>)
    requires InOrder(keys) && (keys == [] || Precedes(key, keys[0]))
    ensures InOrder([key] + keys)
  {
    hide Precedes;
    var r := [key] + keys;
    forall j | 0 <= j < |keys| ensures Precedes(key, keys[j]) {
      if j > 0 {
        LessIsPrecedes(key, keys[0]);
        LessIsPrecedes(keys[0], keys[j]);
        LessTransitive(key, keys[0], keys[j]);
        LessIsPrecedes(key, keys[j]);
      }
    }
    assert forall j | 0 < j < |r| :: r[j] == keys[j - 1];
  }

  lemma {:induction false} InsertKeyInOrder(key: Text, keys: seq<Text>)
    requires InOrder(keys) && key !in keys
    ensures InOrder(InsertKey(key, keys))
  {
    hide Precedes, Less;
    if keys == [] || Less(key, keys[0]) {
      assert keys != [] ==> Precedes(key, keys[0]) by {
        if keys != [] { LessIsPrecedes(key, keys[0]); }
      }
      FirstBeforeAll(key, keys);
    } else {
      var tail := keys[1..];
      InsertKeyInOrder(key, tail);
      LessTotal(key, keys[0]);
      LessIsPrecedes(keys[0], key);
      var r := InsertKey(key, tail);
      assert r[0] in r;
      FirstBeforeAll(keys[0], r);
    }
  }

  lemma {:induction false} SortKeysInOrder(keys: seq<Text>)
    requires Distinct(keys)
    ensures InOrder(SortKeys(keys))
  {
    hide Precedes, InOrder, Less;
    if keys == [] {
      NoKeysInOrder();
    } else {
      SortKeysInOrder(keys[1..]);
      InsertKeyInOrder(keys[0], SortKeys(keys[1..]));
    }
  }

  lemma NoKeysInOrder()
    ensures InOrder([])
  {
  }

  lemma {:induction false} KeyListIsDistinct(fields: Fields)
    requires DistinctInFields(fields)
    ensures Distinct(KeyList(fields))
  {
    if fields.Field? {
      KeyListIsDistinct(fields.others);
      assert fields.key !in KeyList(fields.others);
    }
  }

  // ---------------------------------------------------------------------------------------------
  // Objects and arrays
  // ---------------------------------------------------------------------------------------------

  /** The object has this value under this key. */
  predicate Holds(fields: Fields, key: Text, val: Value) {
    fields.Field? && if fields.key == key then fields.val == val else Holds(fields.others, key, val)
  }

  lemma {:induction false} LookupHolds(fields: Fields, key: Text)
    requires key in Keys(fields)
    ensures Holds(fields, key, Lookup(fields, key))
  {
    if fields.key != key {
      LookupHolds(fields.others, key);
    }
  }

  /** The texts with commas in between. */
  function Commas(texts: seq<Text>): Text {
    if texts == [] then []
    else if |texts| == 1 then texts[0]
    else texts[0] + [44] + Commas(texts[1..])
  }

  /** A key, a colon and the text of its value. */
  function Member(key: Text, val: Value): Text {
    Quoted(key) + [58] + StableStringify(val)
  }

  function Members(keys: seq<Text>, vals: seq<Value>): seq<Text>
    requires |keys| == |vals|
  {
    if keys == [] then [] else [Member(keys[0], vals[0])] + Members(keys[1..], vals[1..])
  }

  function LookupAll(keys: seq<Text>, fields: Fields): (vals: seq<Value>)
    requires forall k | k in keys :: k in Keys(fields)
    ensures |vals| == |keys| && forall i | 0 <= i < |keys| :: vals[i] == Lookup(fields, keys[i])
  {
    if keys == [] then [] else [Lookup(fields, keys[0])] + LookupAll(keys[1..], fields)
  }

  lemma {:induction false} KeysAreMembers(keys: seq<Text>, fields: Fields)
    requires forall k | k in keys :: k in Keys(fields)
    ensures StringifyKeys(keys, fields) == Commas(Members(keys, LookupAll(keys, fields)))
  {
    if keys != [] {
      KeysAreMembers(keys[1..], fields);
      hide Lookup;
      var vals := LookupAll(keys, fields);
      assert vals[1..] == LookupAll(keys[1..], fields);
      assert Members(keys, vals)[1..] == Members(keys[1..], vals[1..]);
      MembersLength(keys[1..], vals[1..]);
    }
  }

  lemma {:induction false} MembersLength(keys: seq<Text>, vals: seq<Value>)
    requires |keys| == |vals|
    ensures |Members(keys, vals)| == |keys|
  {
    if keys != [] {
      MembersLength(keys[1..], vals[1..]);
    }
  }

  /**
   * The text of an object lists every key once, in the order of JavaScript strings, each with the text
   * of its value; this determines it from the texts of the values.
   */
  lemma ObjectText(fields: Fields) returns (keys: seq<Text>, vals: seq<Value>)
    requires DistinctInFields(fields)
    ensures InOrder(keys) && Distinct(keys) && (forall k :: k in keys <==> k in Keys(fields))
    ensures |vals| == |keys| && forall i | 0 <= i < |keys| :: Holds(fields, keys[i], vals[i])
    ensures StableStringify(Obj(fields)) == [123] + Commas(Members(keys, vals)) + [125]
  {
    hide *;
    keys := SortKeys(KeyList(fields));
    ObjectIs(fields);
    KeyListIsDistinct(fields);
    SortKeysInOrder(KeyList(fields));
    InOrderIsDistinct(keys);
    vals := LookupAll(keys, fields);
    forall i | 0 <= i < |keys| ensures Holds(fields, keys[i], vals[i]) {
      assert keys[i] in keys;
      LookupHolds(fields, keys[i]);
    }
    KeysAreMembers(keys, fields);
  }

  /** Objects of no, one and two fields, spelled out. */
  lemma SmallObjects(k: Text, v: Value, l: Text, w: Value)
    ensures StableStringify(Obj(NoFields)) == Ascii("{}")
    ensures StableStringify(Obj(Field(k, v, NoFields))) == [123] + Quoted(k) + [58] + StableStringify(v) + [125]
    ensures k < l || (exists i :: SmallerAt(k, l, i)) ==>
      var text := [123] + Quoted(k) + [58] + StableStringify(v) + [44] + Quoted(l) + [58] + StableStringify(w) + [125];
      && StableStringify(Obj(Field(k, v, Field(l, w, NoFields)))) == text
      && StableStringify(Obj(Field(l, w, Field(k, v, NoFields)))) == text
  {
    assert Ascii("{}") == [123, 125];
    OneField(k, v);
    if k < l || (exists i :: SmallerAt(k, l, i)) {
      LessIsPrecedes(k, l);
      LessTotal(k, l);
      TwoFields(k, v, l, w);
    }
  }

  lemma OneField(k: Text, v: Value)
    ensures StableStringify(Obj(Field(k, v, NoFields))) == [123] + Quoted(k) + [58] + StableStringify(v) + [125]
  {
    hide Quoted, Less;
    var fields := Field(k, v, NoFields);
    assert KeyList(fields) == [k] && [k][1..] == [];
    assert SortKeys([k]) == [k];
    assert Lookup(fields, k) == v;
  }

  lemma TwoFields(k: Text, v: Value, l: Text, w: Value)
    requires Less(k, l) && !Less(l, k) && k != l
    ensures var text := [123] + Quoted(k) + [58] + StableStringify(v) + [44] + Quoted(l) + [58] + StableStringify(w) + [125];
      && StableStringify(Obj(Field(k, v, Field(l, w, NoFields)))) == text
      && StableStringify(Obj(Field(l, w, Field(k, v, NoFields)))) == text
  {
    SortTwo(k, l);
    TwoKeys(k, v, l, w);
    TwoKeys(l, w, k, v);
    hide *;
    TwoMembers(k, v, l, w, Field(k, v, Field(l, w, NoFields)));
    TwoMembers(k, v, l, w, Field(l, w, Field(k, v, NoFields)));
  }

  lemma TwoKeys(k: Text, v: Value, l: Text, w: Value)
    requires k != l
    ensures var fields := Field(k, v, Field(l, w, NoFields));
      KeyList(fields) == [k, l] && k in Keys(fields) && l in Keys(fields) && Lookup(fields, k) == v && Lookup(fields, l) == w
  {
    var fields := Field(k, v, Field(l, w, NoFields));
    assert KeyList(fields.others) == [l] && KeyList(fields) == [k] + [l];
    assert Lookup(fields.others, l) == w;
  }

  lemma TwoMembers(k: Text, v: Value, l: Text, w: Value, fields: Fields)
    requires SortKeys(KeyList(fields)) == [k, l] && k in Keys(fields) && l in Keys(fields)
    requires Lookup(fields, k) == v && Lookup(fields, l) == w
    ensures StableStringify(Obj(fields)) == [123] + Quoted(k) + [58] + StableStringify(v) + [44] + Quoted(l) + [58] + StableStringify(w) + [125]
  {
    hide *;
    KeysAreMembers([k, l], fields);
    ObjectIs(fields);
    LookupTwo(k, l, fields);
    MembersAre(k, v);
    MembersAre(l, w);
    CommasOfTwo(k, v, l, w);
    Regroup(Quoted(k) + [58] + StableStringify(v), Quoted(l), StableStringify(w));
  }

  lemma ObjectIs(fields: Fields)
    ensures StableStringify(Obj(fields)) == [123] + StringifyKeys(SortKeys(KeyList(fields)), fields) + [125]
  {
    hide StringifyKeys, SortKeys, KeyList;
  }

  lemma MembersAre(key: Text, val: Value)
    ensures Member(key, val) == Quoted(key) + [58] + StableStringify(val)
  {
  }

  lemma Regroup(a: Text, b: Text, c: Text)
    ensures [123] + (a + [44] + (b + [58] + c)) + [125] == [123] + a + [44] + b + [58] + c + [125]
  {
  }

  lemma CommasOfTwo(k: Text, v: Value, l: Text, w: Value)
    ensures Commas(Members([k, l], [v, w])) == Member(k, v) + [44] + Member(l, w)
  {
    hide Member;
    assert [k, l][1..] == [l] && [v, w][1..] == [w] && [l][1..] == [] && [w][1..] == [];
    assert Members([l], [w]) == [Member(l, w)];
    assert Members([k, l], [v, w]) == [Member(k, v), Member(l, w)];
    assert [Member(k, v), Member(l, w)][1..] == [Member(l, w)];
  }

  lemma LookupTwo(k: Text, l: Text, fields: Fields)
    requires k in Keys(fields) && l in Keys(fields)
    ensures LookupAll([k, l], fields) == [Lookup(fields, k), Lookup(fields, l)]
  {
    hide Lookup, LookupAll, Keys;
    var vals := LookupAll([k, l], fields);
    assert vals[0] == Lookup(fields, [k, l][0]) && vals[1] == Lookup(fields, [k, l][1]);
  }

  lemma SortTwo(k: Text, l: Text)
    requires Less(k, l) && !Less(l, k)
    ensures SortKeys([k, l]) == [k, l] && SortKeys([l, k]) == [k, l]
  {
    hide Less;
    assert [k, l][1..] == [l] && [l, k][1..] == [k] && [l][1..] == [] && [k][1..] == [];
    assert SortKeys([l]) == [l] && SortKeys([k]) == [k];
  }

  function ValuesOf(items: Items): seq<Value> {
    if items.NoItems? then [] else [items.first] + ValuesOf(items.others)
  }

  function Texts(vals: seq<Value>): seq<Text> {
    if vals == [] then [] else [StableStringify(vals[0])] + Texts(vals[1..])
  }

  /** The text of an array lists the texts of its items in order. */
  lemma ArrayText(items: Items)
    ensures StableStringify(Arr(items)) == [91] + Commas(Texts(ValuesOf(items))) + [93]
  {
    ItemsAreTexts(items);
  }

  lemma {:induction false} ItemsAreTexts(items: Items)
    ensures StringifyItems(items) == Commas(Texts(ValuesOf(items)))
    ensures |Texts(ValuesOf(items))| == |ValuesOf(items)|
  {
    if items.Item? {
      ItemsAreTexts(items.others);
      var vals := ValuesOf(items);
      assert vals[1..] == ValuesOf(items.others);
      assert Texts(vals)[1..] == Texts(vals[1..]);
    }
  }

  // ---------------------------------------------------------------------------------------------
  // Strings and the other values
  // ---------------------------------------------------------------------------------------------

  /** Undefined prints as null does; a number prints as itself. */
  lemma PlainTexts(number: NumberText)
    ensures StableStringify(Null) == Ascii("null") && StableStringify(Undefined) == Ascii("null")
    ensures StableStringify(Bool(true)) == Ascii("true") && StableStringify(Bool(false)) == Ascii("false")
    ensures StableStringify(Num(number)) == number
  {
  }

  /** No surrogate pair is cut between these texts. */
  predicate Apart(a: Text, b: Text) {
    a == [] || b == [] || !(0xD800 <= a[|a| - 1] < 0xDC00 && 0xDC00 <= b[0] < 0xE000)
  }

  /** Text is escaped unit by unit, surrogate pairs apart. */
  lemma {:induction false} EscapeAppend(a: Text, b: Text)
    requires Apart(a, b)
    ensures Escape(a + b) == Escape(a) + Escape(b)
    decreases |a|
  {
    if a == [] {
      assert a + b == b && Escape(a) == [];
      hide *;
    } else if |a| > 1 && IsHigh(a[0]) && IsLow(a[1]) {
      EscapePrefix(a, a + b);
      EscapePrefix(a, a);
      ApartTail(a, b, 2);
      hide *;
      EscapeAppend(a[2..], b);
      Reassociate(a[..2], Escape(a[2..]), Escape(b));
    } else {
      assert !(|a + b| > 1 && IsHigh((a + b)[0]) && IsLow((a + b)[1]));
      EscapeFirst(a);
      EscapeFirst(a + b);
      ApartTail(a, b, 1);
      hide *;
      EscapeAppend(a[1..], b);
      Reassociate(EscapeUnit(a[0]), Escape(a[1..]), Escape(b));
    }
  }

  lemma Reassociate(a: Text, b: Text, c: Text)
    ensures a + (b + c) == a + b + c
  {
  }

  lemma ApartTail(a: Text, b: Text, n: nat)
    requires Apart(a, b) && n <= |a|
    ensures Apart(a[n..], b) && (a + b)[n..] == a[n..] + b
  {
  }

  lemma EscapePrefix(a: Text, s: Text)
    requires |a| > 1 && IsHigh(a[0]) && IsLow(a[1]) && a <= s
    ensures Escape(s) == a[..2] + Escape(s[2..])
  {
    hide EscapeUnit;
    assert s[..2] == a[..2];
  }

  lemma EscapeFirst(s: Text)
    requires s != [] && !(|s| > 1 && IsHigh(s[0]) && IsLow(s[1]))
    ensures Escape(s) == EscapeUnit(s[0]) + Escape(s[1..])
  {
    hide EscapeUnit;
  }

  /** Neither a quote, a backslash, a control character nor half of a surrogate pair. */
  predicate IsPlain(u: Unit) {
    u >= 32 && u != 34 && u != 92 && !(0xD800 <= u < 0xE000)
  }

  const HEX := "0123456789abcdef"

  /**
   * What a string prints as: plain units and surrogate pairs as they are; a quote, a backslash and five
   * control characters after a backslash.
   */
  lemma UnitTexts(u: Unit, low: Unit)
    ensures StableStringify(Str([])) == Ascii("\"\"")
    ensures IsPlain(u) ==> StableStringify(Str([u])) == [34, u, 34]
    ensures 0xD800 <= u < 0xDC00 && 0xDC00 <= low < 0xE000 ==> StableStringify(Str([u, low])) == [34, u, low, 34]
    ensures u in {34, 92} ==> StableStringify(Str([u])) == [34, 92, u, 34]
    ensures StableStringify(Str([8])) == Ascii("\"\\b\"") && StableStringify(Str([9])) == Ascii("\"\\t\"")
    ensures StableStringify(Str([10])) == Ascii("\"\\n\"") && StableStringify(Str([12])) == Ascii("\"\\f\"")
    ensures StableStringify(Str([13])) == Ascii("\"\\r\"")
  {
    hide Escape, EscapeUnit, HexEscape, StableStringify, Ascii;
    NoUnit();
    OneUnit(u);
    ShortEscapes();
    UnitEscape(u);
    if IsHigh(u) && IsLow(low) {
      PairText(u, low);
    }
  }

  /** The other control characters and lone surrogates print in hexadecimal. */
  lemma HexTexts(u: Unit)
    requires !IsPlain(u) && u !in {8, 9, 10, 12, 13, 34, 92}
    ensures StableStringify(Str([u])) == [34, 92, 117, HEX[u / 4096] as int, HEX[u / 256 % 16] as int, HEX[u / 16 % 16] as int, HEX[u % 16] as int, 34]
  {
    hide Escape, EscapeUnit, HexEscape, StableStringify;
    OneUnit(u);
    UnitEscape(u);
    HexText(u);
  }

  lemma NoUnit()
    ensures StableStringify(Str([])) == Ascii("\"\"")
  {
    assert Escape([]) == [];
  }

  lemma PairText(high: Unit, low: Unit)
    requires IsHigh(high) && IsLow(low)
    ensures StableStringify(Str([high, low])) == [34, high, low, 34]
  {
    hide EscapeUnit;
    var pair := [high, low];
    assert pair[2..] == [] && pair[..2] == pair;
    assert Escape(pair) == pair + Escape([]) == pair;
  }

  lemma UnitEscape(u: Unit)
    ensures IsPlain(u) ==> EscapeUnit(u) == [u]
    ensures u in {34, 92} ==> EscapeUnit(u) == [92, u]
    ensures !IsPlain(u) && u !in {8, 9, 10, 12, 13, 34, 92} ==> EscapeUnit(u) == HexEscape(u)
  {
    hide HexEscape;
  }

  lemma ShortEscapes()
    ensures StableStringify(Str([8])) == Ascii("\"\\b\"") && StableStringify(Str([9])) == Ascii("\"\\t\"")
    ensures StableStringify(Str([10])) == Ascii("\"\\n\"") && StableStringify(Str([12])) == Ascii("\"\\f\"")
    ensures StableStringify(Str([13])) == Ascii("\"\\r\"")
  {
    ShortEscape(8, 'b');
    ShortEscape(9, 't');
    ShortEscape(10, 'n');
    ShortEscape(12, 'f');
    ShortEscape(13, 'r');
  }

  lemma ShortEscape(u: Unit, letter: char)
    requires letter as int < 128 && EscapeUnit(u) == [92, letter as int]
    ensures StableStringify(Str([u])) == Ascii(['"', '\\', letter, '"'])
  {
    OneUnit(u);
    hide EscapeUnit;
  }

  lemma OneUnit(u: Unit)
    ensures StableStringify(Str([u])) == [34] + EscapeUnit(u) + [34]
  {
    hide EscapeUnit;
    assert [u][1..] == [] && Escape([]) == [];
    assert Escape([u]) == EscapeUnit([u][0]) + Escape([u][1..]) == EscapeUnit(u);
  }

  lemma HexText(u: Unit)
    ensures HexEscape(u) == [92, 117, HEX[u / 4096] as int, HEX[u / 256 % 16] as int, HEX[u / 16 % 16] as int, HEX[u % 16] as int]
  {
    HexDigits(u);
    assert forall d | 0 <= d < 16 :: HexDigit(d) == HEX[d] as int;
  }
}

/**
 * stableStringify as the source writes it: the keys of an object are sorted, and each is printed with
 * the value looked up under it. It equals printing the canonical value.
 */
module CanonicalStringify {
  import opened CanonicalJson

  // ---------------------------------------------------------------------------------------------
  // Looking up fields
  // ---------------------------------------------------------------------------------------------

  function Size(v: Value): nat {
    match v
    case Arr(items) => 1 + ItemsSize(items)
    case Obj(fields) => 1 + FieldsSize(fields)
    case _ => 1
  }

  function ItemsSize(items: Items): nat {
    if items.NoItems? then 0 else Size(items.first) + ItemsSize(items.others) + 1
  }

  function FieldsSize(fields: Fields): nat {
    if fields.NoFields? then 0 else Size(fields.val) + FieldsSize(fields.others) + 1
  }

  /** `record[key]` */
  function Lookup(fields: Fields, key: Text): (v: Value)
    requires key in Keys(fields)
    ensures Size(v) < FieldsSize(fields)
  {
    if fields.key == key then fields.val else Lookup(fields.others, key)
  }

  /** `Object.keys(record)` */
  function KeyList(fields: Fields): (keys: seq<Text>)
    ensures forall k :: k in keys <==> k in Keys(fields)
  {
    if fields.NoFields? then [] else [fields.key] + KeyList(fields.others)
  }

  function InsertKey(key: Text, keys: seq<Text>): (r: seq<Text>)
    ensures forall k :: k in r <==> k == key || k in keys
  {
    if keys == [] || Less(key, keys[0]) then [key] + keys
    else
      assert keys == [keys[0]] + keys[1..];
      [keys[0]] + InsertKey(key, keys[1..])
  }

  /** `sort()` */
  function SortKeys(keys: seq<Text>): (r: seq<Text>)
    ensures forall k :: k in r <==> k in keys
  {
    if keys == [] then []
    else
      assert keys == [keys[0]] + keys[1..];
      InsertKey(keys[0], SortKeys(keys[1..]))
  }

  // ---------------------------------------------------------------------------------------------
  // The printer
  // ---------------------------------------------------------------------------------------------

  function StableStringify(v: Value): Text
    decreases Size(v), 0
  {
    match v
    case Null => Ascii("null")
    case Undefined => Ascii("null")
    case Bool(b) => if b then Ascii("true") else Ascii("false")
    case Num(text) => text
    case Str(s) => Quoted(s)
    case Arr(items) => [OPEN_ARR] + StringifyItems(items) + [CLOSE_ARR]
    case Obj(fields) => [OPEN_OBJ] + StringifyKeys(SortKeys(KeyList(fields)), fields) + [CLOSE_OBJ]
  }

  function StringifyItems(items: Items): Text
    decreases ItemsSize(items), 0
  {
    if items.NoItems? then []
    else if items.others.NoItems? then StableStringify(items.first)
    else StableStringify(items.first) + [COMMA] + StringifyItems(items.others)
  }

  /** The keys, each with what is looked up under it, joined by commas. */
  function StringifyKeys(keys: seq<Text>, fields: Fields): Text
    requires forall k | k in keys :: k in Keys(fields)
    decreases FieldsSize(fields), |keys|
  {
    if keys == [] then []
    else
      var one := Quoted(keys[0]) + [COLON] + StableStringify(Lookup(fields, keys[0]));
      if |keys| == 1 then one else one + [COMMA] + StringifyKeys(keys[1..], fields)
  }

  // ---------------------------------------------------------------------------------------------
  // It prints the canonical value
  // ---------------------------------------------------------------------------------------------

  lemma {:induction false} KeysOfInsert(key: Text, val: Value, fields: Fields)
    ensures KeyList(Insert(key, val, fields)) == InsertKey(key, KeyList(fields))
  {
    if fields.Field? {
      KeysOfInsert(key, val, fields.others);
      assert KeyList(fields)[1..] == KeyList(fields.others);
    }
  }

  lemma {:induction false} KeysOfSorted(fields: Fields)
    ensures KeyList(Sort(CanonicalFields(fields))) == SortKeys(KeyList(fields))
  {
    if fields.Field? {
      KeysOfSorted(fields.others);
      KeysOfInsert(fields.key, Canonical(fields.val), Sort(CanonicalFields(fields.others)));
      assert KeyList(fields)[1..] == KeyList(fields.others);
    }
  }

  /** Every field of `canonical` is the canonical form of what `fields` holds under its key. */
  predicate Agrees(canonical: Fields, fields: Fields) {
    canonical.NoFields?
    || (canonical.key in Keys(fields) && canonical.val == Canonical(Lookup(fields, canonical.key)) && Agrees(canonical.others, fields))
  }

  lemma {:induction false} InsertAgrees(key: Text, canonical: Fields, fields: Fields)
    requires key in Keys(fields) && Agrees(canonical, fields)
    ensures Agrees(Insert(key, Canonical(Lookup(fields, key)), canonical), fields)
  {
    if canonical.Field? {
      InsertAgrees(key, canonical.others, fields);
    }
  }

  lemma {:induction false} AgreesWithMore(canonical: Fields, fields: Fields)
    requires fields.Field? && fields.key !in Keys(fields.others) && Agrees(canonical, fields.others)
    ensures Agrees(canonical, fields)
  {
    if canonical.Field? {
      AgreesWithMore(canonical.others, fields);
    }
  }

  lemma {:induction false} SortedAgrees(fields: Fields)
    requires DistinctInFields(fields)
    ensures Agrees(Sort(CanonicalFields(fields)), fields)
  {
    if fields.Field? {
      SortedAgrees(fields.others);
      AgreesWithMore(Sort(CanonicalFields(fields.others)), fields);
      InsertAgrees(fields.key, Sort(CanonicalFields(fields.others)), fields);
    }
  }

  lemma {:induction false} LookupIsDistinct(fields: Fields, key: Text)
    requires DistinctInFields(fields) && key in Keys(fields)
    ensures DistinctKeys(Lookup(fields, key))
  {
    if fields.key != key {
      LookupIsDistinct(fields.others, key);
    }
  }

  /** The source's recursion over sorted keys prints the canonical value. */
  lemma {:induction false} StableStringifyIsPrint(v: Value)
    requires DistinctKeys(v)
    ensures StableStringify(v) == Print(v)
    decreases Size(v), 0
  {
    match v
    case Arr(items) => ItemsArePrinted(items);
    case Obj(fields) => {
      SortedAgrees(fields);
      KeysOfSorted(fields);
      KeysArePrinted(Sort(CanonicalFields(fields)), fields);
    }
    case _ =>
  }

  lemma {:induction false} ItemsArePrinted(items: Items)
    requires DistinctInItems(items)
    ensures StringifyItems(items) == JoinItems(CanonicalItems(items))
    decreases ItemsSize(items), 0
  {
    if items.Item? {
      StableStringifyIsPrint(items.first);
      ItemsArePrinted(items.others);
    }
  }

  lemma {:induction false} KeysArePrinted(canonical: Fields, fields: Fields)
    requires DistinctInFields(fields) && Agrees(canonical, fields)
    ensures forall k | k in KeyList(canonical) :: k in Keys(fields)
    ensures StringifyKeys(KeyList(canonical), fields) == JoinFields(canonical)
    decreases FieldsSize(fields), |KeyList(canonical)|
  {
    if canonical.Field? {
      LookupIsDistinct(fields, canonical.key);
      StableStringifyIsPrint(Lookup(fields, canonical.key));
      KeysArePrinted(canonical.others, fields);
      assert KeyList(canonical)[1..] == KeyList(canonical.others);
      assert canonical.others.NoFields? <==> |KeyList(canonical)| == 1;
    }
  }

  /** What the source prints for two values agrees exactly when they are equal up to the order of object keys. */
  lemma StableStringifyIsFaithful(a: Value, b: Value)
    requires DistinctKeys(a) && DistinctKeys(b)
    ensures StableStringify(a) == StableStringify(b) <==> Denote(a) == Denote(b)
  {
    StableStringifyIsPrint(a);
    StableStringifyIsPrint(b);
    PrintIsFaithful(a, b);
  }
}

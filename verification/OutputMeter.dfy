/** UTF-8 metering of model output (section 3 of RFC 3629) and the bounded text rope. */
module OutputMeter {
  import opened Bytes
  import opened Options

  /** A UTF-16 code unit; a JavaScript string is a sequence of them. */
  type Unit = u: nat | u < 0x10000

  type Text = seq<Unit>

  predicate High(u: Unit) {
    0xd800 <= u <= 0xdbff
  }

  predicate Low(u: Unit) {
    0xdc00 <= u <= 0xdfff
  }

  /** A surrogate pair starts the text. */
  predicate PairFirst(s: Text) {
    |s| >= 2 && High(s[0]) && Low(s[1])
  }

  // ---- reference encoding ---------------------------------------------------------------------------------------

  /** The code points of a text; a lone surrogate reads as U+FFFD. */
  function CodePoints(s: Text): seq<nat> {
    if s == [] then []
    else if PairFirst(s) then
      var high: int, low: int := s[0], s[1];
      [0x10000 + (high - 0xd800) * 0x400 + (low - 0xdc00)] + CodePoints(s[2..])
    else [if High(s[0]) || Low(s[0]) then 0xfffd else s[0]] + CodePoints(s[1..])
  }

  /** The octets of one code point, by the table of section 3. */
  function Octets(c: nat): seq<Byte>
    requires c < 0x110000
  {
    if c < 0x80 then [c]
    else if c < 0x800 then [0xc0 + c / 0x40, 0x80 + c % 0x40]
    else if c < 0x10000 then [0xe0 + c / 0x1000, 0x80 + c / 0x40 % 0x40, 0x80 + c % 0x40]
    else [0xf0 + c / 0x40000, 0x80 + c / 0x1000 % 0x40, 0x80 + c / 0x40 % 0x40, 0x80 + c % 0x40]
  }

  lemma {:induction false} CodePointsInRange(s: Text)
    ensures forall k :: 0 <= k < |CodePoints(s)| ==> CodePoints(s)[k] < 0x110000
  {
    if s != [] { CodePointsInRange(s[if PairFirst(s) then 2 else 1..]); }
  }

  function Encode(points: seq<nat>): seq<Byte>
    requires forall k :: 0 <= k < |points| ==> points[k] < 0x110000
  {
    if points == [] then [] else Octets(points[0]) + Encode(points[1..])
  }

  /** The UTF-8 encoding of a text. */
  function Utf8(s: Text): seq<Byte> {
    CodePointsInRange(s);
    Encode(CodePoints(s))
  }

  /** How many code units one step of the scan consumes, and how many bytes it counts. */
  function StepUnits(s: Text): nat
    requires s != []
  {
    if PairFirst(s) then 2 else 1
  }

  function StepBytes(s: Text): nat
    requires s != []
  {
    if s[0] <= 0x7f then 1 else if s[0] <= 0x7ff then 2 else if PairFirst(s) then 4 else 3
  }

  lemma Utf8Step(s: Text)
    requires s != []
    ensures StepUnits(s) <= |s| && |Utf8(s)| == StepBytes(s) + |Utf8(s[StepUnits(s)..])|
  {
    var points := CodePoints(s);
    CodePointsInRange(s);
    assert points == [points[0]] + CodePoints(s[StepUnits(s)..]);
    assert points[1..] == CodePoints(s[StepUnits(s)..]);
  }

  // ---- the scan -------------------------------------------------------------------------------------------------

  /** `boundedUtf8Length`. */
  method BoundedUtf8Length(value: Text, ceiling: nat) returns (bytes: nat)
    ensures bytes == if |Utf8(value)| <= ceiling then |Utf8(value)| else ceiling + 1
  {
    bytes := 0;
    var index := 0;
    while index < |value|
      invariant 0 <= index <= |value|
      invariant bytes + |Utf8(value[index..])| == |Utf8(value)| && bytes <= ceiling
    {
      var rest := value[index..];
      Utf8Step(rest);
      assert rest[StepUnits(rest)..] == value[index + StepUnits(rest)..];
      var code := value[index];
      if code <= 0x7f {
        bytes := bytes + 1;
      } else if code <= 0x7ff {
        bytes := bytes + 2;
      } else if 0xd800 <= code <= 0xdbff && index + 1 < |value| {
        var next := value[index + 1];
        if 0xdc00 <= next <= 0xdfff {
          bytes := bytes + 4;
          index := index + 1;
        } else {
          bytes := bytes + 3;
        }
      } else {
        bytes := bytes + 3;
      }
      index := index + 1;
      if bytes > ceiling { return ceiling + 1; }
    }
  }

  // ---- the meter ------------------------------------------------------------------------------------------------

  /** What a model response may contain. Numbers, booleans and null are metered as they print. */
  datatype Value =
    | Str(text: Text)
    | Printed(text: Text)
    | Array(items: seq<Value>)
    | Object(fields: seq<Field>)

  datatype Field = Field(key: Text, value: Value)

  /** Bytes a value costs: its strings and keys, and one byte for each container. */
  function Cost(v: Value): nat {
    match v
    case Str(text) => |Utf8(text)|
    case Printed(text) => |Utf8(text)|
    case Array(items) => 1 + ItemsCost(items)
    case Object(fields) => 1 + FieldsCost(fields)
  }

  function ItemsCost(items: seq<Value>): nat {
    if items == [] then 0 else Cost(items[0]) + ItemsCost(items[1..])
  }

  function FieldCost(f: Field): nat {
    |Utf8(f.key)| + Cost(f.value)
  }

  function FieldsCost(fields: seq<Field>): nat {
    if fields == [] then 0 else FieldCost(fields[0]) + FieldsCost(fields[1..])
  }

  const MAX_DEPTH: nat := 64

  /** No part of the value lies deeper than the limit. */
  predicate Shallow(v: Value, depth: nat) {
    depth <= MAX_DEPTH &&
    match v
    case Array(items) => forall k :: 0 <= k < |items| ==> Shallow(items[k], depth + 1)
    case Object(fields) => forall k :: 0 <= k < |fields| ==> ShallowField(fields[k], depth + 1)
    case _ => true
  }

  predicate ShallowField(f: Field, depth: nat) {
    Shallow(f.value, depth)
  }

  /** A container costs a byte and what its parts cost, wherever they stand; a field costs its key and its value. */
  lemma ContainerCosts(items: seq<Value>, item: Value, fields: seq<Field>, key: Text, value: Value)
    ensures Cost(Array([])) == 1 && Cost(Array(items + [item])) == Cost(Array(items)) + Cost(item)
    ensures Cost(Object([])) == 1
    ensures Cost(Object(fields + [Field(key, value)])) == Cost(Object(fields)) + |Utf8(key)| + Cost(value)
  {
    ItemsSnoc(items, item);
    FieldsSnoc(fields, Field(key, value));
  }

  lemma {:induction false} ItemsSnoc(items: seq<Value>, item: Value)
    ensures ItemsCost(items + [item]) == ItemsCost(items) + Cost(item)
  {
    if items == [] {
      assert [] + [item] == [item] && [item][1..] == [];
    } else {
      ItemsSnoc(items[1..], item);
      assert (items + [item])[1..] == items[1..] + [item];
    }
  }

  lemma {:induction false} FieldsSnoc(fields: seq<Field>, f: Field)
    ensures FieldsCost(fields + [f]) == FieldsCost(fields) + FieldCost(f)
  {
    if fields == [] {
      assert [] + [f] == [f] && [f][1..] == [];
    } else {
      FieldsSnoc(fields[1..], f);
      assert (fields + [f])[1..] == fields[1..] + [f];
    }
  }

  /** How many containers lie around the deepest part. */
  function Height(v: Value): nat {
    match v
    case Array(items) => ItemsHeight(items)
    case Object(fields) => FieldsHeight(fields)
    case _ => 0
  }

  function ItemsHeight(items: seq<Value>): nat {
    if items == [] then 0 else Larger(1 + Height(items[0]), ItemsHeight(items[1..]))
  }

  function FieldsHeight(fields: seq<Field>): nat {
    if fields == [] then 0 else Larger(1 + Height(fields[0].value), FieldsHeight(fields[1..]))
  }

  function Larger(a: nat, b: nat): nat {
    if a < b then b else a
  }

  /** A value that starts at a depth is shallow exactly when no part of it lies more than 64 containers deep. */
  lemma {:induction false} ShallowExactly(v: Value, depth: nat)
    ensures Shallow(v, depth) <==> depth + Height(v) <= 64
    decreases v, 1
  {
    match v
    case Array(items) => ItemsShallow(items, depth);
    case Object(fields) => FieldsShallow(fields, depth);
    case _ =>
  }

  lemma {:induction false} ItemsShallow(items: seq<Value>, depth: nat)
    ensures (depth <= 64 && forall k :: 0 <= k < |items| ==> Shallow(items[k], depth + 1))
       <==> depth + ItemsHeight(items) <= 64
    decreases items, 0
  {
    if items != [] {
      ShallowExactly(items[0], depth + 1);
      ItemsShallow(items[1..], depth);
      assert forall k :: 0 <= k < |items| ==> items[k] == if k == 0 then items[0] else items[1..][k - 1];
    }
  }

  lemma {:induction false} FieldsShallow(fields: seq<Field>, depth: nat)
    ensures (depth <= 64 && forall k :: 0 <= k < |fields| ==> ShallowField(fields[k], depth + 1))
       <==> depth + FieldsHeight(fields) <= 64
    decreases fields, 0
  {
    if fields != [] {
      ShallowExactly(fields[0].value, depth + 1);
      FieldsShallow(fields[1..], depth);
      assert forall k :: 0 <= k < |fields| ==> fields[k] == if k == 0 then fields[0] else fields[1..][k - 1];
    }
  }

  class BoundedOutputMeter {
    const ceiling: nat
    var bytes: nat

    constructor (ceiling: nat)
      ensures this.ceiling == ceiling && bytes == 0
    {
      this.ceiling := ceiling;
      bytes := 0;
    }

    /** `ok` is false where the source throws. */
    method AddString(value: Text) returns (ok: bool)
      modifies this
      ensures ok <==> old(bytes) + |Utf8(value)| <= ceiling
      ensures ok ==> bytes == old(bytes) + |Utf8(value)|
      ensures !ok ==> bytes > ceiling
    {
      var remaining := if bytes <= ceiling then ceiling - bytes else 0;
      var length := BoundedUtf8Length(value, remaining);
      bytes := bytes + length;
      ok := bytes <= ceiling;
    }

    /** `addValue`: accepted exactly when no part is too deep and the running sum stays within the ceiling. */
    method AddValue(value: Value, depth: nat) returns (ok: bool)
      modifies this
      ensures ok <==> Shallow(value, depth) && old(bytes) + Cost(value) <= ceiling
      ensures ok ==> bytes == old(bytes) + Cost(value)
      decreases value, 1
    {
      if depth > MAX_DEPTH { return false; }
      match value {
        case Str(text) => ok := AddString(text);
        case Printed(text) => ok := AddString(text);
        case Array(items) => ok := AddItems(items, depth);
        case Object(fields) => ok := AddFields(fields, depth);
      }
    }

    method AddItems(items: seq<Value>, depth: nat) returns (ok: bool)
      requires depth <= MAX_DEPTH
      modifies this
      ensures ok <==> Shallow(Array(items), depth) && old(bytes) + 1 + ItemsCost(items) <= ceiling
      ensures ok ==> bytes == old(bytes) + 1 + ItemsCost(items)
      decreases items, 0
    {
      BracketIsOneByte();
      ok := AddString(BRACKET);
      if !ok { return; }
      for k := 0 to |items|
        invariant bytes + ItemsCost(items[k..]) == old(bytes) + 1 + ItemsCost(items)
        invariant bytes <= ceiling && forall j :: 0 <= j < k ==> Shallow(items[j], depth + 1)
      {
        assert items[k..][1..] == items[k + 1..];
        ok := AddValue(items[k], depth + 1);
        if !ok { return; }
      }
      ok := true;
    }

    method AddFields(fields: seq<Field>, depth: nat) returns (ok: bool)
      requires depth <= MAX_DEPTH
      modifies this
      ensures ok <==> Shallow(Object(fields), depth) && old(bytes) + 1 + FieldsCost(fields) <= ceiling
      ensures ok ==> bytes == old(bytes) + 1 + FieldsCost(fields)
      decreases fields, 0
    {
      BracketIsOneByte();
      ok := AddString(BRACKET);
      if !ok { return; }
      for k := 0 to |fields|
        invariant bytes + FieldsCost(fields[k..]) == old(bytes) + 1 + FieldsCost(fields)
        invariant bytes <= ceiling && forall j :: 0 <= j < k ==> ShallowField(fields[j], depth + 1)
      {
        assert fields[k..][1..] == fields[k + 1..];
        ok := AddString(fields[k].key);
        if !ok { return; }
        ok := AddValue(fields[k].value, depth + 1);
        if !ok { return; }
      }
      ok := true;
    }
  }

  /** The character charged for a container. */
  const BRACKET: Text := [0x5b]

  lemma BracketIsOneByte()
    ensures |Utf8(BRACKET)| == 1
  {
    Utf8Step(BRACKET);
    assert BRACKET[1..] == [] && Utf8([]) == [];
  }

  // ---- the rope -------------------------------------------------------------------------------------------------

  function Concat(chunks: seq<Text>): Text {
    if chunks == [] then [] else Concat(chunks[..|chunks| - 1]) + chunks[|chunks| - 1]
  }

  lemma ConcatSnoc(chunks: seq<Text>, t: Text)
    ensures Concat(chunks + [t]) == Concat(chunks) + t
  {
    assert (chunks + [t])[..|chunks|] == chunks;
  }

  /** The byte count of the scan, step by step. */
  function ByteLength(s: Text): nat {
    if s == [] then 0 else StepBytes(s) + ByteLength(s[StepUnits(s)..])
  }

  lemma {:induction false} ByteLengthIsUtf8(s: Text)
    ensures |Utf8(s)| == ByteLength(s)
  {
    if s != [] {
      Utf8Step(s);
      ByteLengthIsUtf8(s[StepUnits(s)..]);
    }
  }

  lemma {:induction false} ByteLengthSubadditive(a: Text, b: Text)
    ensures ByteLength(a + b) <= ByteLength(a) + ByteLength(b)
    decreases |a|
  {
    if a == [] {
      assert a + b == b;
    } else if StepUnits(a + b) == StepUnits(a) {
      var n := StepUnits(a);
      assert (a + b)[n..] == a[n..] + b;
      ByteLengthSubadditive(a[n..], b);
    } else {
      assert |a| == 1 && |b| >= 1 && Low(b[0]) && !PairFirst(b);
      assert (a + b)[2..] == b[1..] && a[1..] == [];
    }
  }

  /** Concatenation never costs more: where a surrogate pair was split between the parts it costs
      two bytes less. */
  lemma Utf8Subadditive(a: Text, b: Text)
    ensures |Utf8(a + b)| <= |Utf8(a)| + |Utf8(b)|
  {
    ByteLengthIsUtf8(a + b);
    ByteLengthIsUtf8(a);
    ByteLengthIsUtf8(b);
    ByteLengthSubadditive(a, b);
  }

  class BoundedStreamText {
    const meter: BoundedOutputMeter
    var segments: seq<Text>
    var pending: seq<Text>
    var pendingCodeUnits: nat
    /** The chunks accepted so far. */
    ghost var accepted: seq<Text>

    ghost predicate Valid()
      reads this, meter
    {
      && Concat(segments) + Concat(pending) == Concat(accepted)
      && |Utf8(Concat(accepted))| <= meter.bytes
      && |Utf8(Concat(accepted))| <= meter.ceiling
    }

    constructor (ceiling: nat)
      ensures Valid() && accepted == [] && meter.ceiling == ceiling && fresh(meter) && meter.bytes == 0
    {
      meter := new BoundedOutputMeter(ceiling);
      segments, pending, pendingCodeUnits, accepted := [], [], 0, [];
      new;
      assert Concat([]) + Concat([]) == [] && Utf8([]) == [];
    }

    /** A rejected chunk leaves the text as it was. */
    method Add(value: Text) returns (ok: bool)
      requires Valid()
      modifies this, meter
      ensures Valid()
      ensures ok <==> old(meter.bytes) + |Utf8(value)| <= meter.ceiling
      ensures accepted == if ok then old(accepted) + [value] else old(accepted)
      ensures ok ==> meter.bytes == old(meter.bytes) + |Utf8(value)|
    {
      ok := meter.AddString(value);
      if !ok { return; }
      Utf8Subadditive(Concat(accepted), value);
      ConcatSnoc(accepted, value);
      if |value| == 0 { accepted := accepted + [value]; return; }
      ConcatSnoc(pending, value);
      assert Concat(segments) + (Concat(pending) + value) == Concat(segments) + Concat(pending) + value;
      pending := pending + [value];
      accepted := accepted + [value];
      pendingCodeUnits := pendingCodeUnits + |value|;
      if |pending| >= 1024 || pendingCodeUnits >= 64 * 1024 { Flush(); }
    }

    /** `toString`: the concatenation of the accepted chunks, within the ceiling. */
    method ToString() returns (text: Text)
      requires Valid()
      modifies this
      ensures Valid() && accepted == old(accepted)
      ensures text == Concat(accepted) && |Utf8(text)| <= meter.ceiling
    {
      Flush();
      text := Concat(segments);
    }

    method Flush()
      requires Valid()
      modifies this
      ensures Valid() && accepted == old(accepted) && Concat(segments) == Concat(accepted)
    {
      if |pending| == 0 {
        assert Concat(segments) + [] == Concat(segments);
        return;
      }
      ConcatSnoc(segments, Concat(pending));
      segments := segments + [Concat(pending)];
      pending, pendingCodeUnits := [], 0;
      assert Concat(segments) + Concat([]) == Concat(segments);
    }
  }
}

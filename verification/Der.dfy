/** The message under a signature: eleven DER values (ITU-T X.690, sections 8.1, 8.3 and 10.1) in a row,
    with no sequence around them. Bytes are numbers below 256. */
module Der {

  import opened Wrappers
  import opened Text

  type Bytes = seq<nat>

  predicate AreBytes(s: Bytes) { forall i :: 0 <= i < |s| ==> s[i] < 256 }

  // ---- contents ----------------------------------------------------------------------

  /** Two's complement in as few bytes as possible (X.690, section 8.3). */
  function IntegerBytes(n: int): (s: Bytes)
    ensures |s| >= 1 && AreBytes(s)
    decreases if n < 0 then -n else n
  {
    if -128 <= n < 128 then [n % 256] else IntegerBytes(n / 256) + [n % 256]
  }

  function IntegerValue(s: Bytes): int
  {
    if |s| == 0 then 0
    else if |s| == 1 then (if s[0] < 128 then s[0] else s[0] - 256)
    else IntegerValue(s[..|s| - 1]) * 256 + s[|s| - 1]
  }

  lemma {:induction false} IntegerRoundTrip(n: int)
    ensures IntegerValue(IntegerBytes(n)) == n
    decreases if n < 0 then -n else n
  {
    if !(-128 <= n < 128) {
      IntegerRoundTrip(n / 256);
      var s := IntegerBytes(n);
      assert s[..|s| - 1] == IntegerBytes(n / 256);
    }
  }

  /** The first nine bits are neither all zero nor all one (X.690, section 8.3.2). */
  predicate ShortestInteger(s: Bytes)
  {
    |s| >= 2 ==> !(s[0] == 0 && s[1] < 128) && !(s[0] == 255 && s[1] >= 128)
  }

  lemma {:induction false} IntegerIsShortest(n: int)
    ensures ShortestInteger(IntegerBytes(n))
    decreases if n < 0 then -n else n
  {
    if !(-128 <= n < 128) {
      IntegerIsShortest(n / 256);
      var high := IntegerBytes(n / 256);
      assert |high| >= 2 ==> IntegerBytes(n)[0] == high[0] && IntegerBytes(n)[1] == high[1];
    }
  }

  function UnsignedBytes(n: nat): (s: Bytes)
    ensures |s| >= 1 && AreBytes(s)
  {
    if n < 256 then [n] else UnsignedBytes(n / 256) + [n % 256]
  }

  function UnsignedValue(s: Bytes): nat
  {
    if |s| == 0 then 0 else UnsignedValue(s[..|s| - 1]) * 256 + s[|s| - 1]
  }

  lemma {:induction false} UnsignedRoundTrip(n: nat)
    ensures UnsignedValue(UnsignedBytes(n)) == n
  {
    if n >= 256 {
      UnsignedRoundTrip(n / 256);
      var s := UnsignedBytes(n);
      assert s[..|s| - 1] == UnsignedBytes(n / 256);
    } else {
      assert [n][..0] == [];
    }
  }

  /** PrintableString contents: ISO 8859-1, an error for any other character. */
  function Latin1(s: string): Option<Bytes>
  {
    if forall i :: 0 <= i < |s| ==> s[i] as int < 256
    then Some(seq(|s|, i requires 0 <= i < |s| => s[i] as int))
    else None
  }

  lemma Latin1Injective(s: string, t: string)
    requires Latin1(s).Some? && Latin1(s) == Latin1(t)
    ensures s == t
  {
    var bytes := Latin1(s).value;
    assert |s| == |t| == |bytes|;
    forall i | 0 <= i < |s| ensures s[i] == t[i] {
      assert bytes[i] == s[i] as int && bytes[i] == t[i] as int;
    }
  }

  /** One code point in UTF-8 (RFC 3629, section 3). */
  function Utf8Char(c: char): (s: Bytes)
    ensures 1 <= |s| && AreBytes(s)
  {
    var n := c as int;
    if n < 0x80 then [n]
    else if n < 0x800 then [0xC0 + n / 64, 0x80 + n % 64]
    else if n < 0x1_0000 then [0xE0 + n / 4096, 0x80 + n / 64 % 64, 0x80 + n % 64]
    else [0xF0 + n / 262144, 0x80 + n / 4096 % 64, 0x80 + n / 64 % 64, 0x80 + n % 64]
  }

  function Utf8(s: string): Bytes
  {
    if s == "" then [] else Utf8Char(s[0]) + Utf8(s[1..])
  }

  /** The code point at the front of a UTF-8 text. */
  function FirstPoint(s: Bytes): int
    requires |s| >= 1
  {
    var lead, low: int := s[0], -0x80;
    if lead < 0x80 then lead
    else if lead < 0xE0 && |s| >= 2 then (lead - 0xC0) * 64 + (low + s[1])
    else if lead < 0xF0 && |s| >= 3 then (lead - 0xE0) * 4096 + (low + s[1]) * 64 + (low + s[2])
    else if |s| >= 4 then (lead - 0xF0) * 262144 + (low + s[1]) * 4096 + (low + s[2]) * 64 + (low + s[3])
    else 0
  }

  lemma FirstPointOfChar(c: char, rest: Bytes)
    ensures FirstPoint(Utf8Char(c) + rest) == c as int
  {
    var n := c as int;
    assert n / 4096 * 64 + n / 64 % 64 == n / 64;
    assert n / 262144 * 64 + n / 4096 % 64 == n / 4096;
  }

  lemma {:induction false} Utf8Injective(s: string, t: string)
    requires Utf8(s) == Utf8(t)
    ensures s == t
  {
    if s != "" && t != "" {
      FirstPointOfChar(s[0], Utf8(s[1..]));
      FirstPointOfChar(t[0], Utf8(t[1..]));
      assert s[0] as int == t[0] as int;
      assert s[0] == t[0];
      var k := |Utf8Char(s[0])|;
      assert Utf8(s)[k..] == Utf8(s[1..]) && Utf8(t)[k..] == Utf8(t[1..]);
      Utf8Injective(s[1..], t[1..]);
      assert s == [s[0]] + s[1..] && t == [t[0]] + t[1..];
    }
  }

  // ---- tag, length, value ------------------------------------------------------------

  datatype Item = Item(tag: nat, content: Bytes)

  /** Definite form, as short as possible (X.690, sections 8.1.3 and 10.1). */
  function Length(n: nat): Bytes
  {
    if n < 128 then [n] else [128 + |UnsignedBytes(n)|] + UnsignedBytes(n)
  }

  function Encode(item: Item): Bytes { [item.tag] + Length(|item.content|) + item.content }

  function EncodeAll(items: seq<Item>): Bytes
  {
    if items == [] then [] else Encode(items[0]) + EncodeAll(items[1..])
  }

  /** The first value of a text and what follows it. */
  function Read(s: Bytes): Option<(Item, Bytes)>
  {
    if |s| < 2 then None
    else
      var count := if s[1] < 128 then 0 else s[1] - 128;
      if |s| < 2 + count then None
      else
        var length := if s[1] < 128 then s[1] else UnsignedValue(s[2..2 + count]);
        if |s| < 2 + count + length then None
        else Some((Item(s[0], s[2 + count..2 + count + length]), s[2 + count + length..]))
  }

  lemma ReadEncoded(item: Item, rest: Bytes)
    ensures Read(Encode(item) + rest) == Some((item, rest))
  {
    if |item.content| < 128 {
      ReadShort(item, rest);
    } else {
      ReadLong(item, rest);
    }
  }

  lemma ReadShort(item: Item, rest: Bytes)
    requires |item.content| < 128
    ensures Read(Encode(item) + rest) == Some((item, rest))
  {
    var s, n := Encode(item) + rest, |item.content|;
    assert s[2..2 + n] == item.content && s[2 + n..] == rest;
  }

  lemma ReadLong(item: Item, rest: Bytes)
    requires |item.content| >= 128
    ensures Read(Encode(item) + rest) == Some((item, rest))
  {
    var n := |item.content|;
    UnsignedRoundTrip(n);
    hide UnsignedBytes, UnsignedValue;
    var length := UnsignedBytes(n);
    var s, count := Encode(item) + rest, |length|;
    assert s == [item.tag, 128 + count] + length + item.content + rest;
    assert s[2..2 + count] == length;
    assert s[2 + count..2 + count + n] == item.content && s[2 + count + n..] == rest;
  }

  /** Values in a row can be told apart although nothing encloses them. */
  lemma {:induction false} EncodeAllInjective(items: seq<Item>, others: seq<Item>)
    requires |items| == |others| && EncodeAll(items) == EncodeAll(others)
    ensures items == others
  {
    if items != [] {
      ReadEncoded(items[0], EncodeAll(items[1..]));
      ReadEncoded(others[0], EncodeAll(others[1..]));
      EncodeAllInjective(items[1..], others[1..]);
      assert items == [items[0]] + items[1..] && others == [others[0]] + others[1..];
    }
  }

  // ---- the signed message ------------------------------------------------------------

  /** All that varies between two messages. `serial` is the SHA-256 digest of the public key. */
  datatype Content = Content(clientId: string, processData: string, processType: string, number: int, counter: int,
                             logTime: int, serial: Bytes)

  /** Object identifiers whose arcs are all below 128: one byte per arc after the first two. */
  function ObjectId(arcs: seq<nat>): Item { Item(0x06, [4] + arcs) }

  const CERTIFIED_DATA_TYPE := ObjectId([0, 127, 0, 7, 3, 7, 1, 1])
  const SIGNATURE_ALGORITHM := Item(0x30, Encode(ObjectId([0, 127, 0, 7, 1, 1, 4, 1, 4])))

  function Items(c: Content, clientId: Bytes, processType: Bytes, operation: Bytes): seq<Item>
  {
    [Item(0x02, IntegerBytes(2)), CERTIFIED_DATA_TYPE, Item(0x80, operation), Item(0x81, clientId),
     Item(0x82, Utf8(c.processData)), Item(0x83, processType), Item(0x85, IntegerBytes(c.number)),
     Item(0x04, c.serial), SIGNATURE_ALGORITHM, Item(0x02, IntegerBytes(c.counter)), Item(0x02, IntegerBytes(c.logTime))]
  }

  /** The message; None where the client id or the process type is not ISO 8859-1. */
  function Message(c: Content): Option<Bytes>
  {
    match (Latin1(c.clientId), Latin1(c.processType), Latin1("FinishTransaction"))
    case (Some(clientId), Some(processType), Some(operation)) =>
      Some(EncodeAll(Items(c, clientId, processType, operation)))
    case _ => None
  }

  lemma ItemsInjective(c: Content, d: Content, cc: Bytes, ct: Bytes, dc: Bytes, dt: Bytes, operation: Bytes)
    requires Items(c, cc, ct, operation) == Items(d, dc, dt, operation)
    ensures cc == dc && ct == dt && c.serial == d.serial && c.processData == d.processData
    ensures c.number == d.number && c.counter == d.counter && c.logTime == d.logTime
  {
    var a, b := Items(c, cc, ct, operation), Items(d, dc, dt, operation);
    assert a[3] == b[3] && a[4] == b[4] && a[5] == b[5] && a[6] == b[6] && a[7] == b[7] && a[9] == b[9] && a[10] == b[10];
    Utf8Injective(c.processData, d.processData);
    IntegerRoundTrip(c.number);
    IntegerRoundTrip(d.number);
    IntegerRoundTrip(c.counter);
    IntegerRoundTrip(d.counter);
    IntegerRoundTrip(c.logTime);
    IntegerRoundTrip(d.logTime);
  }

  /** Different contents never share a message, so a signature vouches for every field. */
  lemma MessageInjective(c: Content, d: Content)
    requires Message(c).Some? && Message(c) == Message(d)
    ensures c == d
  {
    hide EncodeAll, Items, Latin1;
    var operation := Latin1("FinishTransaction").value;
    var cc, ct := Latin1(c.clientId).value, Latin1(c.processType).value;
    var dc, dt := Latin1(d.clientId).value, Latin1(d.processType).value;
    ItemCount(c, cc, ct, operation);
    ItemCount(d, dc, dt, operation);
    EncodeAllInjective(Items(c, cc, ct, operation), Items(d, dc, dt, operation));
    ItemsInjective(c, d, cc, ct, dc, dt, operation);
    Latin1Injective(c.clientId, d.clientId);
    Latin1Injective(c.processType, d.processType);
  }

  lemma ItemCount(c: Content, clientId: Bytes, processType: Bytes, operation: Bytes)
    ensures |Items(c, clientId, processType, operation)| == 11
  {
  }

  // ---- what stands where -------------------------------------------------------------

  /** The n values a text consists of. */
  function ReadAll(s: Bytes, n: nat): Option<seq<Item>>
  {
    if n == 0 then if s == [] then Some([]) else None
    else
      match Read(s)
      case None => None
      case Some((item, rest)) =>
        match ReadAll(rest, n - 1)
        case None => None
        case Some(items) => Some([item] + items)
  }

  lemma {:induction false} ReadAllEncoded(items: seq<Item>)
    ensures ReadAll(EncodeAll(items), |items|) == Some(items)
  {
    hide Read, Encode;
    if items != [] {
      ReadEncoded(items[0], EncodeAll(items[1..]));
      ReadAllEncoded(items[1..]);
      assert |items[1..]| == |items| - 1 && [items[0]] + items[1..] == items;
    }
  }

  /** The arcs of an object identifier with one byte an arc (X.690, section 8.19). */
  function Arcs(content: Bytes): seq<nat>
  {
    if content == [] then [] else [content[0] / 40, content[0] % 40] + content[1..]
  }

  function CodePoints(s: string): Bytes { seq(|s|, i requires 0 <= i < |s| => s[i] as nat) }

  lemma Latin1IsCodePoints(s: string)
    ensures Latin1(s) == if forall i :: 0 <= i < |s| ==> s[i] as int <= 255 then Some(CodePoints(s)) else None
  {
  }

  /** The eleven values of the message, in order: version 2, certified data type 0.4.0.127.0.7.3.7.1.1, the
      operation, client, process data and process type, transaction number, serial number, the algorithm
      0.4.0.127.0.7.1.1.4.1.4, signature counter and log time. */
  lemma MessageLayout(c: Content) returns (items: seq<Item>)
    requires Message(c).Some?
    ensures ReadAll(Message(c).value, 11) == Some(items) && |items| == 11
    ensures items[0].tag == 0x02 && IntegerValue(items[0].content) == 2
    ensures items[1].tag == 0x06 && Arcs(items[1].content) == [0, 4, 0, 127, 0, 7, 3, 7, 1, 1]
    ensures items[2] == Item(0x80, CodePoints("FinishTransaction"))
    ensures items[3] == Item(0x81, CodePoints(c.clientId))
    ensures items[4] == Item(0x82, Utf8(c.processData))
    ensures items[5] == Item(0x83, CodePoints(c.processType))
    ensures items[6].tag == 0x85 && IntegerValue(items[6].content) == c.number
    ensures items[7] == Item(0x04, c.serial)
    ensures items[8].tag == 0x30
    ensures exists algorithm: Item :: ReadAll(items[8].content, 1) == Some([algorithm]) && algorithm.tag == 0x06
                                && Arcs(algorithm.content) == [0, 4, 0, 127, 0, 7, 1, 1, 4, 1, 4]
    ensures items[9].tag == 0x02 && IntegerValue(items[9].content) == c.counter
    ensures items[10].tag == 0x02 && IntegerValue(items[10].content) == c.logTime
  {
    hide IntegerBytes, IntegerValue, Utf8, Encode, EncodeAll, ReadAll, Latin1;
    Latin1IsCodePoints(c.clientId);
    Latin1IsCodePoints(c.processType);
    Latin1IsCodePoints("FinishTransaction");
    items := Items(c, CodePoints(c.clientId), CodePoints(c.processType), CodePoints("FinishTransaction"));
    ReadAllEncoded(items);
    IntegerRoundTrip(2);
    IntegerRoundTrip(c.number);
    IntegerRoundTrip(c.counter);
    IntegerRoundTrip(c.logTime);
    AlgorithmIsRead();
  }

  lemma AlgorithmIsRead()
    ensures exists algorithm: Item :: ReadAll(SIGNATURE_ALGORITHM.content, 1) == Some([algorithm]) && algorithm.tag == 0x06
                                && Arcs(algorithm.content) == [0, 4, 0, 127, 0, 7, 1, 1, 4, 1, 4]
  {
    var algorithm := ObjectId([0, 127, 0, 7, 1, 1, 4, 1, 4]);
    hide Encode;
    assert [algorithm][1..] == [] && EncodeAll([]) == [] && Encode(algorithm) + [] == Encode(algorithm);
    assert EncodeAll([algorithm]) == Encode(algorithm);
    ReadAllEncoded([algorithm]);
  }

  /** UTF-8 in as few bytes as possible (RFC 3629, section 3), each below 256. */
  lemma Utf8IsShort(c: char)
    ensures var n, s := c as int, Utf8Char(c);
            && |s| == (if n <= 0x7F then 1 else if n <= 0x7FF then 2 else if n <= 0xFFFF then 3 else 4)
            && (forall i :: 1 <= i < |s| ==> 0x80 <= s[i] <= 0xBF)
            && (if |s| == 1 then s[0] <= 0x7F
                else if |s| == 2 then 0xC2 <= s[0] <= 0xDF
                else if |s| == 3 then 0xE0 <= s[0] <= 0xEF
                else 0xF0 <= s[0] <= 0xF4)
  {
  }
}

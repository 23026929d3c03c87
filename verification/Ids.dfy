/** Device, private conversation and group ids and their canonical text. */
module Ids {
  import opened Basics
  import opened Decimals

  type DeviceId = bytes: seq<Octet> | |bytes| == 16 witness seq(16, _ => 0)

  datatype IdError = InvalidId(kind: string)

  // ------------------------------------------------------------------- devices

  function HexDigit(n: nat): (c: char)
    requires n < 16
    ensures IsHex(c) && HexValue(c) == n
  {
    if n < 10 then ('0' as int + n) as char else ('a' as int + n - 10) as char
  }

  /** Lower-case only. */
  predicate IsHex(c: char) {
    '0' <= c <= '9' || 'a' <= c <= 'f'
  }

  function HexValue(c: char): (n: nat)
    requires IsHex(c)
    ensures n < 16
  {
    if c <= '9' then c as int - '0' as int else c as int - 'a' as int + 10
  }

  predicate AllHex(text: string) {
    forall i :: 0 <= i < |text| ==> IsHex(text[i])
  }

  /** `{byte:02x}`. */
  function Pair(b: Octet): (r: string)
    ensures |r| == 2 && IsHex(r[0]) && IsHex(r[1])
  {
    [HexDigit(b as nat / 16), HexDigit(b as nat % 16)]
  }

  function OfPair(high: char, low: char): Octet
    requires IsHex(high) && IsHex(low)
  {
    (16 * HexValue(high) + HexValue(low)) as Octet
  }

  lemma PairsAreInverse(high: char, low: char, b: Octet)
    requires IsHex(high) && IsHex(low)
    ensures Pair(OfPair(high, low)) == [high, low]
    ensures OfPair(Pair(b)[0], Pair(b)[1]) == b
  {
    HexDigitOfValue(high);
    HexDigitOfValue(low);
    assert OfPair(high, low) as nat / 16 == HexValue(high) && OfPair(high, low) as nat % 16 == HexValue(low);
  }

  lemma HexDigitOfValue(c: char)
    requires IsHex(c)
    ensures HexDigit(HexValue(c)) == c
  {
  }

  function Hex(bytes: seq<Octet>): (r: string)
    ensures |r| == 2 * |bytes| && AllHex(r)
  {
    if bytes == [] then ""
    else
      var last := |bytes| - 1;
      Hex(bytes[..last]) + Pair(bytes[last])
  }

  function Unhex(text: string): (r: seq<Octet>)
    requires AllHex(text) && |text| % 2 == 0
    ensures 2 * |r| == |text|
  {
    if text == "" then []
    else
      var end := |text| - 2;
      Unhex(text[..end]) + [OfPair(text[end], text[end + 1])]
  }

  lemma {:induction false} UnhexOfHex(bytes: seq<Octet>)
    ensures Unhex(Hex(bytes)) == bytes
  {
    if bytes != [] {
      var last := |bytes| - 1;
      var r := Hex(bytes);
      UnhexOfHex(bytes[..last]);
      PairsAreInverse('0', '0', bytes[last]);
      assert r[..|r| - 2] == Hex(bytes[..last]);
      assert r[|r| - 2] == Pair(bytes[last])[0] && r[|r| - 1] == Pair(bytes[last])[1];
    }
  }

  lemma {:induction false} HexOfUnhex(text: string)
    requires AllHex(text) && |text| % 2 == 0
    ensures Hex(Unhex(text)) == text
  {
    if text != "" {
      var end := |text| - 2;
      HexOfUnhex(text[..end]);
      HexAppend(Unhex(text[..end]), OfPair(text[end], text[end + 1]));
      PairsAreInverse(text[end], text[end + 1], 0);
      assert text == text[..end] + [text[end], text[end + 1]];
    }
  }

  lemma HexAppend(bytes: seq<Octet>, b: Octet)
    ensures Hex(bytes + [b]) == Hex(bytes) + Pair(b)
  {
    assert (bytes + [b])[..|bytes|] == bytes;
  }

  function PrintDevice(id: DeviceId): string {
    "d_" + Hex(id)
  }

  function ParseDevice(text: string): Result<DeviceId, IdError> {
    if !("d_" <= text) then Err(InvalidId("DeviceId"))
    else
      var hex := text[2..];
      if |hex| != 32 || !AllHex(hex) then Err(InvalidId("DeviceId")) else Ok(Unhex(hex))
  }

  method DisplayDevice(id: DeviceId) returns (text: string)
    ensures text == PrintDevice(id)
  {
    text := "d_";
    for i := 0 to 16
      invariant text == "d_" + Hex(id[..i])
    {
      assert id[..i + 1][..i] == id[..i];
      text := text + Pair(id[i]);
    }
    assert id[..16] == id;
  }

  method ReadDevice(text: string) returns (result: Result<DeviceId, IdError>)
    ensures result == ParseDevice(text)
  {
    if !("d_" <= text) { return Err(InvalidId("DeviceId")); }
    var hex := text[2..];
    if |hex| != 32 || !AllHex(hex) { return Err(InvalidId("DeviceId")); }
    var bytes: seq<Octet> := [];
    for index := 0 to 16
      invariant |bytes| == index && bytes == Unhex(hex[..index * 2])
    {
      assert hex[..(index + 1) * 2][..index * 2] == hex[..index * 2];
      bytes := bytes + [OfPair(hex[index * 2], hex[index * 2 + 1])];
    }
    assert hex[..32] == hex;
    return Ok(bytes);
  }

  /** Printing and parsing device ids are inverse to each other. */
  lemma DeviceRoundTrip(id: DeviceId)
    ensures ParseDevice(PrintDevice(id)) == Ok(id)
  {
    UnhexOfHex(id);
    assert PrintDevice(id)[2..] == Hex(id);
  }

  const HEX_DIGITS: string := "0123456789abcdef"

  lemma {:induction false} HexAt(bytes: seq<Octet>, i: nat)
    requires i < |bytes|
    ensures Hex(bytes)[2 * i] == HEX_DIGITS[bytes[i] as nat / 16] && Hex(bytes)[2 * i + 1] == HEX_DIGITS[bytes[i] as nat % 16]
  {
    var last := |bytes| - 1;
    if i < last {
      HexAt(bytes[..last], i);
    } else {
      HexDigitIs(bytes[last] as nat / 16);
      HexDigitIs(bytes[last] as nat % 16);
    }
  }

  lemma HexDigitIs(n: nat)
    requires n < 16
    ensures HexDigit(n) == HEX_DIGITS[n]
  {
  }

  /** The text of a device: `d_`, then two lower-case digits for each byte, the high one first. */
  lemma DeviceTextIs(id: DeviceId, i: nat)
    requires i < 16
    ensures var text := PrintDevice(id);
            && |text| == 34 && text[..2] == "d_"
            && text[2 + 2 * i] == HEX_DIGITS[id[i] as nat / 16] && text[3 + 2 * i] == HEX_DIGITS[id[i] as nat % 16]
  {
    HexAt(id, i);
    assert PrintDevice(id)[2..] == Hex(id);
  }

  lemma DeviceTextIsCanonical(text: string)
    requires ParseDevice(text).Ok?
    ensures PrintDevice(ParseDevice(text).value) == text
  {
    HexOfUnhex(text[2..]);
    assert text == "d_" + text[2..];
  }

  // ------------------------------------------------------- private conversations

  /** The derived order: byte by byte. */
  predicate Before(a: seq<Octet>, b: seq<Octet>)
    requires |a| == |b|
  {
    a != [] && (a[0] < b[0] || (a[0] == b[0] && Before(a[1..], b[1..])))
  }

  lemma {:induction false} BeforeIsTotal(a: seq<Octet>, b: seq<Octet>)
    requires |a| == |b|
    ensures a == b || Before(a, b) || Before(b, a)
    ensures !(Before(a, b) && Before(b, a)) && (a == b ==> !Before(a, b))
  {
    if a != [] {
      BeforeIsTotal(a[1..], b[1..]);
      assert a == [a[0]] + a[1..] && b == [b[0]] + b[1..];
    }
  }

  lemma {:induction false} BeforeAtDifference(a: seq<Octet>, b: seq<Octet>, i: nat)
    requires |a| == |b| && i < |a| && a[..i] == b[..i] && a[i] < b[i]
    ensures Before(a, b)
  {
    if i > 0 {
      assert a[0] == a[..i][0] && b[0] == b[..i][0];
      assert a[1..][..i - 1] == a[..i][1..] && b[1..][..i - 1] == b[..i][1..];
      BeforeAtDifference(a[1..], b[1..], i - 1);
    }
  }

  datatype PrivateId = PrivateId(first: DeviceId, second: DeviceId)

  function NewPrivate(left: DeviceId, right: DeviceId): Result<PrivateId, IdError> {
    if left == right then Err(InvalidId("PrivateConversationId"))
    else if Before(left, right) then Ok(PrivateId(left, right)) else Ok(PrivateId(right, left))
  }

  function PrintPrivate(id: PrivateId): string {
    "p:" + PrintDevice(id.first) + ":" + PrintDevice(id.second)
  }

  /** `split_once(':')`. */
  function SplitOnce(text: string): Option<(string, string)> {
    if text == "" then None
    else if text[0] == ':' then Some(("", text[1..]))
    else match SplitOnce(text[1..])
      case None => None
      case Some((left, right)) => Some(([text[0]] + left, right))
  }

  lemma {:induction false} SplitOnceAt(left: string, right: string)
    requires ':' !in left
    ensures SplitOnce(left + ":" + right) == Some((left, right))
  {
    var text := left + ":" + right;
    if left != "" {
      assert text[1..] == left[1..] + ":" + right;
      SplitOnceAt(left[1..], right);
      assert [left[0]] + left[1..] == left;
    }
  }

  function ParsePrivate(text: string): Result<PrivateId, IdError> {
    if !("p:" <= text) then Err(InvalidId("PrivateConversationId"))
    else match SplitOnce(text[2..])
      case None => Err(InvalidId("PrivateConversationId"))
      case Some((left, right)) =>
        match (ParseDevice(left), ParseDevice(right))
        case (Err(e), _) => Err(e)
        case (Ok(_), Err(e)) => Err(e)
        case (Ok(a), Ok(b)) =>
          match NewPrivate(a, b)
          case Err(e) => Err(e)
          case Ok(id) => if PrintPrivate(id) == text then Ok(id) else Err(InvalidId("PrivateConversationId"))
  }

  /** The text of a conversation names first the device that is smaller at the first byte in which
      the two differ. */
  lemma PrivateTextIs(a: DeviceId, b: DeviceId, i: nat)
    requires i < 16 && a[..i] == b[..i] && a[i] < b[i]
    ensures NewPrivate(a, b).Ok? && NewPrivate(b, a) == NewPrivate(a, b)
    ensures PrintPrivate(NewPrivate(a, b).value) == "p:" + PrintDevice(a) + ":" + PrintDevice(b)
  {
    BeforeAtDifference(a, b, i);
    BeforeIsTotal(a, b);
  }

  lemma NoColonInDevice(id: DeviceId)
    ensures ':' !in PrintDevice(id)
  {
    var hex := Hex(id);
    assert forall i :: 0 <= i < |hex| ==> IsHex(hex[i]);
  }

  /** Both peers derive the same id, whoever comes first. */
  lemma PrivateIsSymmetric(a: DeviceId, b: DeviceId)
    ensures NewPrivate(a, b) == NewPrivate(b, a)
  {
    BeforeIsTotal(a, b);
  }

  lemma PrivateRoundTrip(a: DeviceId, b: DeviceId)
    requires a != b
    ensures NewPrivate(a, b).Ok? && ParsePrivate(PrintPrivate(NewPrivate(a, b).value)) == NewPrivate(a, b)
  {
    var id := NewPrivate(a, b).value;
    var left, right := PrintDevice(id.first), PrintDevice(id.second);
    NoColonInDevice(id.first);
    SplitOnceAt(left, right);
    assert PrintPrivate(id)[2..] == left + ":" + right;
    DeviceRoundTrip(id.first);
    DeviceRoundTrip(id.second);
    BeforeIsTotal(a, b);
  }

  /** Different unordered pairs have different conversations, in text as well. */
  lemma PrivateIsInjective(a: DeviceId, b: DeviceId, c: DeviceId, d: DeviceId)
    requires a != b && c != d && PrintPrivate(NewPrivate(a, b).value) == PrintPrivate(NewPrivate(c, d).value)
    ensures {a, b} == {c, d}
  {
    PrivateRoundTrip(a, b);
    PrivateRoundTrip(c, d);
  }

  /** Whatever is accepted is printed back unchanged, and with its devices in order. */
  lemma PrivateTextIsCanonical(text: string)
    requires ParsePrivate(text).Ok?
    ensures var id := ParsePrivate(text).value; PrintPrivate(id) == text && Before(id.first, id.second)
  {
    var (left, right) := SplitOnce(text[2..]).value;
    BeforeIsTotal(ParseDevice(left).value, ParseDevice(right).value);
  }

  // --------------------------------------------------------------------- groups

  datatype GroupId = GroupId(creator: DeviceId, sequence: nat)

  predicate ValidGroup(id: GroupId) {
    0 < id.sequence <= U64_MAX
  }

  function PrintGroup(id: GroupId): string {
    "g:" + PrintDevice(id.creator) + ":" + Decimal(id.sequence)
  }

  /** `rsplit_once(':')`. */
  function RSplitOnce(text: string): Option<(string, string)> {
    if text == "" then None
    else
      var last := |text| - 1;
      if text[last] == ':' then Some((text[..last], ""))
      else match RSplitOnce(text[..last])
        case None => None
        case Some((left, right)) => Some((left, right + [text[last]]))
  }

  lemma {:induction false} RSplitOnceAt(left: string, right: string)
    requires ':' !in right
    ensures RSplitOnce(left + ":" + right) == Some((left, right))
    decreases |right|
  {
    var text := left + ":" + right;
    if right == "" {
      assert text[..|text| - 1] == left;
    } else {
      var last := |right| - 1;
      assert text[..|text| - 1] == left + ":" + right[..last];
      RSplitOnceAt(left, right[..last]);
      assert right[..last] + [right[last]] == right;
    }
  }

  function ParseGroup(text: string): Result<GroupId, IdError> {
    if !("g:" <= text) then Err(InvalidId("GroupId"))
    else match RSplitOnce(text[2..])
      case None => Err(InvalidId("GroupId"))
      case Some((creator, sequence)) =>
        match (ParseU64(sequence), ParseDevice(creator))
        case (None, _) => Err(InvalidId("GroupId"))
        case (Some(_), Err(e)) => Err(e)
        case (Some(n), Ok(device)) =>
          if n == 0 || PrintGroup(GroupId(device, n)) != text then Err(InvalidId("GroupId")) else Ok(GroupId(device, n))
  }

  lemma NoColonInDecimal(n: nat)
    ensures ':' !in Decimal(n)
  {
    assert forall i :: 0 <= i < |Decimal(n)| ==> IsDigit(Decimal(n)[i]);
  }

  lemma GroupBody(id: GroupId)
    requires ':' !in Decimal(id.sequence)
    ensures "g:" <= PrintGroup(id)
            && RSplitOnce(PrintGroup(id)[2..]) == Some((PrintDevice(id.creator), Decimal(id.sequence)))
  {
    RSplitOnceAt(PrintDevice(id.creator), Decimal(id.sequence));
    assert PrintGroup(id)[2..] == PrintDevice(id.creator) + ":" + Decimal(id.sequence);
  }

  lemma GroupRoundTrip(id: GroupId)
    requires ValidGroup(id)
    ensures ParseGroup(PrintGroup(id)) == Ok(id)
    ensures ParseGroup("g:" + PrintDevice(id.creator) + ":" + Decimal(id.sequence)) == Ok(id)
  {
    NoColonInDecimal(id.sequence);
    GroupBody(id);
    ParseOfDecimal(id.sequence);
    DeviceRoundTrip(id.creator);
  }

  /** A plus sign and leading zeros parse as numbers but are rejected as group ids. */
  lemma GroupTextIsCanonical(text: string)
    requires ParseGroup(text).Ok?
    ensures ValidGroup(ParseGroup(text).value) && PrintGroup(ParseGroup(text).value) == text
  {
  }

  lemma NonCanonicalSequenceIsRejected(creator: DeviceId, sequence: string)
    requires ':' !in sequence && sequence != "" && (sequence[0] == '+' || (sequence[0] == '0' && |sequence| > 1))
    ensures ParseGroup("g:" + PrintDevice(creator) + ":" + sequence).Err?
  {
    var text := "g:" + PrintDevice(creator) + ":" + sequence;
    assert text[2..] == PrintDevice(creator) + ":" + sequence;
    RSplitOnceAt(PrintDevice(creator), sequence);
    DeviceRoundTrip(creator);
    if ParseU64(sequence).Some? {
      var n := ParseU64(sequence).value;
      NoLeadingZero(n);
      PrintedGroup(GroupId(creator, n), text, sequence);
    }
  }

  lemma PrintedGroup(id: GroupId, text: string, sequence: string)
    requires text == "g:" + PrintDevice(id.creator) + ":" + sequence
    ensures PrintGroup(id) == text <==> sequence == Decimal(id.sequence)
  {
    var prefix := "g:" + PrintDevice(id.creator) + ":";
    assert text[|prefix|..] == sequence && PrintGroup(id)[|prefix|..] == Decimal(id.sequence);
  }

  lemma {:induction false} NoLeadingZero(n: nat)
    ensures Decimal(n)[0] == '0' ==> |Decimal(n)| == 1
    ensures n > 0 ==> Decimal(n)[0] != '0'
  {
    if n >= 10 {
      NoLeadingZero(n / 10);
    }
  }
}

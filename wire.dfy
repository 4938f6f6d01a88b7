/** Wire-level values of the bridge protocol: Go's fixed-width integers,
    the messages delivered by a bridge subscription, and the decimal
    rendering of request identifiers (strconv.FormatUint with base 10). */
module Wire {

  const TWO_63: int := 0x8000_0000_0000_0000
  const TWO_64: int := 0x1_0000_0000_0000_0000

  /** Go's uint64 and int64, with their ranges written out. */
  type uint64 = x: int | 0 <= x < TWO_64
  type int64 = x: int | -TWO_63 <= x < TWO_63

  datatype Option<+T> = None | Some(value: T)

  /** Go's conversion uint64(x) of an int64: two's-complement reinterpretation. */
  function ToUint64(x: int64): (r: uint64)
    ensures (r - x) % TWO_64 == 0
  {
    if x < 0 then x + TWO_64 else x
  }

  /** Go's conversion int64(u) of a uint64: two's-complement reinterpretation. */
  function ToInt64(u: uint64): (r: int64)
    ensures (u - r) % TWO_64 == 0
  {
    if u >= TWO_63 then u - TWO_64 else u
  }

  lemma Int64RoundTrip(x: int64)
    ensures ToInt64(ToUint64(x)) == x
  {
  }

  lemma Uint64RoundTrip(u: uint64)
    ensures ToUint64(ToInt64(u)) == u
  {
  }

  /** The error object of a reply: a numeric code and a message that may be empty. */
  datatype WireError = WireError(code: int, message: string)

  /** One capability's reply inside a "connect" payload; `error` is nil on success. */
  datatype ItemReply = ItemReply(name: string, error: Option<WireError>)

  /** The device description of a wallet; its fields are carried, never inspected. */
  datatype DeviceInfo = DeviceInfo(raw: string)

  const NoDevice: DeviceInfo := DeviceInfo("")

  /** The payload of a message: the code and message read by the connect-error
      mapper, and the items and device of a successful connect. */
  datatype Payload = Payload(code: int, message: string, items: seq<ItemReply>, device: DeviceInfo)

  /** A protocol message. `id` is the identifier after the tolerant parse:
      None when it did not parse as a 64-bit integer. */
  datatype Message = Message(event: string, id: Option<int64>, payload: Payload, error: Option<WireError>)

  /** A message as delivered by a bridge subscription, with its origin. */
  datatype BridgeMessage = BridgeMessage(from: string, bridgeURL: string, message: Message)

  /** The outgoing disconnect request (`verb` is the wire field "method");
      its params list is always empty. */
  datatype DisconnectRequest = DisconnectRequest(id: string, verb: string, params: seq<string>)

  predicate IsDigit(c: char) {
    '0' <= c <= '9'
  }

  predicate IsDigits(s: string) {
    forall i :: 0 <= i < |s| ==> IsDigit(s[i])
  }

  function DigitChar(d: nat): (c: char)
    requires d < 10
    ensures IsDigit(c)
    ensures c == '0' <==> d == 0
  {
    ('0' as int + d) as char
  }

  function DigitValue(c: char): (d: nat)
    requires IsDigit(c)
    ensures d < 10 && DigitChar(d) == c
  {
    c as int - '0' as int
  }

  /** The base-10 rendering of a natural number, most significant digit first. */
  function Decimal(n: nat): (s: string)
    ensures |s| > 0 && IsDigits(s)
    ensures s[0] == '0' <==> n == 0
    ensures n == 0 ==> s == "0"
    decreases n
  {
    if n < 10 then [DigitChar(n)] else Decimal(n / 10) + [DigitChar(n % 10)]
  }

  /** strconv.FormatUint(u, 10). */
  function FormatUint(u: uint64): (s: string)
    ensures |s| > 0 && IsDigits(s)
    ensures s[0] == '0' ==> s == "0"
  {
    Decimal(u)
  }

  /** The value of a string of decimal digits (the inverse of Decimal). */
  function ParseDecimal(s: string): (n: nat)
    requires IsDigits(s)
    ensures s != [] && s[0] == '0' ==> n < Pow10(|s| - 1)
    ensures n < Pow10(|s|)
    decreases |s|
  {
    if s == [] then 0 else ParseDecimal(s[..|s| - 1]) * 10 + DigitValue(s[|s| - 1])
  }

  function Pow10(k: nat): (r: nat)
    ensures r >= 1
  {
    if k == 0 then 1 else 10 * Pow10(k - 1)
  }

  /** Rendering then parsing gives the number back. */
  lemma {:induction false} DecimalRoundTrip(n: nat)
    ensures ParseDecimal(Decimal(n)) == n
    decreases n
  {
    var s := Decimal(n);
    if n >= 10 {
      DecimalRoundTrip(n / 10);
      assert s[..|s| - 1] == Decimal(n / 10);
    } else {
      assert s[..|s| - 1] == [];
    }
  }

  /** A digit string whose first digit is not '0' denotes a positive number. */
  lemma {:induction false} ParseDecimalPositive(s: string)
    requires IsDigits(s) && |s| > 0 && s[0] != '0'
    ensures ParseDecimal(s) > 0
    decreases |s|
  {
    if |s| > 1 {
      ParseDecimalPositive(s[..|s| - 1]);
    }
  }

  /** Parsing then rendering a canonical digit string (no leading zero)
      gives the string back. */
  lemma {:induction false} ParseDecimalRoundTrip(s: string)
    requires IsDigits(s) && |s| > 0
    requires s[0] == '0' ==> |s| == 1
    ensures Decimal(ParseDecimal(s)) == s
    decreases |s|
  {
    var p := s[..|s| - 1];
    if |s| == 1 {
      assert p == [];
    } else {
      ParseDecimalRoundTrip(p);
      ParseDecimalPositive(p);
      var n := ParseDecimal(s);
      var d := DigitValue(s[|s| - 1]);
      assert n == ParseDecimal(p) * 10 + d;
      assert n / 10 == ParseDecimal(p) && n % 10 == d;
      assert s == p + [s[|s| - 1]];
    }
  }

  /** FormatUint is injective: distinct request identifiers get distinct strings. */
  lemma FormatUintInjective(a: uint64, b: uint64)
    requires FormatUint(a) == FormatUint(b)
    ensures a == b
  {
    DecimalRoundTrip(a);
    DecimalRoundTrip(b);
  }
}

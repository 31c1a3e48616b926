/**
 Unpadded base64url (section 5 of RFC 4648) and the two lenient decoders the repository's validators rest on:
 Go's base64.RawURLEncoding and Python's base64.urlsafe_b64decode.
 */
module Base64Url {
  import opened Wrappers

  type Byte = b: nat | b < 256
  type Sextet = d: nat | d < 64

  predicate IsDigit(c: char) {
    'A' <= c <= 'Z' || 'a' <= c <= 'z' || '0' <= c <= '9' || c == '-' || c == '_'
  }

  function Digit(value: Sextet): (c: char)
    ensures IsDigit(c) && Value(c) == value
  {
    if value < 26 then 'A' + (value as char)
    else if value < 52 then 'a' + ((value - 26) as char)
    else if value < 62 then '0' + ((value - 52) as char)
    else if value == 62 then '-' else '_'
  }

  function Value(c: char): Sextet
    requires IsDigit(c)
  {
    if 'A' <= c <= 'Z' then (c - 'A') as nat
    else if 'a' <= c <= 'z' then (c - 'a') as nat + 26
    else if '0' <= c <= '9' then (c - '0') as nat + 52
    else if c == '-' then 62 else 63
  }

  function Text(digits: seq<Sextet>): (text: string)
    ensures |text| == |digits|
    ensures forall i | 0 <= i < |text| :: IsDigit(text[i]) && Value(text[i]) == digits[i]
  {
    seq(|digits|, i requires 0 <= i < |digits| => Digit(digits[i]))
  }

  // ---- Bytes and groups of six bits ----

  function Sextets(raw: seq<Byte>): (digits: seq<Sextet>)
    ensures |digits| == (4 * |raw| + 2) / 3
  {
    if raw == [] then []
    else if |raw| == 1 then [raw[0] / 4, raw[0] % 4 * 16]
    else if |raw| == 2 then [raw[0] / 4, raw[0] % 4 * 16 + raw[1] / 16, raw[1] % 16 * 4]
    else Quantum(raw[0], raw[1], raw[2]) + Sextets(raw[3..])
  }

  function Quantum(first: Byte, second: Byte, third: Byte): (digits: seq<Sextet>)
    ensures |digits| == 4
  {
    [first / 4, first % 4 * 16 + second / 16, second % 16 * 4 + third / 64, third % 64]
  }

  function Encode(raw: seq<Byte>): (text: string)
    ensures |text| == (4 * |raw| + 2) / 3
    ensures forall i | 0 <= i < |text| :: IsDigit(text[i])
  {
    Text(Sextets(raw))
  }

  // The three bytes of a quantum, each from two neighbouring digits.
  function FirstByte(d: nat, e: nat): Byte requires d < 64 && e < 64 { d * 4 + e / 16 }

  function SecondByte(d: nat, e: nat): Byte requires d < 64 && e < 64 { d % 16 * 16 + e / 4 }

  function ThirdByte(d: nat, e: nat): Byte requires d < 64 && e < 64 { d % 4 * 64 + e }

  // Bits left over at the end are ignored, as both decoders do; a single left-over digit is an error.
  function Join(digits: seq<Sextet>): Option<seq<Byte>> {
    if digits == [] then Some([])
    else if |digits| == 1 then None
    else if |digits| == 2 then Some([FirstByte(digits[0], digits[1])])
    else if |digits| == 3 then Some([FirstByte(digits[0], digits[1]), SecondByte(digits[1], digits[2])])
    else
      Concat([FirstByte(digits[0], digits[1]), SecondByte(digits[1], digits[2]), ThirdByte(digits[2], digits[3])],
             Join(digits[4..]))
  }

  function Concat(front: seq<Byte>, rest: Option<seq<Byte>>): Option<seq<Byte>> {
    if rest.None? then None else Some(front + rest.value)
  }

  lemma QuantumJoins(first: Byte, second: Byte, third: Byte)
    ensures var digits := Quantum(first, second, third);
            && FirstByte(digits[0], digits[1]) == first
            && SecondByte(digits[1], digits[2]) == second
            && ThirdByte(digits[2], digits[3]) == third
  {
  }

  lemma PairJoins(first: Byte, second: Byte)
    ensures FirstByte(first / 4, first % 4 * 16 + second / 16) == first
    ensures FirstByte(first / 4, first % 4 * 16) == first
    ensures SecondByte(first % 4 * 16 + second / 16, second % 16 * 4) == second
  {
  }

  lemma {:induction false} JoinOfSextets(raw: seq<Byte>)
    ensures Join(Sextets(raw)) == Some(raw)
  {
    if |raw| == 1 {
      PairJoins(raw[0], 0);
      assert raw == [raw[0]];
    } else if |raw| == 2 {
      PairJoins(raw[0], raw[1]);
      assert raw == [raw[0], raw[1]];
    } else if |raw| >= 3 {
      JoinOfSextets(raw[3..]);
      QuantumJoins(raw[0], raw[1], raw[2]);
      assert Sextets(raw)[4..] == Sextets(raw[3..]);
      assert raw == [raw[0], raw[1], raw[2]] + raw[3..];
    }
  }

  // ---- Go: line breaks are skipped, any other foreign character is an error ----

  function WithoutLineBreaks(text: string): string {
    if text == "" then ""
    else (if text[0] == '\r' || text[0] == '\n' then "" else [text[0]]) + WithoutLineBreaks(text[1..])
  }

  function GoDecode(text: string): Option<seq<Byte>> {
    var digits := WithoutLineBreaks(text);
    if forall i | 0 <= i < |digits| :: IsDigit(digits[i])
    then Join(seq(|digits|, i requires 0 <= i < |digits| => Value(digits[i])))
    else None
  }

  lemma NoLineBreaksToDrop(text: string)
    requires forall i | 0 <= i < |text| :: IsDigit(text[i])
    ensures WithoutLineBreaks(text) == text
  {
  }

  lemma GoDecodesEncoding(raw: seq<Byte>)
    ensures GoDecode(Encode(raw)) == Some(raw)
  {
    var text := Encode(raw);
    NoLineBreaksToDrop(text);
    JoinOfSextets(raw);
    assert seq(|text|, i requires 0 <= i < |text| => Value(text[i])) == Sextets(raw);
  }

  // ---- Python: both alphabets are accepted, foreign characters are skipped, a full pad sequence ends the input ----

  datatype Symbol = Bits(value: Sextet) | Pad | Foreign

  function Classify(c: char): Symbol {
    if IsDigit(c) then Bits(Value(c))
    else if c == '+' then Bits(62)
    else if c == '/' then Bits(63)
    else if c == '=' then Pad
    else Foreign
  }

  // binascii.a2b_base64 in its default, non-strict mode: `position` digits of the current quantum have been read,
  // `left` holds their bits that are not output yet, and `pads` counts the pad characters since the last digit.
  function Scan(symbols: seq<Symbol>, position: nat, left: nat, pads: nat): Option<seq<Byte>>
    requires position < 4
    requires left < if position == 0 then 1 else if position == 1 then 64 else if position == 2 then 16 else 4
  {
    if symbols == [] then (if position == 0 then Some([]) else None)
    else
      match symbols[0]
      case Foreign => Scan(symbols[1..], position, left, pads)
      case Pad =>
        if position >= 2 && position + pads + 1 >= 4 then Some([])
        else Scan(symbols[1..], position, left, if position >= 2 then pads + 1 else pads)
      case Bits(value) =>
        if position == 0 then Scan(symbols[1..], 1, value, 0)
        else if position == 1 then Concat([FirstByte(left, value)], Scan(symbols[1..], 2, value % 16, 0))
        else if position == 2 then Concat([SecondByte(left, value)], Scan(symbols[1..], 3, value % 4, 0))
        else Concat([ThirdByte(left, value)], Scan(symbols[1..], 0, 0, 0))
  }

  predicate IsAscii(text: string) {
    forall i | 0 <= i < |text| :: text[i] < 128 as char
  }

  function PaddingLength(length: nat): nat {
    (4 - length % 4) % 4
  }

  // base64.urlsafe_b64decode of the text with the padding both Python validators append.
  function PythonDecode(text: string): Option<seq<Byte>> {
    var padded := text + seq(PaddingLength(|text|), _ => '=');
    if IsAscii(text) then Scan(seq(|padded|, i requires 0 <= i < |padded| => Classify(padded[i])), 0, 0, 0) else None
  }

  function Padded(digits: seq<Sextet>): seq<Symbol> {
    seq(|digits|, i requires 0 <= i < |digits| => Bits(digits[i])) + seq(PaddingLength(|digits|), _ => Pad)
  }

  lemma PythonDecodesEncoding(raw: seq<Byte>)
    ensures PythonDecode(Encode(raw)) == Some(raw)
  {
    var text := Encode(raw);
    var padded := text + seq(PaddingLength(|text|), _ => '=');
    assert seq(|padded|, i requires 0 <= i < |padded| => Classify(padded[i])) == Padded(Sextets(raw));
    ScanOfSextets(raw);
  }

  lemma {:induction false} ScanOfSextets(raw: seq<Byte>)
    ensures Scan(Padded(Sextets(raw)), 0, 0, 0) == Some(raw)
  {
    if raw == [] {
      assert Padded([]) == [];
    } else if |raw| == 1 {
      ScanOfOneByte(raw[0]);
      assert raw == [raw[0]];
    } else if |raw| == 2 {
      ScanOfTwoBytes(raw[0], raw[1]);
      assert raw == [raw[0], raw[1]];
    } else {
      ScanOfSextets(raw[3..]);
      var q, rest := Quantum(raw[0], raw[1], raw[2]), Padded(Sextets(raw[3..]));
      ScanOfQuantum(raw[0], raw[1], raw[2], rest);
      PaddedQuantum(q, Sextets(raw[3..]));
      assert Padded(Sextets(raw)) == [Bits(q[0]), Bits(q[1])] + ([Bits(q[2])] + ([Bits(q[3])] + rest));
      assert raw == [raw[0]] + ([raw[1]] + ([raw[2]] + raw[3..]));
    }
  }

  lemma PaddedQuantum(q: seq<Sextet>, rest: seq<Sextet>)
    requires |q| == 4
    ensures Padded(q + rest) == [Bits(q[0]), Bits(q[1])] + ([Bits(q[2])] + ([Bits(q[3])] + Padded(rest)))
  {
    assert PaddingLength(|q + rest|) == PaddingLength(|rest|);
  }

  lemma ScanOfOneByte(first: Byte)
    ensures Scan(Padded(Sextets([first])), 0, 0, 0) == Some([first])
  {
    var digits := Sextets([first]);
    assert Padded(digits) == [Bits(digits[0]), Bits(digits[1])] + [Pad, Pad];
    ScanTwo(digits[0], digits[1], [Pad, Pad]);
    assert [Pad, Pad][1..] == [Pad];
    assert Scan([Pad], 2, digits[1] % 16, 1) == Some([]);
    PairJoins(first, 0);
    assert [first] + [] == [first];
  }

  lemma ScanOfTwoBytes(first: Byte, second: Byte)
    ensures Scan(Padded(Sextets([first, second])), 0, 0, 0) == Some([first, second])
  {
    var digits := Sextets([first, second]);
    assert Padded(digits) == [Bits(digits[0]), Bits(digits[1])] + ([Bits(digits[2])] + [Pad]);
    ScanTwo(digits[0], digits[1], [Bits(digits[2])] + [Pad]);
    ScanThird(digits[1], digits[2], [Pad]);
    assert Scan([Pad], 3, digits[2] % 4, 0) == Some([]);
    PairJoins(first, second);
    assert [first] + ([second] + []) == [first, second];
  }

  lemma ScanTwo(first: Sextet, second: Sextet, rest: seq<Symbol>)
    ensures Scan([Bits(first), Bits(second)] + rest, 0, 0, 0) ==
            Concat([FirstByte(first, second)], Scan(rest, 2, second % 16, 0))
  {
    var symbols := [Bits(first), Bits(second)] + rest;
    assert symbols[1..] == [Bits(second)] + rest && symbols[1..][1..] == rest;
  }

  lemma ScanThird(second: Sextet, third: Sextet, rest: seq<Symbol>)
    ensures Scan([Bits(third)] + rest, 2, second % 16, 0) ==
            Concat([SecondByte(second, third)], Scan(rest, 3, third % 4, 0))
  {
    assert ([Bits(third)] + rest)[1..] == rest;
    assert SecondByte(second % 16, third) == SecondByte(second, third);
  }

  lemma ScanFourth(third: Sextet, fourth: Sextet, rest: seq<Symbol>)
    ensures Scan([Bits(fourth)] + rest, 3, third % 4, 0) == Concat([ThirdByte(third, fourth)], Scan(rest, 0, 0, 0))
  {
    assert ([Bits(fourth)] + rest)[1..] == rest;
    assert ThirdByte(third % 4, fourth) == ThirdByte(third, fourth);
  }

  lemma ScanOfQuantum(first: Byte, second: Byte, third: Byte, rest: seq<Symbol>)
    ensures var q := Quantum(first, second, third);
            Scan([Bits(q[0]), Bits(q[1])] + ([Bits(q[2])] + ([Bits(q[3])] + rest)), 0, 0, 0) ==
            Concat([first], Concat([second], Concat([third], Scan(rest, 0, 0, 0))))
  {
    var q := Quantum(first, second, third);
    ScanTwo(q[0], q[1], [Bits(q[2])] + ([Bits(q[3])] + rest));
    ScanThird(q[1], q[2], [Bits(q[3])] + rest);
    ScanFourth(q[2], q[3], rest);
    QuantumJoins(first, second, third);
  }
}

/** Base64 with padding, section 4 of RFC 4648, as the channel frames use it. */
module Base64 {
  import opened Json

  type Byte = b: int | 0 <= b < 256

  type Sextet = d: int | 0 <= d < 64

  function Letter(d: Sextet): char {
    if d < 26 then (d + 65) as char
    else if d < 52 then (d + 71) as char
    else if d < 62 then (d - 4) as char
    else if d == 62 then '+' else '/'
  }

  function Value(c: char): Option<Sextet> {
    if 'A' <= c <= 'Z' then Some(c as int - 65)
    else if 'a' <= c <= 'z' then Some(c as int - 71)
    else if '0' <= c <= '9' then Some(c as int + 4)
    else if c == '+' then Some(62) else if c == '/' then Some(63) else None
  }

  function Encode(bytes: seq<Byte>): (text: string)
    ensures |text| == (|bytes| + 2) / 3 * 4
  {
    if bytes == [] then ""
    else if |bytes| == 1 then [Letter(bytes[0] / 4), Letter(bytes[0] % 4 * 16), '=', '=']
    else if |bytes| == 2 then
      [Letter(bytes[0] / 4), Letter(bytes[0] % 4 * 16 + bytes[1] / 16), Letter(bytes[1] % 16 * 4), '=']
    else
      [Letter(bytes[0] / 4), Letter(bytes[0] % 4 * 16 + bytes[1] / 16), Letter(bytes[1] % 16 * 4 + bytes[2] / 64),
       Letter(bytes[2] % 64)] + Encode(bytes[3..])
  }

  /** Four characters: three bytes, or fewer when the last are padding; the unused bits of the last one are not looked at. */
  function DecodeGroup(group: string): Option<seq<Byte>>
    requires |group| == 4
  {
    var a, b := Value(group[0]), Value(group[1]);
    if a.None? || b.None? then None
    else
      var first := a.value * 4 + b.value / 16;
      if group[2] == '=' then (if group[3] == '=' then Some([first]) else None)
      else if Value(group[2]).None? then None
      else
        var c := Value(group[2]).value;
        var second := b.value % 16 * 16 + c / 4;
        if group[3] == '=' then Some([first, second])
        else if Value(group[3]).None? then None
        else Some([first, second, c % 4 * 64 + Value(group[3]).value])
  }

  /** b64decode with validation: padding only at the very end. */
  function Decode(text: string): Option<seq<Byte>> {
    if text == "" then Some([])
    else if |text| < 4 then None
    else
      match DecodeGroup(text[..4])
      case None => None
      case Some(bytes) =>
        if |text| == 4 then Some(bytes)
        else if |bytes| < 3 then None
        else
          match Decode(text[4..])
          case None => None
          case Some(rest) => Some(bytes + rest)
  }

  lemma ValueOfLetter(d: Sextet)
    ensures Value(Letter(d)) == Some(d) && Letter(d) != '='
  {
  }

  lemma GroupOfThree(a: Byte, b: Byte, c: Byte)
    ensures DecodeGroup([Letter(a / 4), Letter(a % 4 * 16 + b / 16), Letter(b % 16 * 4 + c / 64), Letter(c % 64)]) == Some([a, b, c])
  {
    ValueOfLetter(a / 4);
    ValueOfLetter(a % 4 * 16 + b / 16);
    ValueOfLetter(b % 16 * 4 + c / 64);
    ValueOfLetter(c % 64);
    hide Letter, Value;
  }

  lemma GroupOfTwo(a: Byte, b: Byte)
    ensures DecodeGroup([Letter(a / 4), Letter(a % 4 * 16 + b / 16), Letter(b % 16 * 4), '=']) == Some([a, b])
  {
    ValueOfLetter(a / 4);
    ValueOfLetter(a % 4 * 16 + b / 16);
    ValueOfLetter(b % 16 * 4);
    hide Letter, Value;
  }

  lemma GroupOfOne(a: Byte)
    ensures DecodeGroup([Letter(a / 4), Letter(a % 4 * 16), '=', '=']) == Some([a])
  {
    ValueOfLetter(a / 4);
    ValueOfLetter(a % 4 * 16);
    hide Letter, Value;
  }

  /** What is decoded is what was encoded. */
  lemma {:induction false} RoundTrip(bytes: seq<Byte>)
    ensures Decode(Encode(bytes)) == Some(bytes)
  {
    hide Letter, Value, DecodeGroup;
    if bytes == [] {
    } else if |bytes| == 1 {
      GroupOfOne(bytes[0]);
      assert bytes == [bytes[0]];
      assert Encode(bytes)[..4] == Encode(bytes);
    } else if |bytes| == 2 {
      GroupOfTwo(bytes[0], bytes[1]);
      assert bytes == [bytes[0], bytes[1]];
      assert Encode(bytes)[..4] == Encode(bytes);
    } else if |bytes| >= 3 {
      GroupOfThree(bytes[0], bytes[1], bytes[2]);
      RoundTrip(bytes[3..]);
      var text := Encode(bytes);
      assert text[4..] == Encode(bytes[3..]);
      assert text[..4] == [Letter(bytes[0] / 4), Letter(bytes[0] % 4 * 16 + bytes[1] / 16), Letter(bytes[1] % 16 * 4 + bytes[2] / 64),
                           Letter(bytes[2] % 64)];
      var head := [bytes[0], bytes[1], bytes[2]];
      assert bytes == head + bytes[3..];
      assert DecodeGroup(text[..4]) == Some(head);
      if bytes[3..] == [] {
        assert bytes == head && |text| == 4;
      } else {
        assert |text| > 4;
        assert Decode(text) == Some(head + bytes[3..]);
      }
    }
  }

  /** The letters of an encoding need no escaping in JSON text. */
  lemma {:induction false} EncodingIsPlain(bytes: seq<Byte>, i: nat)
    requires i < |Encode(bytes)|
    ensures Encode(bytes)[i] == '=' || Value(Encode(bytes)[i]).Some?
  {
    if |bytes| >= 3 && i >= 4 {
      EncodingIsPlain(bytes[3..], i - 4);
    }
  }

  /** Only base64 characters decode. */
  lemma {:induction false} DecodedIsPlain(text: string, i: nat)
    requires Decode(text).Some? && i < |text|
    ensures text[i] == '=' || Value(text[i]).Some?
  {
    hide Value;
    if i < 4 {
      assert text[..4][i] == text[i];
    } else {
      assert text[4..][i - 4] == text[i];
      DecodedIsPlain(text[4..], i - 4);
    }
  }
}

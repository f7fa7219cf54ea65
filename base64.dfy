/** `base64.b64encode(b).decode()`: the standard base64 alphabet and
    padding of section 4 of RFC 4648. */
module Base64 {
  import opened Wrappers
  import opened Values

  /** The characters of the base64 alphabet (Table 1 of RFC 4648) and the pad. */
  predicate IsBase64Char(c: char) {
    'A' <= c <= 'Z' || 'a' <= c <= 'z' || '0' <= c <= '9' || c == '+' || c == '/' || c == '='
  }

  /** The character of Table 1 of RFC 4648 for a 6-bit value. */
  function Digit(v: int): (c: char)
    requires 0 <= v < 64
    ensures IsBase64Char(c) && c != '='
  {
    if v < 26 then ('A' as int + v) as char
    else if v < 52 then ('a' as int + (v - 26)) as char
    else if v < 62 then ('0' as int + (v - 52)) as char
    else if v == 62 then '+'
    else '/'
  }

  /** One group of up to three bytes as four characters, padded with `=`. */
  function EncodeGroup(g: seq<byte>): (r: string)
    requires 1 <= |g| <= 3
    ensures |r| == 4
    ensures forall i :: 0 <= i < 4 ==> IsBase64Char(r[i])
    ensures (r[3] == '=') == (|g| < 3) && (r[2] == '=') == (|g| == 1)
  {
    var b0: int := g[0];
    var b1: int := if |g| > 1 then g[1] else 0;
    var b2: int := if |g| > 2 then g[2] else 0;
    [Digit(b0 / 4), Digit((b0 % 4) * 16 + b1 / 16),
     if |g| > 1 then Digit((b1 % 16) * 4 + b2 / 64) else '=',
     if |g| > 2 then Digit(b2 % 64) else '=']
  }

  function Encode(b: seq<byte>): (r: string)
    ensures |r| == 4 * ((|b| + 2) / 3)
    ensures forall i :: 0 <= i < |r| ==> IsBase64Char(r[i])
  {
    if |b| <= 3 then
      (if b == [] then [] else assert (|b| + 2) / 3 == 1; EncodeGroup(b))
    else
      var head := EncodeGroup(b[..3]);
      var tail := Encode(b[3..]);
      assert (|b| + 2) / 3 == 1 + (|b[3..]| + 2) / 3;
      assert forall i :: 4 <= i < |head + tail| ==> (head + tail)[i] == tail[i - 4];
      head + tail
  }

  /** The 6-bit value of an alphabet character: the inverse of `Digit`. */
  function DigitValue(c: char): (v: int)
    requires IsBase64Char(c) && c != '='
    ensures 0 <= v < 64 && Digit(v) == c
  {
    if 'A' <= c <= 'Z' then c as int - 'A' as int
    else if 'a' <= c <= 'z' then c as int - 'a' as int + 26
    else if '0' <= c <= '9' then c as int - '0' as int + 52
    else if c == '+' then 62
    else 63
  }

  lemma DigitRoundTrip(v: int)
    requires 0 <= v < 64
    ensures DigitValue(Digit(v)) == v
  {
  }

  predicate IsDigitChar(c: char) {
    IsBase64Char(c) && c != '='
  }

  /** Four characters back to one to three bytes; `None` for a character
      outside the alphabet or misplaced padding. */
  function DecodeGroup(q: string): (r: Option<seq<byte>>)
    requires |q| == 4
    ensures r.Some? ==> 1 <= |r.value| <= 3
  {
    if !IsDigitChar(q[0]) || !IsDigitChar(q[1]) then None
    else
      var d0 := DigitValue(q[0]);
      var d1 := DigitValue(q[1]);
      var b0 := d0 * 4 + d1 / 16;
      if q[2] == '=' then
        if q[3] == '=' then Some([b0]) else None
      else if !IsDigitChar(q[2]) then None
      else
        var d2 := DigitValue(q[2]);
        var b1 := (d1 % 16) * 16 + d2 / 4;
        if q[3] == '=' then Some([b0, b1])
        else if !IsDigitChar(q[3]) then None
        else Some([b0, b1, (d2 % 4) * 64 + DigitValue(q[3])])
  }

  /** Decoding of a padded base64 text; padding may end only the last
      group. */
  function Decode(s: string): (r: Option<seq<byte>>)
    decreases |s|
  {
    if s == [] then Some([])
    else if |s| < 4 then None
    else
      match DecodeGroup(s[..4])
      case None => None
      case Some(g) =>
        if |s| == 4 then Some(g)
        else if |g| < 3 then None
        else
          match Decode(s[4..])
          case None => None
          case Some(rest) => Some(g + rest)
  }

  /** The first two characters of a group give back its first byte and
      the high half of its second. */
  lemma LeadingDigits(b0: int, b1: int)
    requires 0 <= b0 < 256 && 0 <= b1 < 256
    ensures DigitValue(Digit(b0 / 4)) == b0 / 4
    ensures DigitValue(Digit((b0 % 4) * 16 + b1 / 16)) == (b0 % 4) * 16 + b1 / 16
    ensures (b0 / 4) * 4 + ((b0 % 4) * 16 + b1 / 16) / 16 == b0
    ensures ((b0 % 4) * 16 + b1 / 16) % 16 == b1 / 16
  {
    DigitRoundTrip(b0 / 4);
    DigitRoundTrip((b0 % 4) * 16 + b1 / 16);
  }

  /** The third character gives back the low half of the second byte and
      the top bits of the third. */
  lemma MiddleDigit(b1: int, b2: int)
    requires 0 <= b1 < 256 && 0 <= b2 < 256
    ensures DigitValue(Digit((b1 % 16) * 4 + b2 / 64)) == (b1 % 16) * 4 + b2 / 64
    ensures (b1 / 16) * 16 + ((b1 % 16) * 4 + b2 / 64) / 4 == b1
    ensures ((b1 % 16) * 4 + b2 / 64) % 4 == b2 / 64
  {
    DigitRoundTrip((b1 % 16) * 4 + b2 / 64);
  }

  lemma OneByteRoundTrip(g: seq<byte>)
    requires |g| == 1
    ensures DecodeGroup(EncodeGroup(g)) == Some(g)
  {
    LeadingDigits(g[0] as int, 0);
    assert DecodeGroup(EncodeGroup(g)) == Some([g[0]]);
    assert [g[0]] == g;
  }

  lemma TwoByteRoundTrip(g: seq<byte>)
    requires |g| == 2
    ensures DecodeGroup(EncodeGroup(g)) == Some(g)
  {
    LeadingDigits(g[0] as int, g[1] as int);
    MiddleDigit(g[1] as int, 0);
    assert DecodeGroup(EncodeGroup(g)) == Some([g[0], g[1]]);
    assert [g[0], g[1]] == g;
  }

  lemma ThreeByteRoundTrip(g: seq<byte>)
    requires |g| == 3
    ensures DecodeGroup(EncodeGroup(g)) == Some(g)
  {
    var b2: int := g[2];
    LeadingDigits(g[0] as int, g[1] as int);
    MiddleDigit(g[1] as int, b2);
    DigitRoundTrip(b2 % 64);
    assert (b2 / 64) * 64 + b2 % 64 == b2;
    assert DecodeGroup(EncodeGroup(g)) == Some([g[0], g[1], g[2]]);
    assert [g[0], g[1], g[2]] == g;
  }

  lemma EncodeGroupRoundTrip(g: seq<byte>)
    requires 1 <= |g| <= 3
    ensures DecodeGroup(EncodeGroup(g)) == Some(g)
  {
    if |g| == 1 {
      OneByteRoundTrip(g);
    } else if |g| == 2 {
      TwoByteRoundTrip(g);
    } else {
      ThreeByteRoundTrip(g);
    }
  }

  /** A full first group followed by a decodable text decodes to the
      group's bytes followed by the rest. */
  lemma DecodeAfterGroup(head: string, tail: string, g: seq<byte>, rest: seq<byte>)
    requires |head| == 4 && DecodeGroup(head) == Some(g) && |g| == 3
    requires Decode(tail) == Some(rest)
    ensures Decode(head + tail) == Some(g + rest)
  {
    assert (head + tail)[..4] == head;
    assert (head + tail)[4..] == tail;
    if tail == [] {
      assert head + tail == head;
      assert g + rest == g;
    }
  }

  /** A text of more than three bytes encodes as its first group followed
      by the encoding of the rest. */
  lemma EncodeSplit(b: seq<byte>)
    requires |b| > 3
    ensures Encode(b) == EncodeGroup(b[..3]) + Encode(b[3..])
  {
  }

  /** The round trip for a text of one group. */
  lemma RoundTripOneGroup(b: seq<byte>)
    requires 1 <= |b| <= 3
    ensures Decode(Encode(b)) == Some(b)
  {
    var q := EncodeGroup(b);
    assert Encode(b) == q;
    assert q[..4] == q;
    EncodeGroupRoundTrip(b);
    assert Decode(q) == DecodeGroup(q);
  }

  /** Decoding undoes encoding, for every byte string. */
  lemma {:induction false} RoundTrip(b: seq<byte>)
    ensures Decode(Encode(b)) == Some(b)
  {
    if b == [] {
    } else if |b| <= 3 {
      RoundTripOneGroup(b);
    } else {
      var head, tail := b[..3], b[3..];
      EncodeGroupRoundTrip(head);
      RoundTrip(tail);
      EncodeSplit(b);
      DecodeAfterGroup(EncodeGroup(head), Encode(tail), head, tail);
      assert head + tail == b;
    }
  }
}

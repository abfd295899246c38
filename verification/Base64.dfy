/** Unpadded base64 with the URL alphabet (section 5 of RFC 4648), as the ledger cursor uses it. */
module Base64 {
  import opened Wrappers

  type Byte = b: int | 0 <= b < 256

  function Digit(n: nat): (c: char)
    requires n < 64
    ensures Value(c) == Some(n)
    ensures c != '\r' && c != '\n'
  {
    if n < 26 then 'A' + n as char
    else if n < 52 then 'a' + (n - 26) as char
    else if n < 62 then '0' + (n - 52) as char
    else if n == 62 then '-'
    else '_'
  }

  function Value(c: char): (r: Option<nat>)
    ensures r.Some? ==> r.value < 64
  {
    if 'A' <= c <= 'Z' then Some((c - 'A') as nat)
    else if 'a' <= c <= 'z' then Some((c - 'a') as nat + 26)
    else if '0' <= c <= '9' then Some((c - '0') as nat + 52)
    else if c == '-' then Some(62)
    else if c == '_' then Some(63)
    else None
  }

  /** Three bytes become four digits; one or two left over become two or three. */
  function Encode(b: seq<Byte>): string {
    if |b| == 0 then ""
    else if |b| == 1 then [Digit(b[0] / 4), Digit(b[0] % 4 * 16)]
    else if |b| == 2 then [Digit(b[0] / 4), Digit(b[0] % 4 * 16 + b[1] / 16), Digit(b[1] % 16 * 4)]
    else
      [Digit(b[0] / 4), Digit(b[0] % 4 * 16 + b[1] / 16), Digit(b[1] % 16 * 4 + b[2] / 64), Digit(b[2] % 64)]
      + Encode(b[3..])
  }

  /** Line breaks are skipped wherever they stand. */
  function Unbroken(s: string): string {
    if s == [] then []
    else (if s[0] == '\r' || s[0] == '\n' then [] else [s[0]]) + Unbroken(s[1..])
  }

  /** The bytes of whole groups; bits beyond the last byte are ignored. */
  function DecodeDigits(s: string): Option<seq<Byte>> {
    if s == [] then Some([])
    else if |s| == 1 then None
    else
      var v0, v1 := Value(s[0]), Value(s[1]);
      if v0.None? || v1.None? then None
      else
        var b0: Byte := v0.value * 4 + v1.value / 16;
        if |s| == 2 then Some([b0])
        else
          var v2 := Value(s[2]);
          if v2.None? then None
          else
            var b1: Byte := v1.value % 16 * 16 + v2.value / 4;
            if |s| == 3 then Some([b0, b1])
            else
              var v3, rest := Value(s[3]), DecodeDigits(s[4..]);
              if v3.None? || rest.None? then None
              else
                var b2: Byte := v2.value % 4 * 64 + v3.value;
                Some([b0, b1, b2] + rest.value)
  }

  function Decode(s: string): Option<seq<Byte>> {
    DecodeDigits(Unbroken(s))
  }

  lemma {:induction false} EncodedIsUnbroken(b: seq<Byte>)
    ensures forall k :: 0 <= k < |Encode(b)| ==> Encode(b)[k] != '\r' && Encode(b)[k] != '\n'
  {
    if |b| >= 3 {
      EncodedIsUnbroken(b[3..]);
    }
  }

  lemma {:induction false} UnbrokenStays(s: string)
    requires forall k :: 0 <= k < |s| ==> s[k] != '\r' && s[k] != '\n'
    ensures Unbroken(s) == s
  {
    if s != [] {
      UnbrokenStays(s[1..]);
    }
  }

  /** The digits of a group give its bytes back; `x`, `y` stand for the bits of the next byte. */
  lemma GroupArithmetic(b0: Byte, b1: Byte, b2: Byte, x: nat, y: nat)
    requires x < 16 && y < 4
    ensures b0 / 4 * 4 + (b0 % 4 * 16 + x) / 16 == b0
    ensures (b0 % 4 * 16 + b1 / 16) % 16 * 16 + (b1 % 16 * 4 + y) / 4 == b1
    ensures (b1 % 16 * 4 + b2 / 64) % 4 * 64 + b2 % 64 == b2
  {
    assert (b0 % 4 * 16 + x) / 16 == b0 % 4;
    assert (b0 % 4 * 16 + b1 / 16) % 16 == b1 / 16;
    assert (b1 % 16 * 4 + y) / 4 == b1 % 16;
    assert (b1 % 16 * 4 + b2 / 64) % 4 == b2 / 64;
  }

  lemma NoneRoundTrip()
    ensures DecodeDigits("") == Some([])
  {
  }

  lemma OneRoundTrip(b0: Byte)
    ensures DecodeDigits([Digit(b0 / 4), Digit(b0 % 4 * 16)]) == Some([b0])
  {
    hide Digit, Value;
    assert b0 % 4 * 16 / 16 == b0 % 4;
  }

  lemma TwoRoundTrip(b0: Byte, b1: Byte)
    ensures DecodeDigits([Digit(b0 / 4), Digit(b0 % 4 * 16 + b1 / 16), Digit(b1 % 16 * 4)]) == Some([b0, b1])
  {
    hide Digit, Value;
    GroupArithmetic(b0, b1, 0, b1 / 16, 0);
    assert b1 % 16 * 4 / 4 == b1 % 16;
  }

  lemma {:induction false} DigitsRoundTrip(b: seq<Byte>)
    ensures DecodeDigits(Encode(b)) == Some(b)
  {
    hide Digit, Value, DecodeDigits;
    if |b| == 0 {
      NoneRoundTrip();
    } else if |b| == 1 {
      OneRoundTrip(b[0]);
      assert b == [b[0]];
    } else if |b| == 2 {
      TwoRoundTrip(b[0], b[1]);
      assert b == [b[0], b[1]];
    } else {
      DigitsRoundTrip(b[3..]);
      GroupRoundTrip(b[0], b[1], b[2], Encode(b[3..]));
      assert b == [b[0], b[1], b[2]] + b[3..];
    }
  }

  lemma GroupRoundTrip(b0: Byte, b1: Byte, b2: Byte, tail: string)
    requires DecodeDigits(tail).Some?
    ensures DecodeDigits([Digit(b0 / 4), Digit(b0 % 4 * 16 + b1 / 16),
                          Digit(b1 % 16 * 4 + b2 / 64), Digit(b2 % 64)] + tail)
            == Some([b0, b1, b2] + DecodeDigits(tail).value)
  {
    hide Digit, Value;
    GroupArithmetic(b0, b1, b2, b1 / 16, b2 / 64);
    var s := [Digit(b0 / 4), Digit(b0 % 4 * 16 + b1 / 16), Digit(b1 % 16 * 4 + b2 / 64), Digit(b2 % 64)] + tail;
    assert s[4..] == tail;
  }

  /** Decoding what was encoded gives it back, for all bytes. */
  lemma RoundTrip(b: seq<Byte>)
    ensures Decode(Encode(b)) == Some(b)
    ensures b != [] ==> Encode(b) != ""
  {
    EncodedIsUnbroken(b);
    UnbrokenStays(Encode(b));
    DigitsRoundTrip(b);
  }

  /** Nothing but the alphabet, in groups that hold whole bytes, is decoded. */
  lemma {:induction false} DigitsAreAcceptedIff(s: string)
    ensures DecodeDigits(s).Some? <==>
              |s| % 4 != 1 && forall k :: 0 <= k < |s| ==> Value(s[k]).Some?
    decreases |s|
  {
    if |s| >= 4 {
      DigitsAreAcceptedIff(s[4..]);
      assert forall k :: 4 <= k < |s| ==> s[k] == s[4..][k - 4];
      assert forall k :: 0 <= k < |s| - 4 ==> s[4..][k] == s[k + 4];
    }
  }

  /** Each value has one digit. */
  lemma ValueIsOfOneDigit(c: char)
    ensures Value(c).Some? ==> Digit(Value(c).value) == c
  {
  }

  // ---------------------------------------------------------------- text

  /** The bytes of an ASCII text. */
  function Bytes(s: string): seq<Byte>
    requires forall k :: 0 <= k < |s| ==> s[k] < 128 as char
  {
    seq(|s|, k requires 0 <= k < |s| => s[k] as int)
  }

  /** One character per byte. */
  function Text(b: seq<Byte>): string {
    seq(|b|, k requires 0 <= k < |b| => b[k] as char)
  }

  lemma TextOfBytes(s: string)
    requires forall k :: 0 <= k < |s| ==> s[k] < 128 as char
    ensures Text(Bytes(s)) == s
  {
  }
}

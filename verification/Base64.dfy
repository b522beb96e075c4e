/** Base 64 with padding, section 4 of RFC 4648, over byte sequences. */
module Base64 {
  import opened Common

  type Byte = n: nat | n < 256

  type Sextet = n: nat | n < 64

  function Letter(i: Sextet): char {
    if i < 26 then ('A' as int + i) as char
    else if i < 52 then ('a' as int + (i - 26)) as char
    else if i < 62 then ('0' as int + (i - 52)) as char
    else if i == 62 then '+' else '/'
  }

  function Value(c: char): Option<Sextet> {
    if 'A' <= c <= 'Z' then Some(c as int - 'A' as int)
    else if 'a' <= c <= 'z' then Some(c as int - 'a' as int + 26)
    else if '0' <= c <= '9' then Some(c as int - '0' as int + 52)
    else if c == '+' then Some(62)
    else if c == '/' then Some(63)
    else None
  }

  /** One quantum: one to three bytes become four characters. */
  function EncodeGroup(b: seq<Byte>): (r: string)
    requires 1 <= |b| <= 3
    ensures |r| == 4
  {
    var b0: int, b1: int, b2: int := b[0], if |b| > 1 then b[1] else 0, if |b| > 2 then b[2] else 0;
    [Letter(b0 / 4), Letter(b0 % 4 * 16 + b1 / 16),
     if |b| > 1 then Letter(b1 % 16 * 4 + b2 / 64) else '=',
     if |b| > 2 then Letter(b2 % 64) else '=']
  }

  function Encode(b: seq<Byte>): string {
    if b == [] then [] else if |b| <= 3 then EncodeGroup(b) else EncodeGroup(b[..3]) + Encode(b[3..])
  }

  function DecodeGroup(s: string): Option<seq<Byte>>
    requires |s| == 4
  {
    var a, b, c, d := Value(s[0]), Value(s[1]), Value(s[2]), Value(s[3]);
    if a.None? || b.None? then None
    else
      var first := a.value * 4 + b.value / 16;
      if s[2..] == "==" then Some([first])
      else if c.None? then None
      else
        var second := b.value % 16 * 16 + c.value / 4;
        if s[3] == '=' then Some([first, second])
        else if d.None? then None
        else Some([first, second, c.value % 4 * 64 + d.value])
  }

  function Decode(s: string): Option<seq<Byte>> {
    if s == [] then Some([])
    else if |s| < 4 then None
    else
      var head, tail := DecodeGroup(s[..4]), Decode(s[4..]);
      if head.None? || tail.None? then None else Some(head.value + tail.value)
  }

  lemma LetterValue(i: Sextet)
    ensures Value(Letter(i)) == Some(i) && Letter(i) != '='
            && ' ' < Letter(i) <= '~' && Letter(i) != '"' && Letter(i) != '\\'
  {
  }

  lemma Regroup(b0: Byte, b1: Byte, b2: Byte)
    ensures var p, q, r, s := b0 / 4, b0 % 4 * 16 + b1 / 16, b1 % 16 * 4 + b2 / 64, b2 % 64;
            p * 4 + q / 16 == b0 && q % 16 * 16 + r / 4 == b1 && r % 4 * 64 + s == b2
  {
  }

  lemma DecodeLetters(p: Sextet, q: Sextet, r: Sextet, s: Sextet)
    ensures DecodeGroup([Letter(p), Letter(q), '=', '=']) == Some([p * 4 + q / 16])
    ensures DecodeGroup([Letter(p), Letter(q), Letter(r), '=']) == Some([p * 4 + q / 16, q % 16 * 16 + r / 4])
    ensures DecodeGroup([Letter(p), Letter(q), Letter(r), Letter(s)]) ==
            Some([p * 4 + q / 16, q % 16 * 16 + r / 4, r % 4 * 64 + s])
  {
    LetterValue(p);
    LetterValue(q);
    LetterValue(r);
    LetterValue(s);
    assert [Letter(p), Letter(q), '=', '='][2..] == "==";
    assert [Letter(p), Letter(q), Letter(r), '='][2..][0] != '=';
    assert [Letter(p), Letter(q), Letter(r), Letter(s)][2..][0] != '=';
  }

  lemma GroupRoundTrip(b: seq<Byte>)
    requires 1 <= |b| <= 3
    ensures DecodeGroup(EncodeGroup(b)) == Some(b)
  {
    var b0, b1, b2 := b[0], if |b| > 1 then b[1] else 0, if |b| > 2 then b[2] else 0;
    Regroup(b0, b1, b2);
    Decoded(b, b0 / 4, b0 % 4 * 16 + b1 / 16, b1 % 16 * 4 + b2 / 64, b2 % 64);
  }

  lemma Decoded(b: seq<Byte>, p: Sextet, q: Sextet, r: Sextet, s: Sextet)
    requires 1 <= |b| <= 3
    requires EncodeGroup(b) ==
             [Letter(p), Letter(q), if |b| > 1 then Letter(r) else '=', if |b| > 2 then Letter(s) else '=']
    requires b[0] == p * 4 + q / 16
    requires |b| > 1 ==> b[1] == q % 16 * 16 + r / 4
    requires |b| > 2 ==> b[2] == r % 4 * 64 + s
    ensures DecodeGroup(EncodeGroup(b)) == Some(b)
  {
    DecodeLetters(p, q, r, s);
    assert |b| == 1 ==> b == [b[0]];
    assert |b| == 2 ==> b == [b[0], b[1]];
    assert |b| == 3 ==> b == [b[0], b[1], b[2]];
  }

  lemma {:induction false} RoundTrip(b: seq<Byte>)
    ensures Decode(Encode(b)) == Some(b)
    decreases |b|
  {
    if b != [] {
      var head := if |b| <= 3 then b else b[..3];
      var tail: seq<Byte> := if |b| <= 3 then [] else b[3..];
      GroupRoundTrip(head);
      RoundTrip(tail);
      assert Encode(b) == EncodeGroup(head) + Encode(tail);
      assert Encode(b)[..4] == EncodeGroup(head) && Encode(b)[4..] == Encode(tail);
      assert head + tail == b;
    }
  }

  /** Four characters for every three bytes or part of three; all of them plain ASCII. */
  lemma {:induction false} EncodedShape(b: seq<Byte>)
    ensures 3 * |Encode(b)| <= 4 * (|b| + 2)
    ensures forall i :: 0 <= i < |Encode(b)| ==>
              ' ' < Encode(b)[i] <= '~' && Encode(b)[i] != '"' && Encode(b)[i] != '\\'
    decreases |b|
  {
    if b != [] {
      var head := if |b| <= 3 then b else b[..3];
      var tail: seq<Byte> := if |b| <= 3 then [] else b[3..];
      EncodedShape(tail);
      assert Encode(b) == EncodeGroup(head) + Encode(tail);
    }
  }

  /** The example vectors of section 10 of RFC 4648, and the two letters they leave out. */
  lemma PublishedVectors()
    ensures Encode([]) == ""
    ensures Encode([102]) == "Zg==" && Encode([102, 111]) == "Zm8=" && Encode([102, 111, 111]) == "Zm9v"
    ensures Encode([102, 111, 111, 98, 97, 114]) == "Zm9vYmFy"
    ensures Letter(62) == '+' && Letter(63) == '/'
  {
    var foobar: seq<Byte> := [102, 111, 111, 98, 97, 114];
    assert foobar[..3] == [102, 111, 111] && foobar[3..] == [98, 97, 114];
    assert EncodeGroup([98, 97, 114]) == "YmFy";
  }
}

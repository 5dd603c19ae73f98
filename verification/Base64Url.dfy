/**
  base64url decoding of DoH queries (src/cache/dns.rs), against the encoding of section 5 of
  RFC 4648.  The bit buffer is a machine word in the program; here it is a number, shown to
  stay small.
 */
module Base64Url {
  import opened Common

  type Text = seq<byte>

  const PAD: byte := 61

  /** The six bits a character stands for. */
  function ValueOf(ch: byte): (r: Option<nat>)
    ensures r.Some? ==> r.value < 64
  {
    if 65 <= ch <= 90 then Some(ch - 65)
    else if 97 <= ch <= 122 then Some(ch - 97 + 26)
    else if 48 <= ch <= 57 then Some(ch - 48 + 52)
    else if ch == 45 then Some(62)
    else if ch == 95 then Some(63)
    else None
  }

  datatype State = State(buffer: nat, bits: nat, output: seq<byte>)

  const Start := State(0, 0, [])

  function Pow2(n: nat): (p: nat)
    ensures p > 0
  {
    if n == 0 then 1 else 2 * Pow2(n - 1)
  }

  /** Shift six bits in and, when there are eight, one byte out. */
  function Shift(s: State, value: nat): State
    requires value < 64
  {
    var buffer, bits := s.buffer * 64 + value, s.bits + 6;
    if bits < 8 then State(buffer, bits, s.output)
    else State(buffer % Pow2(bits - 8), bits - 8, s.output + [buffer / Pow2(bits - 8) % 256])
  }

  function DecodeFrom(s: State, input: Text): Option<State>
    decreases |input|
  {
    if input == [] then Some(s)
    else if input[0] == PAD then DecodeFrom(s, input[1..])
    else
      match ValueOf(input[0])
      case None => None
      case Some(value) => DecodeFrom(Shift(s, value), input[1..])
  }

  function Decode(input: Text): Option<seq<byte>> {
    match DecodeFrom(Start, input)
    case None => None
    case Some(s) => Some(s.output)
  }

  method DecodeLoop(input: Text) returns (r: Option<seq<byte>>)
    ensures r == Decode(input)
  {
    var buffer: nat, bits: nat, output: seq<byte> := 0, 0, [];
    for i := 0 to |input|
      invariant DecodeFrom(State(buffer, bits, output), input[i..]) == DecodeFrom(Start, input)
    {
      assert input[i..][1..] == input[i + 1..];
      var ch := input[i];
      if ch == PAD { continue; }
      var value := ValueOf(ch);
      if value.None? { return None; }
      buffer := buffer * 64 + value.value;
      bits := bits + 6;
      if bits >= 8 {
        bits := bits - 8;
        output := output + [buffer / Pow2(bits) % 256];
        buffer := buffer % Pow2(bits);
      }
    }
    return Some(output);
  }

  // ----- the buffer and the length -------------------------------------------------------------------

  function Strip(input: Text): Text {
    if input == [] then []
    else if input[0] == PAD then Strip(input[1..])
    else [input[0]] + Strip(input[1..])
  }

  /** The bits in hand are the buffer's, and every six bits read are in the output or in hand. */
  ghost predicate Sound(s: State, read: nat) {
    && (s.bits == 0 || s.bits == 2 || s.bits == 4 || s.bits == 6)
    && s.buffer < Pow2(s.bits)
    && 8 * |s.output| + s.bits == 6 * read
  }

  lemma SmallPowers()
    ensures Pow2(0) == 1 && Pow2(2) == 4 && Pow2(4) == 16 && Pow2(6) == 64
  {
    assert Pow2(1) == 2 && Pow2(3) == 8 && Pow2(5) == 32;
  }

  /** The word never holds more than twelve bits, and the byte pushed out is not truncated. */
  lemma ShiftSound(s: State, value: nat, read: nat)
    requires Sound(s, read) && value < 64
    ensures Sound(Shift(s, value), read + 1)
    ensures s.buffer * 64 + value < 0x1000
    ensures s.bits >= 2 ==> (s.buffer * 64 + value) / Pow2(s.bits - 2) < 256
  {
    SmallPowers();
  }

  lemma {:induction false} DecodeFromSound(s: State, input: Text, read: nat)
    requires Sound(s, read)
    ensures DecodeFrom(s, input).Some? ==> Sound(DecodeFrom(s, input).value, read + |Strip(input)|)
    decreases |input|
  {
    if input == [] {
    } else if input[0] == PAD {
      DecodeFromSound(s, input[1..], read);
    } else if ValueOf(input[0]).Some? {
      ShiftSound(s, ValueOf(input[0]).value, read);
      DecodeFromSound(Shift(s, ValueOf(input[0]).value), input[1..], read + 1);
    }
  }

  /** Decoding yields the whole bytes in six bits per character, and fails exactly on a
      character outside the alphabet. */
  lemma DecodedLength(input: Text)
    ensures Decode(input).Some? ==> |Decode(input).value| == 6 * |Strip(input)| / 8
    ensures Decode(input).Some? <==> forall i :: 0 <= i < |input| && input[i] != PAD ==> ValueOf(input[i]).Some?
  {
    SmallPowers();
    DecodeFromSound(Start, input, 0);
    DecodesExactly(Start, input);
  }

  lemma {:induction false} DecodesExactly(s: State, input: Text)
    ensures DecodeFrom(s, input).Some? <==> forall i :: 0 <= i < |input| && input[i] != PAD ==> ValueOf(input[i]).Some?
    decreases |input|
  {
    if input != [] {
      var rest := input[1..];
      assert forall i :: 0 < i < |input| ==> input[i] == rest[i - 1];
      if input[0] == PAD {
        DecodesExactly(s, rest);
      } else if ValueOf(input[0]).Some? {
        DecodesExactly(Shift(s, ValueOf(input[0]).value), rest);
      }
    }
  }

  /** Padding changes nothing, wherever it stands. */
  lemma {:induction false} PaddingIsIgnored(s: State, input: Text)
    ensures DecodeFrom(s, input) == DecodeFrom(s, Strip(input))
    decreases |input|
  {
    if input != [] {
      if input[0] == PAD {
        PaddingIsIgnored(s, input[1..]);
      } else if ValueOf(input[0]).Some? {
        PaddingIsIgnored(Shift(s, ValueOf(input[0]).value), input[1..]);
        assert Strip(input)[1..] == Strip(input[1..]);
      }
    }
  }

  // ----- the round trip ---------------------------------------------------------------------------------

  function Letter(v: nat): (ch: byte)
    requires v < 64
    ensures ch != PAD && ValueOf(ch) == Some(v)
  {
    if v < 26 then v + 65 else if v < 52 then v - 26 + 97 else if v < 62 then v - 52 + 48 else if v == 62 then 45 else 95
  }

  /** Three bytes become four characters; one or two left over become two or three, the unused
      bits zero. */
  function Encode(x: seq<byte>): Text {
    if |x| == 0 then []
    else if |x| == 1 then [Letter(x[0] / 4), Letter(x[0] % 4 * 16)]
    else if |x| == 2 then [Letter(x[0] / 4), Letter(x[0] % 4 * 16 + x[1] / 16), Letter(x[1] % 16 * 4)]
    else [Letter(x[0] / 4), Letter(x[0] % 4 * 16 + x[1] / 16), Letter(x[1] % 16 * 4 + x[2] / 64), Letter(x[2] % 64)]
         + Encode(x[3..])
  }

  /** The state between groups. */
  function Between(output: seq<byte>): State {
    State(0, 0, output)
  }

  lemma FirstByte(output: seq<byte>, a: byte, low: nat)
    requires low < 16
    ensures Shift(Shift(Between(output), a / 4), a % 4 * 16 + low) == State(low, 4, output + [a])
  {
    SmallPowers();
    assert (a / 4 * 64 + (a % 4 * 16 + low)) / 16 == a;
  }

  lemma SecondByte(output: seq<byte>, b: byte, low: nat)
    requires low < 4
    ensures Shift(State(b / 16, 4, output), b % 16 * 4 + low) == State(low, 2, output + [b])
  {
    SmallPowers();
    assert (b / 16 * 64 + (b % 16 * 4 + low)) / 4 == b;
  }

  lemma ThirdByte(output: seq<byte>, c: byte)
    ensures Shift(State(c / 64, 2, output), c % 64) == Between(output + [c])
  {
    SmallPowers();
    assert c / 64 * 64 + c % 64 == c;
  }

  lemma TakeOne(s: State, v: nat, rest: Text)
    requires v < 64
    ensures DecodeFrom(s, [Letter(v)] + rest) == DecodeFrom(Shift(s, v), rest)
  {
    assert ([Letter(v)] + rest)[1..] == rest;
  }

  lemma TakeTwo(s: State, v: nat, w: nat, rest: Text)
    requires v < 64 && w < 64
    ensures DecodeFrom(s, [Letter(v), Letter(w)] + rest) == DecodeFrom(Shift(Shift(s, v), w), rest)
  {
    assert [Letter(v), Letter(w)] + rest == [Letter(v)] + ([Letter(w)] + rest);
    TakeOne(s, v, [Letter(w)] + rest);
    TakeOne(Shift(s, v), w, rest);
  }

  lemma DecodeOne(output: seq<byte>, a: byte)
    ensures DecodeFrom(Between(output), Encode([a])) == Some(State(0, 4, output + [a]))
  {
    FirstByte(output, a, 0);
    TakeTwo(Between(output), a / 4, a % 4 * 16, []);
    assert [Letter(a / 4), Letter(a % 4 * 16)] + [] == Encode([a]);
  }

  lemma DecodeTwo(output: seq<byte>, a: byte, b: byte)
    ensures DecodeFrom(Between(output), Encode([a, b])) == Some(State(0, 2, output + [a] + [b]))
  {
    var low, last := b / 16, Letter(b % 16 * 4);
    FirstByte(output, a, low);
    SecondByte(output + [a], b, 0);
    TakeTwo(Between(output), a / 4, a % 4 * 16 + low, [last]);
    TakeOne(State(low, 4, output + [a]), b % 16 * 4, []);
    assert [Letter(a / 4), Letter(a % 4 * 16 + low)] + [last] == Encode([a, b]);
    assert [last] + [] == [last];
  }

  function Group(a: byte, b: byte, c: byte): Text {
    [Letter(a / 4), Letter(a % 4 * 16 + b / 16), Letter(b % 16 * 4 + c / 64), Letter(c % 64)]
  }

  lemma DecodeGroup(output: seq<byte>, a: byte, b: byte, c: byte, rest: Text)
    ensures DecodeFrom(Between(output), Group(a, b, c) + rest) == DecodeFrom(Between(output + [a] + [b] + [c]), rest)
  {
    var p, q := a % 4 * 16 + b / 16, b % 16 * 4 + c / 64;
    FirstByte(output, a, b / 16);
    SecondByte(output + [a], b, c / 64);
    ThirdByte(output + [a] + [b], c);
    var tail := [Letter(q), Letter(c % 64)] + rest;
    TakeTwo(Between(output), a / 4, p, tail);
    TakeTwo(State(b / 16, 4, output + [a]), q, c % 64, rest);
    assert [Letter(a / 4), Letter(p)] + tail == Group(a, b, c) + rest;
  }

  lemma {:induction false} DecodeEncoded(output: seq<byte>, x: seq<byte>)
    ensures DecodeFrom(Between(output), Encode(x)).Some?
    ensures DecodeFrom(Between(output), Encode(x)).value.output == output + x
    decreases |x|
  {
    if |x| == 0 {
    } else if |x| == 1 {
      assert x == [x[0]];
      DecodeOne(output, x[0]);
    } else if |x| == 2 {
      assert x == [x[0], x[1]];
      DecodeTwo(output, x[0], x[1]);
      assert output + [x[0]] + [x[1]] == output + x;
    } else {
      DecodeGroup(output, x[0], x[1], x[2], Encode(x[3..]));
      assert Group(x[0], x[1], x[2]) + Encode(x[3..]) == Encode(x);
      DecodeEncoded(output + [x[0]] + [x[1]] + [x[2]], x[3..]);
      assert output + [x[0]] + [x[1]] + [x[2]] + x[3..] == output + x;
    }
  }

  /** Decoding the text of a byte string gives it back, with padding or without. */
  lemma RoundTrip(x: seq<byte>, text: Text)
    requires Strip(text) == Encode(x)
    ensures Decode(text) == Some(x)
  {
    PaddingIsIgnored(Start, text);
    DecodeEncoded([], x);
    assert [] + x == x;
  }

  /** The text without padding and the text padded to a multiple of four are such texts. */
  lemma {:induction false} EncodedStrips(x: seq<byte>, pads: nat)
    ensures Strip(Encode(x) + seq(pads, _ => PAD)) == Encode(x)
    decreases |x|, pads
  {
    var tail := seq(pads, _ => PAD);
    StripPads(tail);
    if |x| < 3 {
      StripLetters(Encode(x), tail);
    } else {
      var first := Encode(x)[..4];
      assert Encode(x) == first + Encode(x[3..]);
      EncodedStrips(x[3..], pads);
      StripLetters(first, Encode(x[3..]) + tail);
      assert first + (Encode(x[3..]) + tail) == Encode(x) + tail;
    }
  }

  lemma {:induction false} StripPads(tail: Text)
    requires forall i :: 0 <= i < |tail| ==> tail[i] == PAD
    ensures Strip(tail) == []
    decreases |tail|
  {
    if tail != [] { StripPads(tail[1..]); }
  }

  lemma {:induction false} StripLetters(letters: Text, rest: Text)
    requires PAD !in letters
    ensures Strip(letters + rest) == letters + Strip(rest)
    decreases |letters|
  {
    if letters == [] {
      assert letters + rest == rest;
    } else {
      assert (letters + rest)[1..] == letters[1..] + rest;
      StripLetters(letters[1..], rest);
    }
  }
}

/** The base64 encoding of section 4 of RFC 4648, with padding. */
module Base64 {
  import opened Wrappers

  type Byte = x: int | 0 <= x < 256
  type Sextet = x: int | 0 <= x < 64

  // Table 1 of the RFC.
  function Symbol(d: Sextet): (c: char)
    ensures c != '='
  {
    if d < 26 then ('A' as int + d) as char
    else if d < 52 then ('a' as int + d - 26) as char
    else if d < 62 then ('0' as int + d - 52) as char
    else if d == 62 then '+' else '/'
  }

  function Value(c: char): Option<Sextet> {
    if 'A' <= c <= 'Z' then Some(c as int - 'A' as int)
    else if 'a' <= c <= 'z' then Some(c as int - 'a' as int + 26)
    else if '0' <= c <= '9' then Some(c as int - '0' as int + 52)
    else if c == '+' then Some(62)
    else if c == '/' then Some(63)
    else None
  }

  lemma {:induction false} ValueOfSymbol(d: Sextet)
    ensures Value(Symbol(d)) == Some(d)
  {
  }

  function EncodeGroup(x: Byte, y: Byte, z: Byte): string {
    [Symbol(x / 4), Symbol(x % 4 * 16 + y / 16), Symbol(y % 16 * 4 + z / 64), Symbol(z % 64)]
  }

  function Encode(b: seq<Byte>): string
  {
    if b == [] then []
    else if |b| == 1 then [Symbol(b[0] / 4), Symbol(b[0] % 4 * 16), '=', '=']
    else if |b| == 2 then [Symbol(b[0] / 4), Symbol(b[0] % 4 * 16 + b[1] / 16), Symbol(b[1] % 16 * 4), '=']
    else EncodeGroup(b[0], b[1], b[2]) + Encode(b[3..])
  }

  // The bytes of four sextets.
  function Unpack(d0: Sextet, d1: Sextet, d2: Sextet, d3: Sextet): seq<Byte> {
    [d0 * 4 + d1 / 16, d1 % 16 * 16 + d2 / 4, d2 % 4 * 64 + d3]
  }

  function DecodeGroup(g: string): Option<seq<Byte>>
    requires |g| == 4
  {
    var d0, d1, d2, d3 := Value(g[0]), Value(g[1]), Value(g[2]), Value(g[3]);
    if d0.None? || d1.None? then None
    else if g[2] == '=' && g[3] == '=' then Some(Unpack(d0.value, d1.value, 0, 0)[..1])
    else if d2.None? then None
    else if g[3] == '=' then Some(Unpack(d0.value, d1.value, d2.value, 0)[..2])
    else if d3.None? then None
    else Some(Unpack(d0.value, d1.value, d2.value, d3.value))
  }

  // Padding is taken only in the last group.
  function Decode(s: string): Option<seq<Byte>>
  {
    if s == [] then Some([])
    else if |s| < 4 then None
    else if |s| == 4 then DecodeGroup(s)
    else if s[3] == '=' then None
    else
      var first, rest := DecodeGroup(s[..4]), Decode(s[4..]);
      if first.None? || rest.None? then None else Some(first.value + rest.value)
  }

  lemma {:induction false} UnpackSextets(x: Byte, y: Byte, z: Byte)
    ensures Unpack(x / 4, x % 4 * 16 + y / 16, y % 16 * 4 + z / 64, z % 64) == [x, y, z]
  {
  }

  lemma {:induction false} SextetsRoundTrip(d0: Sextet, d1: Sextet, d2: Sextet, d3: Sextet)
    ensures DecodeGroup([Symbol(d0), Symbol(d1), Symbol(d2), Symbol(d3)]) == Some(Unpack(d0, d1, d2, d3))
    ensures DecodeGroup([Symbol(d0), Symbol(d1), Symbol(d2), '=']) == Some(Unpack(d0, d1, d2, 0)[..2])
    ensures DecodeGroup([Symbol(d0), Symbol(d1), '=', '=']) == Some(Unpack(d0, d1, 0, 0)[..1])
  {
    ValueOfSymbol(d0);
    ValueOfSymbol(d1);
    ValueOfSymbol(d2);
    ValueOfSymbol(d3);
  }

  lemma {:induction false} ThreeBytes(x: Byte, y: Byte, z: Byte)
    ensures DecodeGroup(EncodeGroup(x, y, z)) == Some([x, y, z])
  {
    SextetsRoundTrip(x / 4, x % 4 * 16 + y / 16, y % 16 * 4 + z / 64, z % 64);
    UnpackSextets(x, y, z);
  }

  lemma {:induction false} TwoBytes(x: Byte, y: Byte)
    ensures Decode(Encode([x, y])) == Some([x, y])
  {
    var d0, d1, d2 := x / 4, x % 4 * 16 + y / 16, y % 16 * 4;
    SextetsRoundTrip(d0, d1, d2, 0);
    TwoUnpacked(x, y);
  }

  lemma {:induction false} TwoUnpacked(x: Byte, y: Byte)
    ensures Unpack(x / 4, x % 4 * 16 + y / 16, y % 16 * 4, 0)[..2] == [x, y]
  {
    UnpackSextets(x, y, 0);
  }

  lemma {:induction false} OneByte(x: Byte)
    ensures Decode(Encode([x])) == Some([x])
  {
    SextetsRoundTrip(x / 4, x % 4 * 16, 0, 0);
    OneUnpacked(x);
  }

  lemma {:induction false} OneUnpacked(x: Byte)
    ensures Unpack(x / 4, x % 4 * 16, 0, 0)[..1] == [x]
  {
  }

  lemma {:induction false} DecodeAppend(g: string, tail: string)
    requires |g| == 4 && g[3] != '=' && tail != []
    ensures Decode(g + tail)
            == if DecodeGroup(g).None? || Decode(tail).None?
                then None else Some(DecodeGroup(g).value + Decode(tail).value)
  {
    assert (g + tail)[..4] == g && (g + tail)[4..] == tail;
  }

  lemma {:induction false} RoundTrip(b: seq<Byte>)
    ensures Decode(Encode(b)) == Some(b)
  {
    if |b| == 1 {
      OneByte(b[0]);
      assert b == [b[0]];
    } else if |b| == 2 {
      TwoBytes(b[0], b[1]);
      assert b == [b[0], b[1]];
    } else if |b| >= 3 {
      RoundTrip(b[3..]);
      var group, tail := EncodeGroup(b[0], b[1], b[2]), Encode(b[3..]);
      ThreeBytes(b[0], b[1], b[2]);
      assert [b[0], b[1], b[2]] + b[3..] == b;
      if b[3..] == [] {
        assert Encode(b) == group && b == [b[0], b[1], b[2]];
      } else {
        EncodedLength(b[3..]);
        DecodeAppend(group, tail);
      }
    }
  }

  // The groups of three bytes begun.
  function Groups(n: nat): nat
  {
    if n == 0 then 0 else if n < 3 then 1 else 1 + Groups(n - 3)
  }

  lemma {:induction false} EncodedGroups(b: seq<Byte>)
    ensures |Encode(b)| == Groups(|b|) * 4
  {
    if |b| < 3 {
    } else {
      EncodedGroups(b[3..]);
    }
  }

  lemma {:induction false} GroupsIsCeiling(n: nat)
    ensures Groups(n) == (n + 2) / 3
  {
    if n < 3 {
    } else {
      GroupsIsCeiling(n - 3);
    }
  }

  lemma {:induction false} EncodedLength(b: seq<Byte>)
    ensures |Encode(b)| == (|b| + 2) / 3 * 4
  {
    EncodedGroups(b);
    GroupsIsCeiling(|b|);
  }

  // No character of an encoding needs escaping inside a JSON string.
  lemma {:induction false} EncodedIsPlain(b: seq<Byte>)
    ensures forall c :: c in Encode(b) ==> c == '=' || Value(c).Some?
  {
    if |b| < 3 {
    } else {
      EncodedIsPlain(b[3..]);
    }
  }

  // The vectors of section 10 of the RFC for "f", "fo", "foo" and "foob", and the two symbols past the digits.
  lemma {:induction false} RfcVectors()
    ensures Encode([102]) == "Zg==" && Encode([102, 111]) == "Zm8=" && Encode([102, 111, 111]) == "Zm9v"
    ensures Encode([102, 111, 111, 98]) == "Zm9vYg=="
    ensures Encode([251, 239, 190]) == "++++" && Encode([255, 255, 255]) == "////"
  {
    assert [102, 111, 111][3..] == [] && [102, 111, 111, 98][3..] == [98];
    assert [251, 239, 190][3..] == [] && [255, 255, 255][3..] == [];
  }
}

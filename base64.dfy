/**
 * Base64 as Node's `Buffer` does it for `Base64Image`: `toString("base64")`
 * writes the padded encoding of section 4 of RFC 4648, `Buffer.from(s,
 * "base64")` reads leniently, and `Buffer.byteLength(s, "base64")` estimates
 * the decoded size from the length and the trailing padding.
 */
module Base64 {
  import opened Wrappers

  type Byte = x: int | 0 <= x < 256
  type Sextet = x: int | 0 <= x < 64

  /** The character of a 6-bit value in the alphabet of RFC 4648, section 4 (table 1). */
  function Char(x: Sextet): (c: char)
    ensures c != '='
  {
    if x < 26 then ('A' as int + x) as char
    else if x < 52 then ('a' as int + (x - 26)) as char
    else if x < 62 then ('0' as int + (x - 52)) as char
    else if x == 62 then '+'
    else '/'
  }

  /**
   * The 6-bit value of a character the lenient decoder accepts: the standard
   * alphabet and also the URL-safe '-' and '_'. Everything else, padding
   * included, has none.
   */
  function SextetOf(c: char): Option<Sextet> {
    if 'A' <= c <= 'Z' then Some(c as int - 'A' as int)
    else if 'a' <= c <= 'z' then Some(c as int - 'a' as int + 26)
    else if '0' <= c <= '9' then Some(c as int - '0' as int + 52)
    else if c == '+' || c == '-' then Some(62)
    else if c == '/' || c == '_' then Some(63)
    else None
  }

  lemma SextetOfChar(x: Sextet)
    ensures SextetOf(Char(x)) == Some(x)
  {
  }

  /** The four 6-bit values of a group of three bytes (RFC 4648, section 4). */
  function Hi6(b0: Byte): Sextet { b0 / 4 }
  function Mid6(b0: Byte, b1: Byte): Sextet { (b0 % 4) * 16 + b1 / 16 }
  function Mid6b(b1: Byte, b2: Byte): Sextet { (b1 % 16) * 4 + b2 / 64 }
  function Lo6(b2: Byte): Sextet { b2 % 64 }

  /** The three bytes four 6-bit values carry. */
  function Byte0(q0: Sextet, q1: Sextet): Byte { q0 * 4 + q1 / 16 }
  function Byte1(q1: Sextet, q2: Sextet): Byte { (q1 % 16) * 16 + q2 / 4 }
  function Byte2(q2: Sextet, q3: Sextet): Byte { (q2 % 4) * 64 + q3 }

  /**
   * The canonical padded encoding of RFC 4648, section 4: three bytes to
   * four characters, the last group padded with '=' to four.
   */
  function Encode(b: seq<Byte>): (s: string)
    ensures |s| == 0 <==> |b| == 0
  {
    if |b| == 0 then ""
    else if |b| == 1 then Chars([Hi6(b[0]), Mid6(b[0], 0)]) + "=="
    else if |b| == 2 then Chars([Hi6(b[0]), Mid6(b[0], b[1]), Mid6b(b[1], 0)]) + "="
    else Chars([Hi6(b[0]), Mid6(b[0], b[1]), Mid6b(b[1], b[2]), Lo6(b[2])]) + Encode(b[3..])
  }

  /** The characters of a sequence of 6-bit values. */
  function Chars(q: seq<Sextet>): (s: string)
    ensures |s| == |q|
    ensures forall i :: 0 <= i < |q| ==> s[i] == Char(q[i])
  {
    if |q| == 0 then "" else [Char(q[0])] + Chars(q[1..])
  }

  /** The 6-bit values of the accepted characters of `s`, in order; other characters are skipped. */
  function Sextets(s: string): (q: seq<Sextet>)
    ensures |q| <= |s|
  {
    if |s| == 0 then []
    else (if SextetOf(s[0]).Some? then [SextetOf(s[0]).value] else []) + Sextets(s[1..])
  }

  /** Four 6-bit values to three bytes; a trailing two or three give one or two bytes. */
  function DecodeSextets(q: seq<Sextet>): (b: seq<Byte>)
    ensures |b| == (3 * |q|) / 4
  {
    if |q| < 2 then []
    else if |q| == 2 then [Byte0(q[0], q[1])]
    else if |q| == 3 then [Byte0(q[0], q[1]), Byte1(q[1], q[2])]
    else [Byte0(q[0], q[1]), Byte1(q[1], q[2]), Byte2(q[2], q[3])] + DecodeSextets(q[4..])
  }

  /**
   * `Buffer.from(s, "base64")`, reading leniently: characters outside the
   * alphabet are skipped, and every four that remain give three bytes.
   */
  function Decode(s: string): (b: seq<Byte>)
    ensures |b| == (3 * |Sextets(s)|) / 4
    ensures |b| <= (3 * |s|) / 4
  {
    ScaledMonotone(|Sextets(s)|, |s|);
    DecodeSextets(Sextets(s))
  }

  lemma ScaledMonotone(m: nat, n: nat)
    requires m <= n
    ensures (3 * m) / 4 <= (3 * n) / 4
  {
  }

  /**
   * `Buffer.byteLength(s, "base64")`: up to two trailing '=' are discounted and
   * the remaining length is scaled by 3/4, rounding down.
   */
  function ByteLength(s: string): nat {
    var n1 := if |s| > 0 && s[|s| - 1] == '=' then |s| - 1 else |s|;
    var n2 := if n1 > 1 && s[n1 - 1] == '=' then n1 - 1 else n1;
    (n2 * 3) / 4
  }

  /** Trailing padding carries no 6-bit values. */
  lemma {:induction false} NoSextets(t: string)
    requires forall i :: 0 <= i < |t| ==> t[i] == '='
    ensures Sextets(t) == []
  {
    if |t| > 0 {
      NoSextets(t[1..]);
    }
  }

  /** The decoder reads the same values with the trailing padding cut off. */
  lemma DropPadding(s: string, n: nat)
    requires n <= |s| && forall i :: n <= i < |s| ==> s[i] == '='
    ensures Sextets(s) == Sextets(s[..n])
  {
    assert s == s[..n] + s[n..];
    SextetsAppend(s[..n], s[n..]);
    NoSextets(s[n..]);
    assert Sextets(s[..n]) + [] == Sextets(s[..n]);
  }

  /** The size estimate never falls short of the number of bytes decoded. */
  lemma ByteLengthBound(s: string)
    ensures |Decode(s)| <= ByteLength(s)
  {
    var n1 := if |s| > 0 && s[|s| - 1] == '=' then |s| - 1 else |s|;
    var n2 := if n1 > 1 && s[n1 - 1] == '=' then n1 - 1 else n1;
    DropPadding(s, n2);
    ScaledMonotone(|Sextets(s[..n2])|, n2);
  }

  /** Splitting bytes into 6-bit values and joining them back loses nothing. */
  lemma FirstByteRoundTrip(b0: Byte, b1: Byte)
    ensures Byte0(Hi6(b0), Mid6(b0, b1)) == b0
  {
  }

  lemma SecondByteRoundTrip(b0: Byte, b1: Byte, b2: Byte)
    ensures Byte1(Mid6(b0, b1), Mid6b(b1, b2)) == b1
  {
    var hi, lo := b1 / 16, b1 % 16;
    assert Mid6(b0, b1) % 16 == hi by {
      LowDigit(b0 % 4, hi);
    }
    assert Mid6b(b1, b2) / 4 == lo by {
      HighDigit(lo, b2 / 64);
    }
  }

  lemma LowDigit(k: nat, r: nat)
    requires r < 16
    ensures (k * 16 + r) % 16 == r
  {
  }

  lemma HighDigit(k: nat, r: nat)
    requires r < 4
    ensures (k * 4 + r) / 4 == k
  {
  }

  lemma ThirdByteRoundTrip(b1: Byte, b2: Byte)
    ensures Byte2(Mid6b(b1, b2), Lo6(b2)) == b2
  {
  }

  lemma {:induction false} SextetsAppend(a: string, b: string)
    ensures Sextets(a + b) == Sextets(a) + Sextets(b)
  {
    if |a| > 0 {
      assert (a + b)[1..] == a[1..] + b;
      SextetsAppend(a[1..], b);
    } else {
      assert a + b == b;
    }
  }

  lemma {:induction false} SextetsOfChars(q: seq<Sextet>)
    ensures Sextets(Chars(q)) == q
  {
    if |q| > 0 {
      SextetOfChar(q[0]);
      SextetsAppend([Char(q[0])], Chars(q[1..]));
      assert [Char(q[0])][1..] == "";
      SextetsOfChars(q[1..]);
      assert [q[0]] + q[1..] == q;
    }
  }

  lemma SextetsOfPadding(n: nat)
    requires n <= 2
    ensures Sextets("=="[..n]) == []
  {
    if n > 0 {
      assert "=="[..n][1..] == "=="[..n - 1];
      SextetsOfPadding(n - 1);
    }
  }

  /** The bytes of `q` followed by padding, which the decoder skips. */
  lemma PaddedDecode(q: seq<Sextet>, n: nat)
    requires n <= 2
    ensures Decode(Chars(q) + "=="[..n]) == DecodeSextets(q)
  {
    SextetsAppend(Chars(q), "=="[..n]);
    SextetsOfChars(q);
    SextetsOfPadding(n);
    assert q + [] == q;
  }

  /** One trailing byte: two characters and "==". */
  lemma DecodeEncodeOne(b: seq<Byte>)
    requires |b| == 1
    ensures Decode(Encode(b)) == b
  {
    var q := [Hi6(b[0]), Mid6(b[0], 0)];
    assert "=="[..2] == "==";
    assert Encode(b) == Chars(q) + "=="[..2];
    PaddedDecode(q, 2);
    FirstByteRoundTrip(b[0], 0);
    assert DecodeSextets(q) == [b[0]];
  }

  /** Two trailing bytes: three characters and "=". */
  lemma DecodeEncodeTwo(b0: Byte, b1: Byte)
    ensures Decode(Encode([b0, b1])) == [b0, b1]
  {
    var q := [Hi6(b0), Mid6(b0, b1), Mid6b(b1, 0)];
    assert Encode([b0, b1]) == Chars(q) + "=="[..1] by {
      assert "=="[..1] == "=";
    }
    PaddedDecode(q, 1);
    TwoBytesRoundTrip(b0, b1);
  }

  /** The three 6-bit values of two bytes give back those two bytes. */
  lemma TwoBytesRoundTrip(b0: Byte, b1: Byte)
    ensures DecodeSextets([Hi6(b0), Mid6(b0, b1), Mid6b(b1, 0)]) == [b0, b1]
  {
    FirstByteRoundTrip(b0, b1);
    SecondByteRoundTrip(b0, b1, 0);
  }

  /** Decoding the canonical encoding gives back the bytes (RFC 4648, section 4). */
  lemma {:induction false} DecodeEncode(b: seq<Byte>)
    ensures Decode(Encode(b)) == b
    decreases |b|, 1
  {
    if |b| == 1 {
      DecodeEncodeOne(b);
    } else if |b| == 2 {
      assert b == [b[0], b[1]];
      DecodeEncodeTwo(b[0], b[1]);
    } else if |b| >= 3 {
      DecodeGroup(b);
    }
  }

  lemma {:induction false} DecodeGroup(b: seq<Byte>)
    requires |b| >= 3
    ensures Decode(Encode(b)) == b
    decreases |b|, 0
  {
    var q := [Hi6(b[0]), Mid6(b[0], b[1]), Mid6b(b[1], b[2]), Lo6(b[2])];
    var rest := Encode(b[3..]);
    assert Encode(b) == Chars(q) + rest;
    SextetsAppend(Chars(q), rest);
    SextetsOfChars(q);
    var all := q + Sextets(rest);
    assert all[4..] == Sextets(rest);
    FirstByteRoundTrip(b[0], b[1]);
    SecondByteRoundTrip(b[0], b[1], b[2]);
    ThirdByteRoundTrip(b[1], b[2]);
    DecodeEncode(b[3..]);
    assert DecodeSextets(all) == [b[0], b[1], b[2]] + b[3..];
    assert [b[0], b[1], b[2]] + b[3..] == b;
  }

  /** The canonical encoding has four characters per started group of three bytes. */
  lemma {:induction false} EncodeLength(b: seq<Byte>)
    ensures |Encode(b)| == 4 * ((|b| + 2) / 3)
  {
    if |b| > 3 {
      EncodeLength(b[3..]);
    }
  }

  /** The last two characters of a group of characters followed by padding. */
  lemma PaddedEnd(q: seq<Sextet>, pad: string, s: string)
    requires |q| >= 2 && |pad| <= 2 && s == Chars(q) + pad
    requires forall i :: 0 <= i < |pad| ==> pad[i] == '='
    ensures |s| >= 2
    ensures s[|s| - 1] == '=' <==> |pad| > 0
    ensures s[|s| - 2] == '=' <==> |pad| == 2
  {
    var g := Chars(q);
    if |pad| == 0 {
      assert s[|s| - 1] == g[|q| - 1] == Char(q[|q| - 1]);
      assert s[|s| - 2] == g[|q| - 2] == Char(q[|q| - 2]);
    } else if |pad| == 1 {
      assert s[|s| - 1] == pad[0];
      assert s[|s| - 2] == g[|q| - 1] == Char(q[|q| - 1]);
    } else {
      assert s[|s| - 1] == pad[1];
      assert s[|s| - 2] == pad[0];
    }
  }

  /** Padding of the canonical encoding: "==" after one trailing byte, "=" after two, none otherwise. */
  lemma {:induction false} EncodePadding(b: seq<Byte>)
    requires |b| > 0
    ensures |Encode(b)| >= 2
    ensures Encode(b)[|Encode(b)| - 1] == '=' <==> |b| % 3 != 0
    ensures Encode(b)[|Encode(b)| - 2] == '=' <==> |b| % 3 == 1
  {
    if |b| == 1 {
      PaddedEnd([Hi6(b[0]), Mid6(b[0], 0)], "==", Encode(b));
    } else if |b| == 2 {
      PaddedEnd([Hi6(b[0]), Mid6(b[0], b[1]), Mid6b(b[1], 0)], "=", Encode(b));
    } else if |b| == 3 {
      assert b[3..] == [];
      PaddedEnd([Hi6(b[0]), Mid6(b[0], b[1]), Mid6b(b[1], b[2]), Lo6(b[2])], "", Encode(b));
    } else {
      var g := Chars([Hi6(b[0]), Mid6(b[0], b[1]), Mid6b(b[1], b[2]), Lo6(b[2])]);
      assert Encode(b) == g + Encode(b[3..]);
      assert |b[3..]| % 3 == |b| % 3;
      EncodePadding(b[3..]);
      Suffix(g, Encode(b[3..]));
    }
  }

  /** The last two characters of `g + t` are those of `t` when `t` has two. */
  lemma Suffix(g: string, t: string)
    requires |t| >= 2
    ensures (g + t)[|g + t| - 1] == t[|t| - 1] && (g + t)[|g + t| - 2] == t[|t| - 2]
  {
  }

  lemma Thirds(n: nat, k: nat, r: nat)
    requires n == 3 * k + r && r < 3
    ensures (n + 2) / 3 == if r == 0 then k else k + 1
  {
  }

  /** The size estimate of a string with the length and padding of an encoding of `n` bytes. */
  lemma ByteLengthOfShape(s: string, n: nat)
    requires |s| == 4 * ((n + 2) / 3)
    requires n > 0 ==> |s| >= 2
    requires n > 0 ==> (s[|s| - 1] == '=' <==> n % 3 != 0)
    requires n > 0 ==> (s[|s| - 2] == '=' <==> n % 3 == 1)
    ensures ByteLength(s) == n
  {
    var k := n / 3;
    Thirds(n, k, n % 3);
    if n % 3 == 0 {
      assert |s| == 4 * k;
    } else if n % 3 == 1 {
      assert ByteLength(s) == ((4 * k + 2) * 3) / 4;
    } else {
      assert ByteLength(s) == ((4 * k + 3) * 3) / 4;
    }
  }

  /** The size estimate is exact on a canonical encoding. */
  lemma ByteLengthEncode(b: seq<Byte>)
    ensures ByteLength(Encode(b)) == |b|
  {
    EncodeLength(b);
    if |b| > 0 {
      EncodePadding(b);
    }
    ByteLengthOfShape(Encode(b), |b|);
  }
}

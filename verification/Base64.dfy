/** Base64 (section 4 of RFC 4648), as the attachment endpoints use it. */
module Base64 {
  newtype Byte = b: int | 0 <= b < 256

  predicate IsDigit(c: char) {
    'A' <= c <= 'Z' || 'a' <= c <= 'z' || '0' <= c <= '9' || c == '+' || c == '/'
  }

  function Digit(n: nat): (c: char)
    requires n < 64
    ensures IsDigit(c) && c != '=' && Value(c) == n
  {
    if n < 26 then ('A' as int + n) as char
    else if n < 52 then ('a' as int + (n - 26)) as char
    else if n < 62 then ('0' as int + (n - 52)) as char
    else if n == 62 then '+' else '/'
  }

  function Value(c: char): (n: nat)
    ensures n < 64
  {
    if 'A' <= c <= 'Z' then c as int - 'A' as int
    else if 'a' <= c <= 'z' then c as int - 'a' as int + 26
    else if '0' <= c <= '9' then c as int - '0' as int + 52
    else if c == '+' then 62
    else 63
  }

  /** One group of three bytes as four digits. */
  function Group(x: Byte, y: Byte, z: Byte): string {
    [Digit(x as int / 4),
     Digit(x as int % 4 * 16 + y as int / 16),
     Digit(y as int % 16 * 4 + z as int / 64),
     Digit(z as int % 64)]
  }

  function Encode(b: seq<Byte>): string
    decreases |b|
  {
    if b == [] then ""
    else if |b| == 1 then Group(b[0], 0, 0)[..2] + "=="
    else if |b| == 2 then Group(b[0], b[1], 0)[..3] + "="
    else Group(b[0], b[1], b[2]) + Encode(b[3..])
  }

  /** What the endpoint accepts: whole groups, padding only at the end. */
  predicate WellFormed(s: string) {
    && |s| % 4 == 0
    && (forall i :: 0 <= i < |s| - 2 ==> IsDigit(s[i]))
    && (forall i :: |s| - 2 <= i < |s| && 0 <= i ==> IsDigit(s[i]) || s[i] == '=')
    && (2 <= |s| && s[|s| - 2] == '=' ==> s[|s| - 1] == '=')
  }

  function First(s: string): (x: Byte)
    requires |s| >= 2
  {
    (Value(s[0]) * 4 + Value(s[1]) / 16) as Byte
  }

  function Second(s: string): (x: Byte)
    requires |s| >= 3
  {
    (Value(s[1]) % 16 * 16 + Value(s[2]) / 4) as Byte
  }

  function Third(s: string): (x: Byte)
    requires |s| >= 4
  {
    (Value(s[2]) % 4 * 64 + Value(s[3])) as Byte
  }

  /** Bits that padding leaves over are ignored, as the platform decoder does. */
  function Decode(s: string): seq<Byte>
    requires |s| % 4 == 0
    decreases |s|
  {
    if s == "" then []
    else if s[2] == '=' then [First(s)]
    else if s[3] == '=' then [First(s), Second(s)]
    else [First(s), Second(s), Third(s)] + Decode(s[4..])
  }

  lemma GroupDecodes(x: Byte, y: Byte, z: Byte, s: string)
    requires |s| >= 4 && s[..4] == Group(x, y, z)
    ensures First(s) == x && Second(s) == y && Third(s) == z
    ensures s[2] != '=' && s[3] != '='
  {
    hide Digit, Value;
    assert s[0] == s[..4][0] && s[1] == s[..4][1] && s[2] == s[..4][2] && s[3] == s[..4][3];
  }

  lemma GroupIsDigits(x: Byte, y: Byte, z: Byte)
    ensures |Group(x, y, z)| == 4 && forall c :: c in Group(x, y, z) ==> IsDigit(c)
  {
    hide Digit, Value, IsDigit;
  }

  lemma GroupInFront(g: string, rest: string)
    requires |g| == 4 && (forall c :: c in g ==> IsDigit(c)) && WellFormed(rest)
    ensures WellFormed(g + rest)
  {
    var s := g + rest;
    forall i | 0 <= i < |s| ensures s[i] == if i < 4 then g[i] else rest[i - 4] {}
    assert forall i :: 0 <= i < 4 ==> g[i] in g;
  }

  lemma {:induction false} EncodeIsWellFormed(b: seq<Byte>)
    ensures WellFormed(Encode(b)) && |Encode(b)| == (|b| + 2) / 3 * 4
    decreases |b|
  {
    hide Group, IsDigit;
    if |b| == 1 {
      GroupIsDigits(b[0], 0, 0);
    } else if |b| == 2 {
      GroupIsDigits(b[0], b[1], 0);
    } else if |b| >= 3 {
      EncodeIsWellFormed(b[3..]);
      GroupIsDigits(b[0], b[1], b[2]);
      GroupInFront(Group(b[0], b[1], b[2]), Encode(b[3..]));
    }
  }

  lemma GroupInFrontDecodes(x: Byte, y: Byte, z: Byte, rest: string)
    requires |rest| % 4 == 0
    ensures Decode(Group(x, y, z) + rest) == [x, y, z] + Decode(rest)
  {
    hide Group, First, Second, Third;
    var s := Group(x, y, z) + rest;
    GroupIsDigits(x, y, z);
    assert s[..4] == Group(x, y, z) && s[4..] == rest;
    GroupDecodes(x, y, z, s);
  }

  lemma OneByteDecodes(x: Byte)
    ensures Decode(Group(x, 0, 0)[..2] + "==") == [x]
  {
    hide Digit, Value, IsDigit;
    var s := Group(x, 0, 0)[..2] + "==";
    assert s[0] == Digit(x as int / 4) && s[1] == Digit(x as int % 4 * 16) && s[2] == '=';
    assert First(s) == x;
  }

  lemma TwoBytesDecode(x: Byte, y: Byte)
    ensures Decode(Group(x, y, 0)[..3] + "=") == [x, y]
  {
    hide Digit, Value, IsDigit;
    var s := Group(x, y, 0)[..3] + "=";
    assert s[0] == Digit(x as int / 4) && s[1] == Digit(x as int % 4 * 16 + y as int / 16);
    assert s[2] == Digit(y as int % 16 * 4) && s[3] == '=';
    assert First(s) == x && Second(s) == y;
  }

  /** Decoding undoes encoding. */
  lemma {:induction false} RoundTrip(b: seq<Byte>)
    ensures |Encode(b)| % 4 == 0 && Decode(Encode(b)) == b
    decreases |b|
  {
    hide Group, Decode;
    EncodeIsWellFormed(b);
    if b == [] {
      EmptyDecodes();
    } else if |b| == 1 {
      OneByteDecodes(b[0]);
    } else if |b| == 2 {
      TwoBytesDecode(b[0], b[1]);
    } else {
      RoundTrip(b[3..]);
      GroupInFrontDecodes(b[0], b[1], b[2], Encode(b[3..]));
      assert b == [b[0], b[1], b[2]] + b[3..];
    }
  }

  lemma EmptyDecodes()
    ensures Decode("") == []
  {
  }

  /** Pieces of whole groups can be encoded apart and joined. */
  lemma {:induction false} EncodeJoins(a: seq<Byte>, b: seq<Byte>)
    requires |a| % 3 == 0
    ensures Encode(a + b) == Encode(a) + Encode(b)
    decreases |a|
  {
    if a == [] {
      assert a + b == b && Encode(a) + Encode(b) == Encode(b);
    } else {
      assert (a + b)[3..] == a[3..] + b;
      EncodeJoins(a[3..], b);
      hide Group;
      var g := Group(a[0], a[1], a[2]);
      assert g + (Encode(a[3..]) + Encode(b)) == (g + Encode(a[3..])) + Encode(b);
    }
  }
}

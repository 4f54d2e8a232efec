/** strings.Split and strings.Join with a one-character separator. */
module Strings {
  import opened Common

  /** What comes before the first separator. */
  function Before(s: string, sep: char): string {
    if s == "" || s[0] == sep then "" else [s[0]] + Before(s[1..], sep)
  }

  function Split(s: string, sep: char): (r: seq<string>)
    ensures |r| >= 1 && forall p :: p in r ==> sep !in p
    decreases |s|
  {
    if s == "" then [""]
    else if s[0] == sep then [""] + Split(s[1..], sep)
    else
      var rest := Split(s[1..], sep);
      [[s[0]] + rest[0]] + rest[1..]
  }

  function Join(parts: seq<string>, sep: char): string {
    if parts == [] then ""
    else if |parts| == 1 then parts[0]
    else parts[0] + [sep] + Join(parts[1..], sep)
  }

  /** A piece without separators comes off the front whole. */
  lemma {:induction false} SplitFront(a: string, b: string, sep: char)
    requires sep !in a
    ensures Split(a + [sep] + b, sep) == [a] + Split(b, sep)
  {
    var s := a + [sep] + b;
    if a == "" {
      assert s[1..] == b;
    } else {
      assert s[1..] == a[1..] + [sep] + b;
      SplitFront(a[1..], b, sep);
      assert [a[0]] + a[1..] == a;
    }
  }

  lemma {:induction false} SplitWhole(a: string, sep: char)
    requires sep !in a
    ensures Split(a, sep) == [a]
  {
    if a != "" {
      SplitWhole(a[1..], sep);
      assert [a[0]] + a[1..] == a;
    }
  }

  lemma {:induction false} SplitHead(s: string, sep: char)
    ensures Split(s, sep)[0] == Before(s, sep)
  {
    if s != "" && s[0] != sep {
      SplitHead(s[1..], sep);
    }
  }

  lemma {:induction false} BeforeStops(a: string, b: string, sep: char)
    ensures sep !in a ==> Before(a + [sep] + b, sep) == a
    ensures sep in a ==> |Before(a + [sep] + b, sep)| < |a|
  {
    var s := a + [sep] + b;
    if a != "" {
      assert s[1..] == a[1..] + [sep] + b;
      BeforeStops(a[1..], b, sep);
      assert a == [a[0]] + a[1..];
    }
  }

  lemma {:induction false} SplitJoined(parts: seq<string>, sep: char)
    requires parts != [] && forall p :: p in parts ==> sep !in p
    ensures Split(Join(parts, sep), sep) == parts
  {
    if |parts| == 1 {
      SplitWhole(parts[0], sep);
    } else {
      SplitJoined(parts[1..], sep);
      SplitFront(parts[0], Join(parts[1..], sep), sep);
    }
  }

  /** Splitting undoes joining exactly when there is something to join and no part contains the separator. */
  lemma SplitUndoesJoin(parts: seq<string>, sep: char)
    ensures Split(Join(parts, sep), sep) == parts <==> parts != [] && forall p :: p in parts ==> sep !in p
  {
    if parts != [] && forall p :: p in parts ==> sep !in p {
      SplitJoined(parts, sep);
    }
  }
}

/** The URL-safe base64 alphabet and encoding, section 5 of RFC 4648. */
module Base64Url {
  type Byte = b: int | 0 <= b < 256

  const ALPHABET := "ABCDEFGHIJKLMNOP" + "QRSTUVWXYZabcdef" + "ghijklmnopqrstuv" + "wxyz0123456789-_"

  function Char(v: int): char
    requires 0 <= v < 64
  {
    ALPHABET[v]
  }

  /** The four sextets of three bytes. */
  function Sextets(a: Byte, b: Byte, c: Byte): seq<int> {
    [a / 4, a % 4 * 16 + b / 16, b % 16 * 4 + c / 64, c % 64]
  }

  function Quad(a: Byte, b: Byte, c: Byte): string {
    var s := Sextets(a, b, c);
    [Char(s[0]), Char(s[1]), Char(s[2]), Char(s[3])]
  }

  function Encode(bytes: seq<Byte>): string {
    if |bytes| == 0 then ""
    else if |bytes| == 1 then Quad(bytes[0], 0, 0)[..2] + "=="
    else if |bytes| == 2 then Quad(bytes[0], bytes[1], 0)[..3] + "="
    else Quad(bytes[0], bytes[1], bytes[2]) + Encode(bytes[3..])
  }

  // ----- The encoding can be read back -----

  /** The value of a character of the alphabet. */
  function Value(c: char): int {
    if 'A' <= c <= 'Z' then c as int - 'A' as int
    else if 'a' <= c <= 'z' then c as int - 'a' as int + 26
    else if '0' <= c <= '9' then c as int - '0' as int + 52
    else if c == '-' then 62 else 63
  }

  lemma ValueOfChar(v: int)
    requires 0 <= v < 64
    ensures Value(Char(v)) == v && Char(v) != '='
  {
    if v < 16 {
      FirstQuarter(v);
    } else if v < 32 {
      SecondQuarter(v);
    } else if v < 48 {
      ThirdQuarter(v);
    } else {
      LastQuarter(v);
    }
  }

  lemma FirstQuarter(v: int)
    requires 0 <= v < 16
    ensures Value(Char(v)) == v && Char(v) != '='
  {
    assert ALPHABET[v] == "ABCDEFGHIJKLMNOP"[v - 0];
  }

  lemma SecondQuarter(v: int)
    requires 16 <= v < 32
    ensures Value(Char(v)) == v && Char(v) != '='
  {
    assert ALPHABET[v] == "QRSTUVWXYZabcdef"[v - 16];
  }

  lemma ThirdQuarter(v: int)
    requires 32 <= v < 48
    ensures Value(Char(v)) == v && Char(v) != '='
  {
    assert ALPHABET[v] == "ghijklmnopqrstuv"[v - 32];
  }

  lemma LastQuarter(v: int)
    requires 48 <= v < 64
    ensures Value(Char(v)) == v && Char(v) != '='
  {
    assert ALPHABET[v] == "wxyz0123456789-_"[v - 48];
  }

  /** The first, second and third of the bytes that four sextets hold. */
  function First(s: int, t: int): int { s * 4 + t / 16 }
  function Second(t: int, u: int): int { t % 16 * 16 + u / 4 }
  function Third(u: int, v: int): int { u % 4 * 64 + v }

  function Decode(text: string): seq<int> {
    if |text| < 4 then []
    else
      var s, t, u, v := Value(text[0]), Value(text[1]), Value(text[2]), Value(text[3]);
      if text[2] == '=' then [First(s, t)]
      else if text[3] == '=' then [First(s, t), Second(t, u)]
      else [First(s, t), Second(t, u), Third(u, v)] + Decode(text[4..])
  }

  lemma SextetsHoldBytes(a: Byte, b: Byte, c: Byte)
    ensures var s := Sextets(a, b, c);
      && (forall i :: 0 <= i < 4 ==> 0 <= s[i] < 64)
      && First(s[0], s[1]) == a && Second(s[1], s[2]) == b && Third(s[2], s[3]) == c
  {
  }

  lemma QuadHoldsBytes(a: Byte, b: Byte, c: Byte)
    ensures var q := Quad(a, b, c);
      && q[0] != '=' && q[1] != '=' && q[2] != '=' && q[3] != '='
      && First(Value(q[0]), Value(q[1])) == a && Second(Value(q[1]), Value(q[2])) == b
      && Third(Value(q[2]), Value(q[3])) == c
  {
    SextetsHoldBytes(a, b, c);
    var s := Sextets(a, b, c);
    ValueOfChar(s[0]);
    ValueOfChar(s[1]);
    ValueOfChar(s[2]);
    ValueOfChar(s[3]);
  }

  /** Decoding gives back the bytes, so that different secrets are written differently. */
  lemma {:induction false} EncodingIsReadBack(bytes: seq<Byte>)
    ensures Decode(Encode(bytes)) == bytes
  {
    if |bytes| == 1 {
      QuadHoldsBytes(bytes[0], 0, 0);
      DecodeOne(Quad(bytes[0], 0, 0));
    } else if |bytes| == 2 {
      QuadHoldsBytes(bytes[0], bytes[1], 0);
      DecodeTwo(Quad(bytes[0], bytes[1], 0));
    } else if |bytes| > 2 {
      EncodingIsReadBack(bytes[3..]);
      ReadBackThree(bytes);
    }
  }

  lemma ReadBackThree(bytes: seq<Byte>)
    requires |bytes| > 2 && Decode(Encode(bytes[3..])) == bytes[3..]
    ensures Decode(Encode(bytes)) == bytes
  {
    var q := Quad(bytes[0], bytes[1], bytes[2]);
    QuadHoldsBytes(bytes[0], bytes[1], bytes[2]);
    ReadBackQuad(q, Encode(bytes[3..]), bytes);
  }

  lemma ReadBackQuad(q: string, rest: string, bytes: seq<int>)
    requires |q| == 4 && q[2] != '=' && q[3] != '=' && |bytes| > 2 && Decode(rest) == bytes[3..]
    requires First(Value(q[0]), Value(q[1])) == bytes[0] && Second(Value(q[1]), Value(q[2])) == bytes[1]
    requires Third(Value(q[2]), Value(q[3])) == bytes[2]
    ensures Decode(q + rest) == bytes
  {
    DecodeThree(q, rest);
    assert bytes == [bytes[0], bytes[1], bytes[2]] + bytes[3..];
  }

  lemma DecodeOne(q: string)
    requires |q| == 4
    ensures Decode(q[..2] + "==") == [First(Value(q[0]), Value(q[1]))]
  {
  }

  lemma DecodeTwo(q: string)
    requires |q| == 4 && q[2] != '='
    ensures Decode(q[..3] + "=") == [First(Value(q[0]), Value(q[1])), Second(Value(q[1]), Value(q[2]))]
  {
  }

  lemma DecodeThree(q: string, rest: string)
    requires |q| == 4 && q[2] != '=' && q[3] != '='
    ensures Decode(q + rest)
         == [First(Value(q[0]), Value(q[1])), Second(Value(q[1]), Value(q[2])), Third(Value(q[2]), Value(q[3]))]
          + Decode(rest)
  {
    assert (q + rest)[4..] == rest;
  }

  /** Four characters for every three bytes begun; what the last of them leaves over is padded with equals
      signs, and the spare bits are zero. */
  predicate Padded(text: string, n: nat) {
    var k := |text|;
    && k == (n + 2) / 3 * 4
    && (n % 3 == 0 ==> n == 0 || text[k - 1] != '=')
    && (n % 3 == 1 ==> text[k - 2..] == "==" && Value(text[k - 3]) % 16 == 0)
    && (n % 3 == 2 ==> text[k - 1..] == "=" && text[k - 2] != '=' && Value(text[k - 2]) % 4 == 0)
  }

  lemma {:induction false} EncodingIsPadded(bytes: seq<Byte>)
    ensures Padded(Encode(bytes), |bytes|)
  {
    if |bytes| == 1 {
      PaddedOne(bytes[0]);
    } else if |bytes| == 2 {
      PaddedTwo(bytes[0], bytes[1]);
    } else if |bytes| > 2 {
      EncodingIsPadded(bytes[3..]);
      PaddedThree(bytes[0], bytes[1], bytes[2], Encode(bytes[3..]), |bytes| - 3);
    }
  }

  lemma SpareSextets(a: Byte, b: Byte)
    ensures Sextets(a, 0, 0)[1] % 16 == 0 && Sextets(a, b, 0)[2] % 4 == 0
  {
  }

  lemma QuadAt(a: Byte, b: Byte, c: Byte, i: nat)
    requires i < 4
    ensures Quad(a, b, c)[i] != '=' && Value(Quad(a, b, c)[i]) == Sextets(a, b, c)[i]
  {
    ValueOfChar(Sextets(a, b, c)[i]);
  }

  lemma SpareBits(a: Byte, b: Byte)
    ensures Value(Quad(a, 0, 0)[1]) % 16 == 0
    ensures Quad(a, b, 0)[2] != '=' && Value(Quad(a, b, 0)[2]) % 4 == 0
  {
    SpareSextets(a, b);
    QuadAt(a, 0, 0, 1);
    QuadAt(a, b, 0, 2);
  }

  lemma PaddedOne(a: Byte)
    ensures Padded(Quad(a, 0, 0)[..2] + "==", 1)
  {
    SpareBits(a, 0);
  }

  lemma PaddedTwo(a: Byte, b: Byte)
    ensures Padded(Quad(a, b, 0)[..3] + "=", 2)
  {
    SpareBits(a, b);
    PaddedOnce(Quad(a, b, 0));
  }

  lemma PaddedOnce(q: string)
    requires |q| == 4 && q[2] != '=' && Value(q[2]) % 4 == 0
    ensures Padded(q[..3] + "=", 2)
  {
  }

  lemma PaddedThree(a: Byte, b: Byte, c: Byte, rest: string, n: nat)
    requires Padded(rest, n)
    ensures Padded(Quad(a, b, c) + rest, n + 3)
  {
    QuadHoldsBytes(a, b, c);
    PaddedBehind(Quad(a, b, c), rest, n);
  }

  lemma PaddedBehind(q: string, rest: string, n: nat)
    requires |q| == 4 && q[3] != '=' && Padded(rest, n)
    ensures Padded(q + rest, n + 3)
  {
    assert forall i :: 0 <= i <= |rest| ==> (q + rest)[4 + i..] == rest[i..];
  }

  /** Only the last value is printed as an underscore. */
  lemma UnderscoreIsLast(v: int)
    requires 0 <= v < 64
    ensures Char(v) == '_' <==> v == 63
  {
    ValueOfChar(v);
    assert Char(63) == '_';
  }

  lemma FirstTwoQuads(bytes: seq<Byte>)
    requires |bytes| >= 6
    ensures |Encode(bytes)| >= 8
    ensures Encode(bytes)[..8] == Quad(bytes[0], bytes[1], bytes[2]) + Quad(bytes[3], bytes[4], bytes[5])
  {
    var rest := bytes[3..];
    assert Encode(bytes) == Quad(bytes[0], bytes[1], bytes[2]) + Encode(rest);
    assert Encode(rest) == Quad(rest[0], rest[1], rest[2]) + Encode(rest[3..]);
  }

  /** An underscore among the first eight characters comes from a sextet of six ones. */
  lemma UnderscoreInFirstEight(bytes: seq<Byte>)
    requires |bytes| >= 6
    ensures |Encode(bytes)| >= 8
    ensures '_' in Encode(bytes)[..8] <==>
      63 in Sextets(bytes[0], bytes[1], bytes[2]) + Sextets(bytes[3], bytes[4], bytes[5])
  {
    FirstTwoQuads(bytes);
    QuadUnderscore(bytes[0], bytes[1], bytes[2]);
    QuadUnderscore(bytes[3], bytes[4], bytes[5]);
  }

  lemma QuadUnderscore(a: Byte, b: Byte, c: Byte)
    ensures '_' in Quad(a, b, c) <==> 63 in Sextets(a, b, c)
  {
    var s := Sextets(a, b, c);
    UnderscoreIsLast(s[0]);
    UnderscoreIsLast(s[1]);
    UnderscoreIsLast(s[2]);
    UnderscoreIsLast(s[3]);
    var q := Quad(a, b, c);
    assert q[0] == Char(s[0]) && q[1] == Char(s[1]) && q[2] == Char(s[2]) && q[3] == Char(s[3]);
  }
}

/** API keys: generated, stored under a prefix, and found again by it. */
module ApiKeys {
  import opened Common
  import opened Strings
  import Base64Url

  type Byte = Base64Url.Byte

  datatype Error = InvalidAPIKey | APIKeyRevoked | APIKeyExpired | NoScopes

  datatype Result<+T> = Ok(value: T) | Err(error: Error)

  /** bcrypt, as far as it matters here: a hash matches the key it was made from and no other. */
  datatype Hash = Hash(key: string)

  datatype Row = Row(
    user: string, keyHash: Hash, keyPrefix: string, scopes: string, expiresAt: Option<int>, active: bool)

  const DAY := 86400

  // ----- Generation -----

  function Secret(random: seq<Byte>): (s: string)
    requires |random| == 32
    ensures |s| >= 8
  {
    Base64Url.FirstTwoQuads(random);
    Base64Url.Encode(random)
  }

  function Prefix(random: seq<Byte>): string
    requires |random| == 32
  {
    "dgpu_" + Secret(random)[..8]
  }

  function Key(random: seq<Byte>): string
    requires |random| == 32
  {
    Prefix(random) + "_" + Secret(random)[8..]
  }

  /** What ValidateAPIKey takes for the prefix of a key. */
  function ParsedPrefix(key: string): Option<string> {
    var parts := Split(key, '_');
    if |parts| < 2 then None else Some(parts[0] + "_" + parts[1])
  }

  lemma ParsedPrefixOf(random: seq<Byte>)
    requires |random| == 32
    ensures ParsedPrefix(Key(random)) == Some("dgpu_" + Before(Secret(random)[..8] + "_" + Secret(random)[8..], '_'))
  {
    var s := Secret(random);
    var tail := s[..8] + "_" + s[8..];
    assert Key(random) == "dgpu" + "_" + tail;
    SplitFront("dgpu", tail, '_');
    SplitHead(tail, '_');
    assert "dgpu" + "_" == "dgpu_";
  }

  /** What the first eight characters of the secret encode. */
  function EarlySextets(random: seq<Byte>): seq<int>
    requires |random| == 32
  {
    Base64Url.Sextets(random[0], random[1], random[2]) + Base64Url.Sextets(random[3], random[4], random[5])
  }

  /** The prefix is read back exactly when none of the first eight sextets of the random bytes is
      63; otherwise what is read back is shorter. */
  lemma PrefixRoundTrip(random: seq<Byte>)
    requires |random| == 32
    ensures var sextets := EarlySextets(random);
      && (ParsedPrefix(Key(random)) == Some(Prefix(random)) <==> 63 !in sextets)
      && (63 in sextets ==> ParsedPrefix(Key(random)).Some? && |ParsedPrefix(Key(random)).value| < 13)
  {
    var s := Secret(random);
    ParsedPrefixOf(random);
    BeforeStops(s[..8], s[8..], '_');
    Base64Url.UnderscoreInFirstEight(random);
  }

  // ----- The table -----

  /** The first row stored under a prefix. */
  function FindRow(rows: seq<Row>, prefix: string): Option<Row> {
    if rows == [] then None
    else if rows[0].keyPrefix == prefix then Some(rows[0])
    else FindRow(rows[1..], prefix)
  }

  function Validated(rows: seq<Row>, key: string, now: int): Result<(string, seq<string>)> {
    var prefix := ParsedPrefix(key);
    if prefix.None? then Err(InvalidAPIKey)
    else
      var row := FindRow(rows, prefix.value);
      if row.None? then Err(InvalidAPIKey)
      else if !row.value.active then Err(APIKeyRevoked)
      else if row.value.expiresAt.Some? && now > row.value.expiresAt.value then Err(APIKeyExpired)
      else if row.value.keyHash != Hash(key) then Err(InvalidAPIKey)
      else Ok((row.value.user, Split(row.value.scopes, ',')))
  }

  function NewRow(random: seq<Byte>, user: string, scopes: seq<string>, days: int, now: int): Row
    requires |random| == 32
  {
    var expiresAt := if days > 0 then Some(now + days * DAY) else None;
    Row(user, Hash(Key(random)), Prefix(random), Join(scopes, ','), expiresAt, true)
  }

  /** Every stored prefix was generated, hence thirteen characters long. */
  predicate Generated(rows: seq<Row>) { forall r :: r in rows ==> |r.keyPrefix| == 13 }

  lemma {:induction false} FindRowMisses(rows: seq<Row>, prefix: string)
    requires forall r :: r in rows ==> r.keyPrefix != prefix
    ensures FindRow(rows, prefix).None?
  {
    if rows != [] {
      assert rows[0] in rows;
      FindRowMisses(rows[1..], prefix);
    }
  }

  lemma {:induction false} FindRowLast(rows: seq<Row>, row: Row)
    requires forall r :: r in rows ==> r.keyPrefix != row.keyPrefix
    ensures FindRow(rows + [row], row.keyPrefix) == Some(row)
  {
    if rows != [] {
      assert rows[0] in rows;
      FindRowLast(rows[1..], row);
      assert (rows + [row])[1..] == rows[1..] + [row];
    }
  }

  /**
   A key just created under a new prefix is accepted until it expires, for its user and with the
   scopes it was given, exactly when its prefix can be read back and no scope contains a comma.
   When the prefix cannot be read back the key is never accepted.
   */
  lemma CreatedKeyWorks(
      rows: seq<Row>, random: seq<Byte>, user: string, scopes: seq<string>, days: int, created: int, now: int)
    requires |random| == 32 && Generated(rows) && scopes != []
    requires forall r :: r in rows ==> r.keyPrefix != Prefix(random)
    requires days > 0 ==> now <= created + days * DAY
    ensures var sextets := EarlySextets(random);
      var result := Validated(rows + [NewRow(random, user, scopes, days, created)], Key(random), now);
      && (result == Ok((user, scopes)) <==> 63 !in sextets && forall s :: s in scopes ==> ',' !in s)
      && (63 in sextets ==> result == Err(InvalidAPIKey))
      && (63 !in sextets ==> result.Ok? && result.value.0 == user)
  {
    var row := NewRow(random, user, scopes, days, created);
    PrefixRoundTrip(random);
    SplitUndoesJoin(scopes, ',');
    var prefix := ParsedPrefix(Key(random)).value;
    if prefix == Prefix(random) {
      FindRowLast(rows, row);
    } else {
      assert |row.keyPrefix| == 13;
      FindRowMisses(rows + [row], prefix);
    }
  }

  /** Row i is the first one under the prefix that a key spells. */
  ghost predicate FirstUnder(rows: seq<Row>, i: int, prefix: string) {
    0 <= i < |rows| && rows[i].keyPrefix == prefix && forall j :: 0 <= j < i ==> rows[j].keyPrefix != prefix
  }

  lemma {:induction false} FindRowIsFirst(rows: seq<Row>, prefix: string)
    ensures FindRow(rows, prefix).None? <==> forall i :: 0 <= i < |rows| ==> rows[i].keyPrefix != prefix
    ensures forall i :: FirstUnder(rows, i, prefix) ==> FindRow(rows, prefix) == Some(rows[i])
    ensures FindRow(rows, prefix).Some? ==> exists i :: FirstUnder(rows, i, prefix)
  {
    if rows != [] && rows[0].keyPrefix != prefix {
      FindRowIsFirst(rows[1..], prefix);
      forall i | FirstUnder(rows, i, prefix)
        ensures FindRow(rows, prefix) == Some(rows[i])
      {
        assert FirstUnder(rows[1..], i - 1, prefix);
      }
      if FindRow(rows, prefix).Some? {
        var i :| FirstUnder(rows[1..], i, prefix);
        assert FirstUnder(rows, i + 1, prefix);
      }
    } else if rows != [] {
      assert FirstUnder(rows, 0, prefix);
    }
  }

  /**
   A key is accepted exactly if the first row under its prefix is active, has not expired and holds the
   hash of this very key; the answer is then that row's user and scopes.
   */
  lemma AcceptedExactly(rows: seq<Row>, key: string, now: int)
    ensures var result := Validated(rows, key, now);
      && (result.Ok? <==> exists i :: && ParsedPrefix(key).Some? && FirstUnder(rows, i, ParsedPrefix(key).value)
                                      && rows[i].keyHash == Hash(key) && rows[i].active
                                      && (rows[i].expiresAt.None? || now <= rows[i].expiresAt.value))
      && forall i :: result.Ok? && FirstUnder(rows, i, ParsedPrefix(key).value) ==>
           result.value == (rows[i].user, Split(rows[i].scopes, ','))
  {
    if ParsedPrefix(key).Some? {
      FindRowIsFirst(rows, ParsedPrefix(key).value);
    }
  }

  /** A key that was never stored is never accepted, whatever prefix it spells. */
  lemma UnknownKeyIsRefused(rows: seq<Row>, key: string, now: int)
    requires forall r :: r in rows ==> r.keyHash != Hash(key)
    ensures Validated(rows, key, now).Err?
  {
    AcceptedExactly(rows, key, now);
  }

  /**
   What becomes of a new key: never accepted if its prefix cannot be read back; otherwise refused as
   revoked once its row is inactive, refused as expired after its days of 86400 seconds, if it was
   given any, and until then accepted for its user.
   */
  lemma CreatedKeyEnds(
      rows: seq<Row>, random: seq<Byte>, user: string, scopes: seq<string>, days: int, created: int, now: int,
      active: bool)
    requires |random| == 32 && Generated(rows)
    requires forall r :: r in rows ==> r.keyPrefix != Prefix(random)
    ensures var row := NewRow(random, user, scopes, days, created).(active := active);
      Validated(rows + [row], Key(random), now) ==
        if 63 in EarlySextets(random) then Err(InvalidAPIKey)
        else if !active then Err(APIKeyRevoked)
        else if days > 0 && created + days * 86400 < now then Err(APIKeyExpired)
        else Ok((user, Split(Join(scopes, ','), ',')))
  {
    var row := NewRow(random, user, scopes, days, created).(active := active);
    PrefixRoundTrip(random);
    var prefix := ParsedPrefix(Key(random)).value;
    if prefix == Prefix(random) {
      FindRowLast(rows, row);
    } else {
      FindRowMisses(rows + [row], prefix);
    }
  }

  /** A key is "dgpu_", eight characters of the secret, an underscore and the rest; what is stored of it
      is the first part, its hash, and the scopes as one text. */
  lemma KeyLayout(random: seq<Byte>, user: string, scopes: seq<string>, days: int, now: int)
    requires |random| == 32
    ensures var secret, row := Base64Url.Encode(random), NewRow(random, user, scopes, days, now);
      && |secret| >= 8 && Key(random) == "dgpu_" + secret[..8] + "_" + secret[8..]
      && row.keyPrefix == "dgpu_" + secret[..8] && row.keyHash == Hash(Key(random))
      && row.user == user && row.active && row.scopes == Join(scopes, ',')
      && row.expiresAt == if days > 0 then Some(now + days * 86400) else None
  {
    Base64Url.FirstTwoQuads(random);
  }

  class APIKeyHandler {
    var rows: seq<Row>

    constructor ()
      ensures rows == []
    {
      rows := [];
    }

    method CreateAPIKey(random: seq<Byte>, user: string, scopes: seq<string>, days: int, now: int)
      returns (r: Result<string>)
      requires |random| == 32
      modifies this
      ensures scopes == [] ==> r == Err(NoScopes) && rows == old(rows)
      ensures scopes != [] ==> r == Ok(Key(random)) && rows == old(rows) + [NewRow(random, user, scopes, days, now)]
    {
      if |scopes| == 0 {
        return Err(NoScopes);
      }
      var keySecret := Secret(random);
      var prefix := "dgpu_" + keySecret[..8];
      var key := prefix + "_" + keySecret[8..];
      var expiresAt: Option<int> := None;
      if days > 0 {
        expiresAt := Some(now + days * DAY);
      }
      rows := rows + [Row(user, Hash(key), prefix, Join(scopes, ','), expiresAt, true)];
      return Ok(key);
    }

    method ValidateAPIKey(key: string, now: int) returns (r: Result<(string, seq<string>)>)
      ensures r == Validated(rows, key, now)
    {
      var parts := Split(key, '_');
      if |parts| < 2 {
        return Err(InvalidAPIKey);
      }
      var prefix := parts[0] + "_" + parts[1];
      var found: Option<Row> := None;
      var i := 0;
      while i < |rows| && found.None?
        invariant 0 <= i <= |rows|
        invariant FindRow(rows, prefix) == if found.Some? then found else FindRow(rows[i..], prefix)
      {
        if rows[i].keyPrefix == prefix {
          found := Some(rows[i]);
        }
        i := i + 1;
      }
      if found.None? {
        return Err(InvalidAPIKey);
      }
      var row := found.value;
      if !row.active {
        return Err(APIKeyRevoked);
      }
      if row.expiresAt.Some? && now > row.expiresAt.value {
        return Err(APIKeyExpired);
      }
      if row.keyHash != Hash(key) {
        return Err(InvalidAPIKey);
      }
      return Ok((row.user, Split(row.scopes, ',')));
    }
  }
}

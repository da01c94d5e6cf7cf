/**
 * `bcrypt.compare` of bcryptjs (src/lib/auth.ts:11-13). The password enters
 * bcrypt's key schedule only through 72 bytes: its UTF-8 encoding followed by
 * a zero byte, repeated until 72 bytes are filled, so two passwords whose
 * encodings agree on their first 72 bytes are indistinguishable. A stored
 * text whose JavaScript length is not 60 never matches; a text of length 60
 * is parsed as a hash, re-hashed with its salt, or rejected with an exception.
 */
module Bcrypt {
  import opened Types
  import opened Query

  const KeyLength := 72
  const HashLength := 60

  /** The UTF-8 encoding of a text. */
  function Utf8Bytes(s: string): (b: seq<nat>)
    ensures |s| <= |b| <= 4 * |s|
    ensures forall i :: 0 <= i < |b| ==> b[i] < 256
  {
    if s == [] then [] else Utf8(s[0]) + Utf8Bytes(s[1..])
  }

  /** `k` repeated until `n` bytes are filled. */
  function Cycle(k: seq<nat>, n: nat): (r: seq<nat>)
    requires |k| > 0
    ensures |r| == n && forall i :: 0 <= i < n ==> r[i] == k[i % |k|]
  {
    seq(n, i requires 0 <= i < n => k[i % |k|])
  }

  /** The 72 bytes of key material the password contributes. */
  function KeyMaterial(password: string): (k: seq<nat>)
    ensures |k| == KeyLength
    ensures |Utf8Bytes(password)| >= KeyLength ==> k == Utf8Bytes(password)[..KeyLength]
    ensures |Utf8Bytes(password)| < KeyLength ==>
      k[..|Utf8Bytes(password)|] == Utf8Bytes(password) && k[|Utf8Bytes(password)|] == 0
  {
    PaddedPrefix(Utf8Bytes(password));
    Cycle(Utf8Bytes(password) + [0], KeyLength)
  }

  /** Repeating `b` and a zero byte starts with `b` itself, up to 72 bytes. */
  lemma {:induction false} PaddedPrefix(b: seq<nat>)
    ensures var k := Cycle(b + [0], KeyLength);
      && (|b| >= KeyLength ==> k == b[..KeyLength])
      && (|b| < KeyLength ==> k[..|b|] == b && k[|b|] == 0)
  {
    var p := b + [0];
    var k := Cycle(p, KeyLength);
    forall i | 0 <= i < KeyLength && i < |p|
      ensures k[i] == p[i]
    {
      SmallRemainder(i, |p|);
    }
    if |b| >= KeyLength {
      assert k == b[..KeyLength];
    } else {
      assert k[..|b|] == b;
    }
  }

  lemma SmallRemainder(i: nat, m: nat)
    requires i < m
    ensures i % m == i
  {
  }

  /**
   * `s.length` in JavaScript: the number of UTF-16 code units, one for a
   * character below U+10000 and two (a surrogate pair) for any other.
   */
  function Utf16Length(s: string): (n: nat)
    ensures |s| <= n <= 2 * |s|
    ensures (forall i :: 0 <= i < |s| ==> s[i] as int < 0x10000) ==> n == |s|
    ensures (exists i :: 0 <= i < |s| && s[i] as int >= 0x10000) ==> n > |s|
  {
    if s == [] then 0
    else (if s[0] as int >= 0x10000 then 2 else 1) + Utf16Length(s[1..])
  }

  /** Length is additive over concatenation. */
  lemma {:induction false} Utf16LengthAppend(a: string, b: string)
    ensures Utf16Length(a + b) == Utf16Length(a) + Utf16Length(b)
  {
    if a == [] {
      assert a + b == b;
    } else {
      assert (a + b)[1..] == a[1..] + b;
      Utf16LengthAppend(a[1..], b);
    }
  }

  /**
   * The length test counts code units, not characters: 58 letters and one
   * character outside the Basic Multilingual Plane have length 60 and go on
   * to be parsed as a hash, while 59 letters and that character have length
   * 61 and never match.
   */
  lemma {:induction false} SurrogatePairsCountTwice(password: string, rehash: (string, string) -> Comparison)
    ensures var short := seq(58, _ => 'a') + ['\U{1F600}'];
      && |short| == 59 && Utf16Length(short) == HashLength
      && CompareHash(password, Clear(short), rehash) == rehash(password, short)
    ensures var long := seq(59, _ => 'a') + ['\U{1F600}'];
      && |long| == HashLength && CompareHash(password, Clear(long), rehash) == Mismatch
  {
    var smile := ['\U{1F600}'];
    assert Utf16Length(smile) == 2 by {
      assert smile[1..] == [];
    }
    var a58 := seq(58, _ => 'a');
    var a59 := seq(59, _ => 'a');
    assert forall i :: 0 <= i < |a58| ==> a58[i] as int < 0x10000;
    assert forall i :: 0 <= i < |a59| ==> a59[i] as int < 0x10000;
    Utf16LengthAppend(a58, smile);
    Utf16LengthAppend(a59, smile);
  }

  /** How a comparison ends: a match, a mismatch, or an exception (a malformed salt). */
  datatype Comparison = Match | Mismatch | Threw

  /**
   * `bcrypt.compare(password, stored)`. What bcryptjs answers for a stored
   * text of length 60 that the application did not hash itself depends on
   * that text's salt and cost, which are outside the model: `rehash` gives it.
   */
  function CompareHash(password: string, stored: Secret, rehash: (string, string) -> Comparison): (c: Comparison)
    ensures stored.Digest? ==> c != Threw
    ensures stored.Digest? ==> (c == Match <==> KeyMaterial(password) == KeyMaterial(stored.of))
    ensures stored.Clear? && Utf16Length(stored.text) != HashLength ==> c == Mismatch
    ensures stored.Clear? && Utf16Length(stored.text) == HashLength ==> c == rehash(password, stored.text)
  {
    match stored
    case Digest(p) => if KeyMaterial(password) == KeyMaterial(p) then Match else Mismatch
    case Clear(text) => if Utf16Length(text) != HashLength then Mismatch else rehash(password, text)
  }

  /** A digest always matches the password it was made from. */
  lemma {:induction false} DigestMatches(password: string, rehash: (string, string) -> Comparison)
    ensures CompareHash(password, Digest(password), rehash) == Match
  {
  }

  /**
   * Only the first 72 bytes count: a password whose encoding shares its
   * first 72 bytes with the hashed one matches too, whatever follows.
   */
  lemma {:induction false} LongPasswordsCollide(hashed: string, typed: string, rehash: (string, string) -> Comparison)
    requires |Utf8Bytes(hashed)| >= KeyLength && |Utf8Bytes(typed)| >= KeyLength
    requires Utf8Bytes(hashed)[..KeyLength] == Utf8Bytes(typed)[..KeyLength]
    ensures CompareHash(typed, Digest(hashed), rehash) == Match
  {
  }
}

/**
 * The two static helpers of WampConnectionPrivate used for salted
 * challenge-response secrets: the big-endian encoding of a 32-bit integer
 * and the key derivation of section 5.2 of RFC 8018 (PBKDF2), restricted to
 * its first block, with HMAC-SHA256 as the pseudo-random function and a
 * 32-byte derived key.
 */
module KeyDerivation {
  import opened Values

  const DIGEST_LENGTH := 32

  /**
   * The contract of HMAC-SHA256 (RFC 2104 over SHA-256): a deterministic
   * function of key and message whose digest has 32 bytes. The hash itself
   * is a library call and is not modelled.
   */
  type Mac = f: (Bytes, Bytes) -> Bytes | forall key, msg :: |f(key, msg)| == DIGEST_LENGTH
    witness (key: Bytes, msg: Bytes) => seq(DIGEST_LENGTH, _ => 0)

  /** The number a byte string denotes, most significant byte first. */
  function BigEndian(b: Bytes): nat {
    if b == [] then 0 else BigEndian(b[..|b| - 1]) * 256 + b[|b| - 1]
  }

  /** A four-byte string denotes ((b0 * 256 + b1) * 256 + b2) * 256 + b3. */
  lemma BigEndianOfFour(b: Bytes)
    requires |b| == 4
    ensures BigEndian(b) == ((b[0] as int * 256 + b[1]) * 256 + b[2]) * 256 + b[3]
  {
    var p1, p2, p3 := b[..1], b[..2], b[..3];
    assert p1[..0] == [] && p2[..1] == p1 && p3[..2] == p2 && b[..3] == p3;
    assert BigEndian(p1) == b[0];
    assert BigEndian(p2) == b[0] as int * 256 + b[1];
  }

  /** Dividing q * 256 + r by 256 gives back q and r. */
  lemma DivMod256(q: nat, r: nat)
    requires r < 256
    ensures (q * 256 + r) / 256 == q && (q * 256 + r) % 256 == r
  {
  }

  /** The bytes of a four-byte string are the base-256 digits of the number it denotes. */
  lemma BigEndianDigits(b: Bytes)
    requires |b| == 4
    ensures BigEndian(b) < I32_LIMIT
    ensures b[3] == BigEndian(b) % 256
    ensures b[2] == BigEndian(b) / 256 % 256
    ensures b[1] == BigEndian(b) / 256 / 256 % 256
    ensures b[0] == BigEndian(b) / 256 / 256 / 256
  {
    BigEndianOfFour(b);
    var b0: int, b1: int, b2: int, b3: int := b[0], b[1], b[2], b[3];
    var q2: int := b0 * 256 + b1;
    var q1: int := q2 * 256 + b2;
    var v := BigEndian(b);
    assert v == q1 * 256 + b3;
    DivMod256(q1, b3);
    assert v / 256 == q1 && v % 256 == b3;
    DivMod256(q2, b2);
    assert q1 / 256 == q2 && q1 % 256 == b2;
    DivMod256(b0, b1);
    assert q2 / 256 == b0 && q2 % 256 == b1;
  }

  /** Two four-byte strings that denote the same number are equal. */
  lemma BigEndianInjective(a: Bytes, b: Bytes)
    requires |a| == |b| == 4 && BigEndian(a) == BigEndian(b)
    ensures a == b
  {
    BigEndianDigits(a);
    BigEndianDigits(b);
    assert forall k :: 0 <= k < 4 ==> a[k] == b[k];
  }

  /**
   * IntToOctet: the four bytes of `(uint)i`, most significant first; the
   * bytes are written one index at a time.
   */
  method IntToOctet(i: I32) returns (octet: Bytes)
    ensures |octet| == 4
    ensures BigEndian(octet) == i % I32_LIMIT
  {
    var u := i % I32_LIMIT;
    var a := new Byte[4];
    a[0] := (u / 256 / 256 / 256);
    a[1] := (u / 256 / 256 % 256);
    a[2] := (u / 256 % 256);
    a[3] := (u % 256);
    octet := a[..];
    BigEndianOfFour(octet);
    ShiftDigits(u);
  }

  /** A 32-bit number is recovered from its four base-256 digits. */
  lemma ShiftDigits(u: nat)
    requires u < I32_LIMIT
    ensures u / 256 / 256 / 256 < 256
    ensures u == ((u / 256 / 256 / 256 * 256 + u / 256 / 256 % 256) * 256 + u / 256 % 256) * 256 + u % 256
  {
    var q1 := u / 256;
    var q2 := q1 / 256;
    var q3 := q2 / 256;
    assert u == q1 * 256 + u % 256;
    assert q1 == q2 * 256 + q1 % 256;
    assert q2 == q3 * 256 + q2 % 256;
    assert q1 < 0x100_0000;
    assert q2 < 0x1_0000;
  }

  /** The block index written INT(1) in RFC 8018: 00 00 00 01. */
  const INT_ONE: Bytes := [0, 0, 0, 1]

  /** The only four-byte string denoting 1 is INT(1). */
  lemma OctetOfOne(octet: Bytes)
    requires |octet| == 4 && BigEndian(octet) == 1
    ensures octet == INT_ONE
  {
    BigEndianOfFour(INT_ONE);
    BigEndianInjective(octet, INT_ONE);
  }

  /**
   * U_{j+1} of section 5.2 of RFC 8018 for the first block:
   * U_1 = PRF(P, seed) and U_{j+1} = PRF(P, U_j).
   */
  function Block(mac: Mac, key: Bytes, seed: Bytes, j: nat): (u: Bytes)
    ensures |u| == DIGEST_LENGTH
  {
    if j == 0 then mac(key, seed) else mac(key, Block(mac, key, seed, j - 1))
  }

  /** Byte `i` of U_1 xor U_2 xor ... xor U_n. */
  function XorColumn(mac: Mac, key: Bytes, seed: Bytes, n: nat, i: nat): Byte
    requires i < DIGEST_LENGTH
  {
    if n == 0 then 0 else Xor(XorColumn(mac, key, seed, n - 1, i), Block(mac, key, seed, n - 1)[i])
  }

  /** The seed of the first block: the Latin-1 salt followed by INT(1). */
  function FirstSeed(salt: string): Bytes {
    Latin1(salt) + INT_ONE
  }

  /**
   * The derived key T_1 = U_1 xor ... xor U_c of section 5.2 of RFC 8018,
   * with P = Latin-1 password, S = Latin-1 salt and c = iterations; a
   * count below one derives no block at all.
   */
  function DerivedKey(mac: Mac, password: string, salt: string, iterations: int): Bytes {
    var c := if iterations < 0 then 0 else iterations;
    seq(DIGEST_LENGTH, i requires 0 <= i < DIGEST_LENGTH => XorColumn(mac, Latin1(password), FirstSeed(salt), c, i))
  }

  /**
   * PBKDF2: the first loop chains `iterations` HMAC blocks into U, the
   * nested loops xor them column by column into a 32-byte result.
   */
  method Pbkdf2(mac: Mac, password: string, salt: string, iterations: I32) returns (result: Bytes)
    ensures |result| == DIGEST_LENGTH
    ensures result == DerivedKey(mac, password, salt, iterations)
  {
    var u: seq<Bytes> := [];
    var octet := IntToOctet(1);
    OctetOfOne(octet);
    var key := Latin1(password);
    ghost var seed := FirstSeed(salt);
    var newSalt := Latin1(salt) + octet;
    var i := 0;
    while i < iterations
      invariant 0 <= i <= if iterations < 0 then 0 else iterations
      invariant |u| == i
      invariant forall j :: 0 <= j < i ==> u[j] == Block(mac, key, seed, j)
      invariant newSalt == if i == 0 then seed else Block(mac, key, seed, i - 1)
    {
      var hashResult := mac(key, newSalt);
      u := u + [hashResult];
      newSalt := hashResult;
      i := i + 1;
    }
    assert i == if iterations < 0 then 0 else iterations;
    result := XorBlocks(mac, key, seed, u, iterations);
    ghost var dk := DerivedKey(mac, password, salt, iterations);
    forall k | 0 <= k < DIGEST_LENGTH
      ensures result[k] == dk[k]
    {
    }
  }

  /**
   * The second half of PBKDF2: byte `col` of the result is the xor of byte
   * `col` of the first `iterations` blocks, accumulated by a nested loop and
   * written into the result by index.
   */
  method XorBlocks(ghost mac: Mac, ghost key: Bytes, ghost seed: Bytes, u: seq<Bytes>, iterations: I32)
    returns (result: Bytes)
    requires |u| == if iterations < 0 then 0 else iterations
    requires forall j :: 0 <= j < |u| ==> u[j] == Block(mac, key, seed, j)
    ensures |result| == DIGEST_LENGTH
    ensures forall k :: 0 <= k < DIGEST_LENGTH ==> result[k] == XorColumn(mac, key, seed, |u|, k)
  {
    var out := new Byte[DIGEST_LENGTH];
    var col := 0;
    while col < DIGEST_LENGTH
      invariant 0 <= col <= DIGEST_LENGTH
      invariant forall k :: 0 <= k < col ==> out[k] == XorColumn(mac, key, seed, |u|, k)
    {
      var xored: Byte := 0;
      var j := 0;
      while j < iterations
        invariant 0 <= j <= |u|
        invariant xored == XorColumn(mac, key, seed, j, col)
      {
        xored := Xor(xored, u[j][col]);
        j := j + 1;
      }
      assert j == |u|;
      out[col] := xored;
      col := col + 1;
    }
    result := out[..];
  }

  /** No iterations derive 32 zero bytes. */
  lemma DerivedKeyWithoutIterations(mac: Mac, password: string, salt: string, iterations: int)
    requires iterations <= 0
    ensures DerivedKey(mac, password, salt, iterations) == seq(DIGEST_LENGTH, _ => 0)
  {
    var dk := DerivedKey(mac, password, salt, iterations);
    assert |dk| == DIGEST_LENGTH;
    forall i | 0 <= i < DIGEST_LENGTH
      ensures dk[i] == 0
    {
      assert dk[i] == XorColumn(mac, Latin1(password), FirstSeed(salt), 0, i);
    }
  }

  /** Zero is the unit of exclusive or. */
  lemma XorZero(x: Byte)
    ensures Xor(0, x) == x
  {
    assert (0 as bv8) ^ (x as bv8) == x as bv8;
  }

  /** With one iteration the derived key is U_1 = HMAC(P, S || INT(1)). */
  lemma DerivedKeyOneIteration(mac: Mac, password: string, salt: string)
    ensures DerivedKey(mac, password, salt, 1) == mac(Latin1(password), FirstSeed(salt))
  {
    var dk := DerivedKey(mac, password, salt, 1);
    var u1 := mac(Latin1(password), FirstSeed(salt));
    forall i | 0 <= i < DIGEST_LENGTH
      ensures dk[i] == u1[i]
    {
      assert dk[i] == XorColumn(mac, Latin1(password), FirstSeed(salt), 1, i);
      XorZero(u1[i]);
    }
  }

  /** One more iteration xors exactly one more block into every byte. */
  lemma DerivedKeyStep(mac: Mac, password: string, salt: string, iterations: nat, i: nat)
    requires i < DIGEST_LENGTH
    ensures DerivedKey(mac, password, salt, iterations + 1)[i]
         == Xor(DerivedKey(mac, password, salt, iterations)[i], Block(mac, Latin1(password), FirstSeed(salt), iterations)[i])
  {
    assert DerivedKey(mac, password, salt, iterations + 1)[i] == XorColumn(mac, Latin1(password), FirstSeed(salt), iterations + 1, i);
    assert DerivedKey(mac, password, salt, iterations)[i] == XorColumn(mac, Latin1(password), FirstSeed(salt), iterations, i);
  }
}

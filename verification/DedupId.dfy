/** The tenant-scoped NATS dedup id (src/outbox.rs): a length-prefixed preimage, hashed and
    rendered in hexadecimal. SHA-256 itself is a parameter. */
module DedupId {
  import opened Wrappers

  type Digest = d: seq<byte> | |d| == 32 witness seq(32, _ => 0)

  /** A dedup namespace and the UTF-8 bytes of a business key in it. */
  datatype Scope = Scope(tenant: Option<Uuid>, key: seq<byte>)

  const U64_LIMIT: nat := 0x1_00000000_00000000

  function Ascii(s: string): (b: seq<byte>)
    requires forall i | 0 <= i < |s| :: s[i] < 128 as char
    ensures |b| == |s|
  {
    seq(|s|, i requires 0 <= i < |s| => s[i] as int)
  }

  const DOMAIN: seq<byte> := Ascii("fiducia-messaging:nats-dedup:v1\0")
  const TENANT: seq<byte> := Ascii("tenant\0")
  const GLOBAL: seq<byte> := Ascii("global\0")

  /** Big-endian bytes of the low `width` bytes of `n`. */
  function BigEndian(n: nat, width: nat): (b: seq<byte>)
    ensures |b| == width
  {
    if width == 0 then [] else BigEndian(n / 256, width - 1) + [n % 256]
  }

  function NamespaceBytes(s: Scope): seq<byte> {
    if s.tenant.Some? then TENANT + BigEndian(s.tenant.value, 16) else GLOBAL
  }

  /** The truncating cast of a length to 64 bits. */
  function AsU64(n: nat): nat { if n < U64_LIMIT then n else n % U64_LIMIT }

  function KeyBytes(s: Scope): seq<byte> { BigEndian(AsU64(|s.key|), 8) + s.key }

  function Preimage(s: Scope): seq<byte> {
    DOMAIN + NamespaceBytes(s) + BigEndian(AsU64(|s.key|), 8) + s.key
  }

  function HexChar(d: nat): char
    requires d < 16
  {
    if d < 10 then '0' + d as char else 'a' + (d - 10) as char
  }

  function Hex(b: seq<byte>): (s: string)
    ensures |s| == 2 * |b|
  {
    if b == [] then "" else Hex(b[..|b| - 1]) + [HexChar(b[|b| - 1] / 16), HexChar(b[|b| - 1] % 16)]
  }

  function Render(d: Digest): string { "v1-" + Hex(d) }

  function TenantScopedDedupId(sha256: seq<byte> -> Digest, s: Scope): string {
    Render(sha256(Preimage(s)))
  }

  /** The source's own computation: the hasher is fed piece by piece and the digest is
      written out byte by byte. */
  method ComputeDedupId(sha256: seq<byte> -> Digest, tenant: Option<Uuid>, key: seq<byte>) returns (output: string)
    ensures output == TenantScopedDedupId(sha256, Scope(tenant, key))
  {
    var hasher: seq<byte> := DOMAIN;
    match tenant {
      case Some(id) =>
        hasher := hasher + TENANT;
        hasher := hasher + BigEndian(id, 16);
      case None =>
        hasher := hasher + GLOBAL;
    }
    hasher := hasher + BigEndian(AsU64(|key|), 8);
    hasher := hasher + key;
    assert hasher == Preimage(Scope(tenant, key));
    var digest := sha256(hasher);
    output := "v1-";
    for i := 0 to |digest|
      invariant output == "v1-" + Hex(digest[..i])
    {
      assert digest[..i + 1][..i] == digest[..i];
      output := output + [HexChar(digest[i] / 16), HexChar(digest[i] % 16)];
    }
    assert digest[..|digest|] == digest;
  }

  // ---- The encoding, byte for byte --------------------------------------------------

  lemma {:induction false} DomainBytes()
    ensures DOMAIN == [102, 105, 100, 117, 99, 105, 97, 45, 109, 101, 115, 115, 97, 103, 105, 110, 103, 58,
                       110, 97, 116, 115, 45, 100, 101, 100, 117, 112, 58, 118, 49, 0]
  {
  }

  lemma {:induction false} NamespaceWords()
    ensures GLOBAL == [103, 108, 111, 98, 97, 108, 0] && TENANT == [116, 101, 110, 97, 110, 116, 0]
  {
  }

  /** The encoding of two small scopes, written out: separator, namespace, a big-endian 64-bit
      length and the key. */
  lemma {:induction false} PreimageBytes()
    ensures DOMAIN == [102, 105, 100, 117, 99, 105, 97, 45, 109, 101, 115, 115, 97, 103, 105, 110, 103, 58,
                       110, 97, 116, 115, 45, 100, 101, 100, 117, 112, 58, 118, 49, 0]
    ensures Preimage(Scope(None, [107])) == DOMAIN + [103, 108, 111, 98, 97, 108, 0] + [0, 0, 0, 0, 0, 0, 0, 1] + [107]
    ensures Preimage(Scope(Some(0x0001_0203_0405_0607_0809_0a0b_0c0d_0e0f), [107, 49]))
         == DOMAIN + ([116, 101, 110, 97, 110, 116, 0] + [0, 1, 2, 3, 4, 5, 6, 7, 8, 9, 10, 11, 12, 13, 14, 15])
          + [0, 0, 0, 0, 0, 0, 0, 2] + [107, 49]
  {
    hide DOMAIN, GLOBAL, TENANT, BigEndian, Ascii;
    DomainBytes();
    NamespaceWords();
    SmallUuid();
    SmallLength(1);
    SmallLength(2);
  }

  lemma {:induction false} BigEndianStep(n: nat, width: nat, b: seq<byte>)
    requires width > 0 && BigEndian(n / 256, width - 1) == b
    ensures BigEndian(n, width) == b + [n % 256]
  {
  }

  lemma {:induction false} NoHighBytes(width: nat)
    ensures BigEndian(0, width) == seq(width, _ => 0)
  {
    if width > 0 { NoHighBytes(width - 1); }
  }

  lemma {:induction false} SmallLength(n: nat)
    requires n < 256
    ensures BigEndian(n, 8) == [0, 0, 0, 0, 0, 0, 0, n]
  {
    NoHighBytes(7);
    BigEndianStep(n, 8, BigEndian(0, 7));
  }

  lemma {:induction false} SmallUuid()
    ensures BigEndian(0x0001_0203_0405_0607_0809_0a0b_0c0d_0e0f, 16)
         == [0, 1, 2, 3, 4, 5, 6, 7, 8, 9, 10, 11, 12, 13, 14, 15]
  {
    hide BigEndian;
    NoHighBytes(1);
    BigEndianStep(0x0001, 2, [0]);
    BigEndianStep(0x0001_02, 3, [0, 1]);
    BigEndianStep(0x0001_0203, 4, [0, 1, 2]);
    BigEndianStep(0x0001_0203_04, 5, [0, 1, 2, 3]);
    BigEndianStep(0x0001_0203_0405, 6, [0, 1, 2, 3, 4]);
    BigEndianStep(0x0001_0203_0405_06, 7, [0, 1, 2, 3, 4, 5]);
    BigEndianStep(0x0001_0203_0405_0607, 8, [0, 1, 2, 3, 4, 5, 6]);
    BigEndianStep(0x0001_0203_0405_0607_08, 9, [0, 1, 2, 3, 4, 5, 6, 7]);
    BigEndianStep(0x0001_0203_0405_0607_0809, 10, [0, 1, 2, 3, 4, 5, 6, 7, 8]);
    BigEndianStep(0x0001_0203_0405_0607_0809_0a, 11, [0, 1, 2, 3, 4, 5, 6, 7, 8, 9]);
    BigEndianStep(0x0001_0203_0405_0607_0809_0a0b, 12, [0, 1, 2, 3, 4, 5, 6, 7, 8, 9, 10]);
    BigEndianStep(0x0001_0203_0405_0607_0809_0a0b_0c, 13, [0, 1, 2, 3, 4, 5, 6, 7, 8, 9, 10, 11]);
    BigEndianStep(0x0001_0203_0405_0607_0809_0a0b_0c0d, 14, [0, 1, 2, 3, 4, 5, 6, 7, 8, 9, 10, 11, 12]);
    BigEndianStep(0x0001_0203_0405_0607_0809_0a0b_0c0d_0e, 15, [0, 1, 2, 3, 4, 5, 6, 7, 8, 9, 10, 11, 12, 13]);
    BigEndianStep(0x0001_0203_0405_0607_0809_0a0b_0c0d_0e0f, 16, [0, 1, 2, 3, 4, 5, 6, 7, 8, 9, 10, 11, 12, 13, 14]);
  }

  /** High digit first, in lower case. */
  lemma {:induction false} HexSpelling()
    ensures Hex([0x00, 0x1f, 0xa0, 0xe9]) == "001fa0e9"
  {
    var b: seq<byte> := [0x00, 0x1f, 0xa0, 0xe9];
    assert b[..3][..2][..1][..0] == [] && b[..1] == [0x00] && b[..2] == [0x00, 0x1f] && b[..3] == [0x00, 0x1f, 0xa0];
    assert Hex([]) == "";
    HexSnoc([], 0x00);
    HexSnoc([0x00], 0x1f);
    HexSnoc([0x00, 0x1f], 0xa0);
    HexSnoc([0x00, 0x1f, 0xa0], 0xe9);
  }

  lemma {:induction false} HexSnoc(b: seq<byte>, d: byte)
    ensures Hex(b + [d]) == Hex(b) + [HexChar(d / 16), HexChar(d % 16)]
  {
    assert (b + [d])[..|b|] == b;
  }

  // ---- Injectivity ----------------------------------------------------------------

  function Pow256(k: nat): nat { if k == 0 then 1 else 256 * Pow256(k - 1) }

  lemma {:induction false} BigEndianInjective(a: nat, b: nat, width: nat)
    requires a < Pow256(width) && b < Pow256(width)
    requires BigEndian(a, width) == BigEndian(b, width)
    ensures a == b
  {
    if width > 0 {
      var x, y := BigEndian(a, width), BigEndian(b, width);
      assert x[width - 1] == a % 256 && y[width - 1] == b % 256;
      assert x[..width - 1] == BigEndian(a / 256, width - 1);
      assert y[..width - 1] == BigEndian(b / 256, width - 1);
      BigEndianInjective(a / 256, b / 256, width - 1);
    }
  }

  lemma {:induction false} Widths()
    ensures Pow256(8) == U64_LIMIT && Pow256(16) == TWO_POW_128
  {
    assert Pow256(4) == 0x1_0000_0000;
    assert Pow256(8) == 0x1_0000_0000 * Pow256(4);
    assert Pow256(12) == 0x1_0000_0000 * Pow256(8);
    assert Pow256(16) == 0x1_0000_0000 * Pow256(12);
  }

  /** Equally long heads of a sequence and of one of its prefixes agree. */
  lemma {:induction false} SplitPrefix(a: seq<byte>, x: seq<byte>, b: seq<byte>, y: seq<byte>)
    requires |a| == |b| && a + x <= b + y
    ensures a == b && x <= y
  {
    assert a == (a + x)[..|a|] && b == (b + y)[..|a|];
    assert x == (a + x)[|a|..] && y == (b + y)[|a|..];
  }

  lemma {:induction false} NamespacePrefixFree(a: Scope, x: seq<byte>, b: Scope, y: seq<byte>)
    requires NamespaceBytes(a) + x <= NamespaceBytes(b) + y
    ensures a.tenant == b.tenant && x <= y
  {
    Widths();
    var p, q := NamespaceBytes(a) + x, NamespaceBytes(b) + y;
    assert |TENANT| == 7 && |GLOBAL| == 7 && TENANT[0] == 't' as int && GLOBAL[0] == 'g' as int;
    assert p[0] == NamespaceBytes(a)[0] && q[0] == NamespaceBytes(b)[0];
    assert a.tenant.Some? <==> b.tenant.Some?;
    SplitPrefix(NamespaceBytes(a), x, NamespaceBytes(b), y);
    if a.tenant.Some? {
      SplitPrefix(TENANT, BigEndian(a.tenant.value, 16), TENANT, BigEndian(b.tenant.value, 16));
      BigEndianInjective(a.tenant.value, b.tenant.value, 16);
    }
  }

  lemma {:induction false} NumberPrefixFree(m: nat, x: seq<byte>, n: nat, y: seq<byte>, width: nat)
    requires m < Pow256(width) && n < Pow256(width)
    requires BigEndian(m, width) + x <= BigEndian(n, width) + y
    ensures m == n && x <= y
  {
    SplitPrefix(BigEndian(m, width), x, BigEndian(n, width), y);
    BigEndianInjective(m, n, width);
  }

  lemma {:induction false} KeyPrefixFree(a: Scope, b: Scope)
    requires |a.key| < U64_LIMIT && |b.key| < U64_LIMIT
    requires KeyBytes(a) <= KeyBytes(b)
    ensures a.key == b.key
  {
    Widths();
    NumberPrefixFree(AsU64(|a.key|), a.key, AsU64(|b.key|), b.key, 8);
  }

  /** No preimage is a proper prefix of another: the length prefix makes the encoding
      prefix-free, and so injective. */
  lemma {:induction false} PreimagePrefixFree(a: Scope, b: Scope)
    requires |a.key| < U64_LIMIT && |b.key| < U64_LIMIT
    requires Preimage(a) <= Preimage(b)
    ensures a == b
  {
    PreimageParts(a);
    PreimageParts(b);
    SplitPrefix(DOMAIN, NamespaceBytes(a) + KeyBytes(a), DOMAIN, NamespaceBytes(b) + KeyBytes(b));
    NamespacePrefixFree(a, KeyBytes(a), b, KeyBytes(b));
    KeyPrefixFree(a, b);
  }

  lemma {:induction false} PreimageParts(s: Scope)
    ensures Preimage(s) == DOMAIN + (NamespaceBytes(s) + KeyBytes(s))
  {
  }

  lemma {:induction false} HexCharInjective(a: nat, b: nat)
    requires a < 16 && b < 16 && HexChar(a) == HexChar(b)
    ensures a == b
  {
  }

  lemma {:induction false} HexInjective(a: seq<byte>, b: seq<byte>)
    requires Hex(a) == Hex(b)
    ensures a == b
  {
    hide HexChar;
    if a != [] {
      var x, y := a[|a| - 1], b[|b| - 1];
      var s, t := Hex(a), Hex(b);
      assert s[|s| - 2] == HexChar(x / 16) && s[|s| - 1] == HexChar(x % 16);
      assert t[|t| - 2] == HexChar(y / 16) && t[|t| - 1] == HexChar(y % 16);
      HexCharInjective(x / 16, y / 16);
      HexCharInjective(x % 16, y % 16);
      assert s[..|s| - 2] == Hex(a[..|a| - 1]) && t[..|t| - 2] == Hex(b[..|b| - 1]);
      HexInjective(a[..|a| - 1], b[..|b| - 1]);
      assert a == a[..|a| - 1] + [x] && b == b[..|b| - 1] + [y];
    }
  }

  predicate IsLowerHex(c: char) { '0' <= c <= '9' || 'a' <= c <= 'f' }

  /** The documented shape: 67 characters, `v1-` and then lowercase hexadecimal; distinct
      digests have distinct renderings. */
  lemma {:induction false} RenderShape(d: Digest, e: Digest)
    ensures |Render(d)| == 67 && Render(d)[..3] == "v1-"
    ensures forall i | 3 <= i < 67 :: IsLowerHex(Render(d)[i])
    ensures Render(d) == Render(e) ==> d == e
  {
    HexIsLower(d);
    assert Render(d)[3..] == Hex(d) && Render(e)[3..] == Hex(e);
    forall i | 3 <= i < 67 ensures IsLowerHex(Render(d)[i]) {
      assert Render(d)[i] == Hex(d)[i - 3];
    }
    if Render(d) == Render(e) {
      HexInjective(d, e);
    }
  }

  lemma {:induction false} HexIsLower(b: seq<byte>)
    ensures forall i | 0 <= i < |Hex(b)| :: IsLowerHex(Hex(b)[i])
  {
    if b != [] {
      HexIsLower(b[..|b| - 1]);
    }
  }

  /** The hash does not collide on the preimages of two scopes. Collision freedom is asked
      only of the scopes in play: over all inputs no 32-byte hash has it. */
  predicate NoCollision(sha256: seq<byte> -> Digest, a: Scope, b: Scope) {
    sha256(Preimage(a)) == sha256(Preimage(b)) ==> Preimage(a) == Preimage(b)
  }

  /** Dedup-id equality is scope equality. */
  lemma {:induction false} DedupIdIdentifiesScope(sha256: seq<byte> -> Digest, a: Scope, b: Scope)
    requires |a.key| < U64_LIMIT && |b.key| < U64_LIMIT && NoCollision(sha256, a, b)
    ensures TenantScopedDedupId(sha256, a) == TenantScopedDedupId(sha256, b) <==> a == b
  {
    RenderShape(sha256(Preimage(a)), sha256(Preimage(b)));
    if TenantScopedDedupId(sha256, a) == TenantScopedDedupId(sha256, b) {
      PreimagePrefixFree(a, b);
    }
  }
}

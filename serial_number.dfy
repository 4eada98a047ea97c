/** `generateRandomSerialNumber`: a uniformly drawn number below 2^128, as
    `crypto/rand.Int` draws it for the bound 2^128. For that bound the
    number needs 128 bits, so one read of 16 random octets is masked with
    0xff (no change) and, being always below the bound, taken at once. */
module SerialNumber {
  import opened Common

  /** The octets read from `crypto/rand.Reader`. */
  const DrawLength: nat := 16

  /** The bound `1 << 128`, which is 256^16. */
  const SerialLimit: nat := Pow256(DrawLength)

  /** The bound is 2^128. */
  lemma SerialLimitValue()
    ensures SerialLimit == Pow2(128)
  {
    Pow256IsPow2(DrawLength);
  }

  /** The read from the random source failed. */
  datatype SerialError = RandomReadFailed

  /** The serial number drawn from `draw`, the 16 random octets read, or
      `None` when the read failed. */
  function GenerateRandomSerialNumber(draw: Option<seq<byte>>): (r: Result<nat, SerialError>)
    requires draw.Some? ==> |draw.value| == DrawLength
    ensures r.Failure? <==> draw.None?
    ensures r.Success? ==> r.value < SerialLimit
  {
    match draw
    case None => Failure(RandomReadFailed)
    case Some(b) =>
      BigEndianBound(b);
      Success(BigEndian(b))
  }

  /** 256^k is 2^(8k). */
  lemma {:induction false} Pow256IsPow2(k: nat)
    ensures Pow256(k) == Pow2(8 * k)
  {
    if k > 0 {
      Pow256IsPow2(k - 1);
      Pow2Add(8 * (k - 1), 8);
      assert Pow2(8) == 256;
      assert 8 * k == 8 * (k - 1) + 8;
    }
  }

  /** 2^(a+b) is 2^a times 2^b. */
  lemma {:induction false} Pow2Add(a: nat, b: nat)
    ensures Pow2(a + b) == Pow2(a) * Pow2(b)
    decreases b
  {
    if b > 0 {
      Pow2Add(a, b - 1);
      assert Pow2(a + b) == 2 * Pow2(a + (b - 1));
    }
  }

  /** `n` in `k` octets, most significant first. */
  function FixedOctets(n: nat, k: nat): (b: seq<byte>)
    requires n < Pow256(k)
    ensures |b| == k
  {
    if k == 0 then [] else FixedOctets(n / 256, k - 1) + [n % 256]
  }

  /** The octets of `n` read back give `n`. */
  lemma {:induction false} FixedOctetsValue(n: nat, k: nat)
    requires n < Pow256(k)
    ensures BigEndian(FixedOctets(n, k)) == n
  {
    if k > 0 {
      var b := FixedOctets(n, k);
      assert b[..k - 1] == FixedOctets(n / 256, k - 1);
      FixedOctetsValue(n / 256, k - 1);
    }
  }

  /** A draw is the octets of the number it gives. */
  lemma {:induction false} OctetsOfValue(b: seq<byte>)
    ensures BigEndian(b) < Pow256(|b|)
    ensures FixedOctets(BigEndian(b), |b|) == b
  {
    BigEndianBound(b);
    if |b| > 0 {
      var front := b[..|b| - 1];
      OctetsOfValue(front);
      assert b == front + [b[|b| - 1]];
    }
  }

  /** The draws of 16 octets and the serial numbers correspond one to one:
      each number below 2^128 comes from exactly one draw, so all are
      equally likely. */
  lemma DrawsMatchSerials(n: nat, b: seq<byte>)
    requires n < SerialLimit && |b| == DrawLength
    ensures GenerateRandomSerialNumber(Some(FixedOctets(n, DrawLength))) == Success(n)
    ensures GenerateRandomSerialNumber(Some(b)) == Success(n) ==> b == FixedOctets(n, DrawLength)
  {
    FixedOctetsValue(n, DrawLength);
    OctetsOfValue(b);
  }
}

/**
  Kitty DNA and the crossover `breed` applies to two parents' DNA: a
  16-byte selector chooses, bit by bit, which parent each bit comes from.
*/
module Genetics {
  /** Number of bytes in a kitty's DNA. */
  const DnaLength := 16

  /** A kitty's DNA, a fixed 16-byte array in the pallet. */
  type Dna = s: seq<bv8> | |s| == DnaLength witness seq(DnaLength, _ => 0)

  /** The byte with only bit `k` (0 = least significant) set. */
  function Mask(k: nat): (b: bv8)
    requires k < 8
  {
    if k == 0 then 0x01 else if k == 1 then 0x02 else if k == 2 then 0x04
    else if k == 3 then 0x08 else if k == 4 then 0x10 else if k == 5 then 0x20
    else if k == 6 then 0x40 else 0x80
  }

  /** Bit `k` of byte `b` is set. */
  predicate Bit(b: bv8, k: nat)
    requires k < 8
  {
    b & Mask(k) != 0
  }

  /** One byte of the crossover: `(s & m) | (!s & f)`. Each result bit comes
      from `m` where the selector bit is set and from `f` where it is clear. */
  function CrossByte(s: bv8, m: bv8, f: bv8): (c: bv8)
    ensures forall k :: 0 <= k < 8 ==> Bit(c, k) == if Bit(s, k) then Bit(m, k) else Bit(f, k)
  {
    (s & m) | (!s & f)
  }

  /** The child DNA of parents `m` and `f` under `selector`, byte by byte. */
  function Crossover(selector: Dna, m: Dna, f: Dna): (child: Dna)
    ensures forall i, k :: 0 <= i < DnaLength && 0 <= k < 8 ==>
      Bit(child[i], k) == if Bit(selector[i], k) then Bit(m[i], k) else Bit(f[i], k)
  {
    seq(DnaLength, i requires 0 <= i < DnaLength => CrossByte(selector[i], m[i], f[i]))
  }

  /** The byte-wise complement of a selector. */
  function Complement(s: Dna): (c: Dna)
    ensures forall i, k :: 0 <= i < DnaLength && 0 <= k < 8 ==> Bit(c[i], k) == !Bit(s[i], k)
  {
    seq(DnaLength, i requires 0 <= i < DnaLength => !s[i])
  }

  /** Two byte values are equal when all their bits are. */
  lemma BitsDetermineByte(a: bv8, b: bv8)
    requires forall k :: 0 <= k < 8 ==> Bit(a, k) == Bit(b, k)
    ensures a == b
  {
    assert Bit(a, 0) == Bit(b, 0) && Bit(a, 1) == Bit(b, 1);
    assert Bit(a, 2) == Bit(b, 2) && Bit(a, 3) == Bit(b, 3);
    assert Bit(a, 4) == Bit(b, 4) && Bit(a, 5) == Bit(b, 5);
    assert Bit(a, 6) == Bit(b, 6) && Bit(a, 7) == Bit(b, 7);
  }

  /** The bit law determines the child: any DNA obeying it is the crossover. */
  lemma CrossoverUnique(selector: Dna, m: Dna, f: Dna, child: Dna)
    requires forall i, k :: 0 <= i < DnaLength && 0 <= k < 8 ==>
      Bit(child[i], k) == if Bit(selector[i], k) then Bit(m[i], k) else Bit(f[i], k)
    ensures child == Crossover(selector, m, f)
  {
    var c := Crossover(selector, m, f);
    forall i | 0 <= i < DnaLength ensures child[i] == c[i] {
      BitsDetermineByte(child[i], c[i]);
    }
  }

  /** Breeding a kitty with an identical twin reproduces its DNA, whatever the selector. */
  lemma CrossoverSameParents(selector: Dna, d: Dna)
    ensures Crossover(selector, d, d) == d
  {
  }

  /** Swapping the parents and complementing the selector yields the same child. */
  lemma CrossoverMirror(selector: Dna, m: Dna, f: Dna)
    ensures Crossover(Complement(selector), f, m) == Crossover(selector, m, f)
  {
  }

  /** `breed`'s loop: fills a zeroed 16-byte array with the crossover of the
      parents, one byte per iteration. */
  method Mix(selector: Dna, m: Dna, f: Dna) returns (child: Dna)
    ensures child == Crossover(selector, m, f)
  {
    var dna := new bv8[DnaLength];
    for i := 0 to DnaLength
      invariant forall j :: 0 <= j < i ==> dna[j] == CrossByte(selector[j], m[j], f[j])
    {
      dna[i] := (selector[i] & m[i]) | (!selector[i] & f[i]);
    }
    child := dna[..];
  }
}

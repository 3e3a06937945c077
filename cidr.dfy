/** IPv4 address blocks in CIDR notation, as the scripts write them (`a.b.c.d/prefix`). */
module Cidr {
  import opened PyText

  datatype Block = Block(a: nat, b: nat, c: nat, d: nat, prefix: nat)

  function Pow2(n: nat): (p: nat)
    ensures p >= 1
  {
    if n == 0 then 1 else 2 * Pow2(n - 1)
  }

  /** The first address of the block, as a 32-bit number. */
  function Start(x: Block): nat {
    ((x.a * 256 + x.b) * 256 + x.c) * 256 + x.d
  }

  /** How many addresses the block spans. */
  function Size(x: Block): nat
    requires x.prefix <= 32
  {
    Pow2(32 - x.prefix)
  }

  /** Four octets, a prefix length of at most 32, and a start aligned to the block size. */
  predicate Valid(x: Block) {
    x.a < 256 && x.b < 256 && x.c < 256 && x.d < 256 && x.prefix <= 32 && Start(x) % Size(x) == 0
  }

  /** Every address of `inner` lies in `outer`. */
  predicate Contains(outer: Block, inner: Block)
    requires outer.prefix <= 32 && inner.prefix <= 32
  {
    Start(outer) <= Start(inner) && Start(inner) + Size(inner) <= Start(outer) + Size(outer)
  }

  /** `inner` lies in `outer` and is smaller than it. */
  predicate StrictlyContains(outer: Block, inner: Block)
    requires outer.prefix <= 32 && inner.prefix <= 32
  {
    Contains(outer, inner) && Size(inner) < Size(outer)
  }

  /** No address lies in both blocks. */
  predicate Disjoint(x: Block, y: Block)
    requires x.prefix <= 32 && y.prefix <= 32
  {
    Start(x) + Size(x) <= Start(y) || Start(y) + Size(y) <= Start(x)
  }

  /** The dotted `a.b.c.d/prefix` text of a block. */
  function Format(x: Block): string {
    NatToString(x.a) + "." + NatToString(x.b) + "." + NatToString(x.c) + "." + NatToString(x.d)
    + "/" + NatToString(x.prefix)
  }

  lemma Pow2Values()
    ensures Pow2(8) == 256 && Pow2(16) == 65536
  {
  }

  lemma MultipleMod(q: nat)
    ensures (q * 256) % 256 == 0 && (q * 65536) % 65536 == 0
  {
  }

  /** The start of `a.b.c.0/24` is 256 addresses per step of c past the start of `a.b.0.0/16`. */
  lemma {:induction false} Slash24Start(a: nat, b: nat, c: nat)
    ensures Start(Block(a, b, 0, 0, 16)) == (a * 256 + b) * 65536
    ensures Start(Block(a, b, c, 0, 24)) == ((a * 256 + b) * 256 + c) * 256
    ensures Start(Block(a, b, c, 0, 24)) == (a * 256 + b) * 65536 + c * 256
  {
    var k := a * 256 + b;
    assert Start(Block(a, b, c, 0, 24)) == (k * 256 + c) * 256;
    assert (k * 256 + c) * 256 == k * 65536 + c * 256;
  }

  /** The block sizes of a /24 and a /16. */
  lemma SlashSizes(a: nat, b: nat, c: nat)
    ensures Size(Block(a, b, c, 0, 24)) == 256 && Size(Block(a, b, 0, 0, 16)) == 65536
  {
    Pow2Values();
  }

  /**
   * The /24 block `a.b.c.0/24` is a valid block strictly inside the /16 block
   * `a.b.0.0/16`, for every third octet c.
   */
  lemma {:induction false} Slash24InsideSlash16(a: nat, b: nat, c: nat)
    requires a < 256 && b < 256 && c < 256
    ensures Valid(Block(a, b, c, 0, 24)) && Valid(Block(a, b, 0, 0, 16))
    ensures StrictlyContains(Block(a, b, 0, 0, 16), Block(a, b, c, 0, 24))
  {
    var inner, outer := Block(a, b, c, 0, 24), Block(a, b, 0, 0, 16);
    SlashSizes(a, b, c);
    Slash24Start(a, b, c);
    var k := a * 256 + b;
    var si, so := Start(inner), Start(outer);
    MultipleMod(k);
    MultipleMod(k * 256 + c);
    assert si % 256 == 0;
    assert so % 65536 == 0;
    assert so <= si && si + 256 <= so + 65536 by {
      assert si == so + c * 256;
      assert c * 256 + 256 <= 65536;
    }
  }

  /** Two /24 blocks with different third octets in one /16 share no address. */
  lemma {:induction false} Slash24sDisjoint(a: nat, b: nat, c1: nat, c2: nat)
    requires c1 != c2
    ensures Disjoint(Block(a, b, c1, 0, 24), Block(a, b, c2, 0, 24))
  {
    Pow2Values();
    Slash24Start(a, b, c1);
    Slash24Start(a, b, c2);
  }

  /** Two /16 blocks with different second octets share no address. */
  lemma {:induction false} Slash16sDisjoint(a: nat, b1: nat, b2: nat)
    requires b1 < 256 && b2 < 256 && b1 != b2
    ensures Disjoint(Block(a, b1, 0, 0, 16), Block(a, b2, 0, 0, 16))
  {
    Pow2Values();
    assert Start(Block(a, b1, 0, 0, 16)) == (a * 256 + b1) * 65536;
    assert Start(Block(a, b2, 0, 0, 16)) == (a * 256 + b2) * 65536;
    if b1 < b2 {
      assert (a * 256 + b1) * 65536 + 65536 <= (a * 256 + b2) * 65536;
    } else {
      assert (a * 256 + b2) * 65536 + 65536 <= (a * 256 + b1) * 65536;
    }
  }
}

/** Page addressing shared by both backends and the size of the far-memory buffer
    (code/drivers/fastswap.c, code/farmemserver/rmserver.c). */
module Addressing {

  newtype byte = x: int | 0 <= x < 256

  /** What one page holds. */
  type Contents = seq<byte>

  const PAGE_SIZE: nat := 4096
  const TWO_31: nat := 0x8000_0000
  const TWO_32: nat := 0x1_0000_0000
  const TWO_52: nat := 0x10_0000_0000_0000
  const TWO_63: nat := 0x8000_0000_0000_0000
  const TWO_64: nat := 0x1_0000_0000_0000_0000

  // ----- machine integers

  function WrapInt(x: int): int {
    (x + TWO_31) % TWO_32 - TWO_31
  }

  function WrapLong(x: int): int {
    (x + TWO_63) % TWO_64 - TWO_63
  }

  function WrapSize(x: int): nat {
    x % TWO_64
  }

  /** 1024 * 1024 * 1024l: an int product, then a long product. */
  function OneGb(): int {
    WrapLong(WrapInt(1024 * 1024) * 1024)
  }

  /** BUFFER_SIZE = 1024 * 1024 * 1024l * buffer_multiplier: one more long product, and a
      conversion to size_t. */
  function BufferSize(multiplier: int): nat {
    WrapSize(WrapLong(OneGb() * multiplier))
  }

  /** pageid << PAGE_SHIFT in an unsigned long. */
  function RemoteOffset(pageid: nat): nat {
    pageid * PAGE_SIZE % TWO_64
  }

  /** The page's bytes lie inside a buffer of the given size. */
  predicate Fits(pageid: nat, size: nat) {
    RemoteOffset(pageid) + PAGE_SIZE <= size
  }

  /** For every positive 32-bit multiplier the size is exact: nothing overflows on the way. */
  lemma BufferSizeExact(multiplier: int)
    requires 0 < multiplier < TWO_31
    ensures BufferSize(multiplier) == multiplier * 0x4000_0000 < TWO_63
    ensures BufferSize(multiplier) / PAGE_SIZE * PAGE_SIZE == BufferSize(multiplier)
  {
    OneGbExact();
    SizeStays(OneGb(), multiplier);
  }

  lemma OneGbExact()
    ensures OneGb() == 0x4000_0000
  {
  }

  lemma SizeStays(gb: int, multiplier: int)
    requires 0 < multiplier < TWO_31 && gb == 0x4000_0000
    ensures WrapSize(WrapLong(gb * multiplier)) == multiplier * 0x4000_0000 < TWO_63
    ensures multiplier * 0x4000_0000 / PAGE_SIZE * PAGE_SIZE == multiplier * 0x4000_0000
  {
    var bytes := multiplier * 0x4000_0000;
    Substitute(gb, 0x4000_0000, multiplier);
    LongStays(bytes);
    SmallStays(bytes, TWO_64);
    WholePages(bytes, multiplier * 0x4_0000);
  }

  lemma Substitute(x: int, y: int, k: int)
    requires x == y
    ensures x * k == y * k
  {
  }

  lemma WholePages(bytes: int, pages: int)
    requires bytes == pages * PAGE_SIZE
    ensures bytes / PAGE_SIZE * PAGE_SIZE == bytes
  {
  }

  lemma LongStays(x: int)
    requires 0 <= x < TWO_63
    ensures WrapLong(x) == x
  {
    SmallStays(x + TWO_63, TWO_64);
  }

  lemma SmallStays(x: nat, n: nat)
    requires x < n
    ensures x % n == x
  {
  }

  /** Page ids of one buffer, all of them: the offset is the page id modulo 2^52 times the page
      size; it is in range exactly if that remainder is below size / 4096; two page ids share a
      byte exactly if their remainders are equal, and then they share the page. Below 2^52 the
      remainder is the page id itself. */
  lemma PagesTile(multiplier: int, p: nat, q: nat)
    requires 0 < multiplier < TWO_31
    ensures Fits(p, BufferSize(multiplier)) <==> p % TWO_52 < BufferSize(multiplier) / PAGE_SIZE
    ensures p % TWO_52 == q % TWO_52 ==> RemoteOffset(p) == RemoteOffset(q)
    ensures p % TWO_52 != q % TWO_52 ==>
      RemoteOffset(p) + PAGE_SIZE <= RemoteOffset(q) || RemoteOffset(q) + PAGE_SIZE <= RemoteOffset(p)
    ensures p < TWO_52 ==> p % TWO_52 == p && RemoteOffset(p) == p * PAGE_SIZE
  {
    BufferSizeExact(multiplier);
    OffsetWraps(p);
    OffsetWraps(q);
    PagesApart(p % TWO_52, q % TWO_52, BufferSize(multiplier) / PAGE_SIZE);
  }

  lemma OffsetWraps(p: nat)
    ensures RemoteOffset(p) == p % TWO_52 * PAGE_SIZE
  {
    var d, r := p / TWO_52, p % TWO_52;
    assert p == d * TWO_52 + r;
    assert p * PAGE_SIZE == d * TWO_64 + r * PAGE_SIZE;
  }

  /** Pages at these places, of a buffer of so many pages. */
  lemma PagesApart(a: nat, b: nat, pages: nat)
    ensures a * PAGE_SIZE + PAGE_SIZE <= pages * PAGE_SIZE <==> a < pages
    ensures a != b ==> a * PAGE_SIZE + PAGE_SIZE <= b * PAGE_SIZE || b * PAGE_SIZE + PAGE_SIZE <= a * PAGE_SIZE
  {
  }

  lemma OffsetExact(p: nat)
    ensures RemoteOffset(p) == p * PAGE_SIZE <==> p < TWO_52
    ensures RemoteOffset(p + TWO_52) == RemoteOffset(p)
  {
    assert TWO_52 * PAGE_SIZE == TWO_64;
    assert (p + TWO_52) * PAGE_SIZE == p * PAGE_SIZE + TWO_64;
  }

  // ----- a flat buffer seen as slots

  function SlotAt(buf: seq<byte>, pageid: nat): (c: Contents)
    requires (pageid + 1) * PAGE_SIZE <= |buf|
  {
    buf[pageid * PAGE_SIZE..(pageid + 1) * PAGE_SIZE]
  }

  /** The whole pages of a buffer. */
  function Slots(buf: seq<byte>): (r: seq<Contents>) {
    seq(|buf| / PAGE_SIZE, k requires 0 <= k < |buf| / PAGE_SIZE => SlotAt(buf, k))
  }

  /** The buffer with one page overwritten. */
  function WritePage(buf: seq<byte>, pageid: nat, c: Contents): seq<byte>
    requires (pageid + 1) * PAGE_SIZE <= |buf| && |c| == PAGE_SIZE
  {
    buf[..pageid * PAGE_SIZE] + c + buf[(pageid + 1) * PAGE_SIZE..]
  }

  /** Writing one page changes that slot to the page's contents and no other. */
  lemma WritePageIsSlotUpdate(buf: seq<byte>, pageid: nat, c: Contents)
    requires (pageid + 1) * PAGE_SIZE <= |buf| && |c| == PAGE_SIZE
    ensures pageid < |Slots(buf)|
    ensures Slots(WritePage(buf, pageid, c)) == Slots(buf)[pageid := c]
  {
    var buf' := WritePage(buf, pageid, c);
    forall k | 0 <= k < |buf| / PAGE_SIZE ensures SlotAt(buf', k) == Slots(buf)[pageid := c][k] {
      if k < pageid {
        assert SlotAt(buf', k) == SlotAt(buf, k);
      } else if k > pageid {
        assert SlotAt(buf', k) == SlotAt(buf, k);
      } else {
        assert SlotAt(buf', k) == c;
      }
    }
    assert Slots(buf') == Slots(buf)[pageid := c];
  }
}

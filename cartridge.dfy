/**
 * A dumped cartridge: its header and its ROM banks, the 16-bit global
 * checksum over the whole image and the serialisation of the banks
 * (cartridge/cartridge.go).
 */
module Cartridges {
  import opened Common
  import opened Header

  /** Size of one ROM bank: 16 KiB. */
  const BankSize: nat := 0x4000

  /** Flat offsets of the two global-checksum bytes, which the checksum skips. */
  const GlobalChecksumHigh: nat := 0x14E
  const GlobalChecksumLow: nat := 0x14F

  /** RAM banks hold Go `uint` values in the source and are never filled. */
  datatype Cartridge = Cartridge(header: CartridgeHeader, romBanks: seq<seq<byte>>, ramBanks: seq<seq<nat>>)

  /** A cartridge holding the given header and banks, with no RAM banks. */
  function NewCartridge(h: CartridgeHeader, rbs: seq<seq<byte>>): (c: Cartridge)
    ensures c.header == h && c.romBanks == rbs && c.ramBanks == []
  {
    Cartridge(h, rbs, [])
  }

  /** The banks laid end to end, in index order. */
  function Flatten(banks: seq<seq<byte>>): seq<byte> {
    if banks == [] then [] else Flatten(banks[..|banks| - 1]) + banks[|banks| - 1]
  }

  lemma {:induction false} FlattenAppend(a: seq<seq<byte>>, b: seq<seq<byte>>)
    ensures Flatten(a + b) == Flatten(a) + Flatten(b)
  {
    if b == [] {
      assert a + b == a;
    } else {
      assert (a + b)[..|a + b| - 1] == a + b[..|b| - 1];
      FlattenAppend(a, b[..|b| - 1]);
    }
  }

  predicate AllBanksFull(banks: seq<seq<byte>>) {
    forall b :: 0 <= b < |banks| ==> |banks[b]| == BankSize
  }

  /**
   * With every bank 0x4000 bytes long the flat image has no gaps and no
   * overlaps: byte j of bank b sits at flat offset b * 0x4000 + j.
   */
  lemma {:induction false} FlattenFullBanks(banks: seq<seq<byte>>)
    requires AllBanksFull(banks)
    ensures |Flatten(banks)| == |banks| * BankSize
    ensures forall b, j :: 0 <= b < |banks| && 0 <= j < BankSize ==>
      Flatten(banks)[b * BankSize + j] == banks[b][j]
  {
    if banks != [] {
      var init := banks[..|banks| - 1];
      FlattenFullBanks(init);
      var n := |banks| - 1;
      forall b, j | 0 <= b < |banks| && 0 <= j < BankSize
        ensures Flatten(banks)[b * BankSize + j] == banks[b][j]
      {
        if b < n {
          assert b * BankSize + j < n * BankSize;
          assert init[b] == banks[b];
        }
      }
    }
  }

  /**
   * The contribution of a flat image to the global checksum: the sum of its
   * bytes, the two at flat offsets 0x14E and 0x14F left out.
   */
  function ChecksumSum(flat: seq<byte>): nat {
    if flat == [] then 0
    else
      var last := |flat| - 1;
      ChecksumSum(flat[..last]) + (if last == GlobalChecksumHigh || last == GlobalChecksumLow then 0 else flat[last])
  }

  /** The global checksum as a 16-bit value, wrapping around like Go's `uint16`. */
  function GlobalChecksumOf(banks: seq<seq<byte>>): nat {
    ChecksumSum(Flatten(banks)) % 0x10000
  }

  /** The header stores the checksum big-endian: byte 0 high, byte 1 low. */
  predicate GlobalChecksumValid(c: Cartridge)
    requires |c.header.globalChecksum| == 2
  {
    var sum := GlobalChecksumOf(c.romBanks);
    sum % 256 == c.header.globalChecksum[1] && sum / 256 == c.header.globalChecksum[0]
  }

  datatype CartridgeError =
    InvalidGlobalChecksum(expectedHigh: byte, expectedLow: byte, foundHigh: byte, foundLow: byte)

  /**
   * Sums every byte of every bank in order into a 16-bit accumulator,
   * skipping flat offsets 0x14E and 0x14F, and compares the result with the
   * header's global checksum. The error carries the stored and computed bytes.
   */
  method Validate(c: Cartridge) returns (r: Outcome<CartridgeError>)
    requires |c.header.globalChecksum| == 2
    ensures r == Pass <==> GlobalChecksumValid(c)
    ensures r != Pass ==>
      var sum := GlobalChecksumOf(c.romBanks);
      r == Fail(InvalidGlobalChecksum(c.header.globalChecksum[0], c.header.globalChecksum[1], sum / 256, sum % 256))
  {
    var banks := c.romBanks;
    var nb := 0;
    var result: nat := 0;
    for bi := 0 to |banks|
      invariant nb == |Flatten(banks[..bi])|
      invariant result == ChecksumSum(Flatten(banks[..bi])) % 0x10000
    {
      var bank := banks[bi];
      ghost var done := Flatten(banks[..bi]);
      assert done + bank[..0] == done;
      for j := 0 to |bank|
        invariant nb == |done| + j
        invariant result == ChecksumSum(done + bank[..j]) % 0x10000
      {
        assert (done + bank[..j + 1])[..nb] == done + bank[..j];
        if nb != GlobalChecksumHigh && nb != GlobalChecksumLow {
          result := (result + bank[j]) % 0x10000;
        }
        nb := nb + 1;
      }
      assert banks[..bi + 1][..bi] == banks[..bi];
      assert bank[..|bank|] == bank;
    }
    assert banks[..|banks|] == banks;
    var b0, b1 := result % 256, result / 256;
    if b0 != c.header.globalChecksum[1] || b1 != c.header.globalChecksum[0] {
      r := Fail(InvalidGlobalChecksum(c.header.globalChecksum[0], c.header.globalChecksum[1], b1, b0));
    } else {
      r := Pass;
    }
  }

  /**
   * Replacing one byte moves the checksum sum by the difference of the two
   * bytes, or not at all when the byte is one of the two skipped ones.
   */
  lemma {:induction false} ChecksumSumUpdate(flat: seq<byte>, k: nat, v: byte)
    requires k < |flat|
    ensures k == GlobalChecksumHigh || k == GlobalChecksumLow ==> ChecksumSum(flat[k := v]) == ChecksumSum(flat)
    ensures k != GlobalChecksumHigh && k != GlobalChecksumLow ==>
      ChecksumSum(flat[k := v]) == ChecksumSum(flat) - flat[k] + v
  {
    var t := flat[k := v];
    var last := |flat| - 1;
    if k == last {
      assert t[..last] == flat[..last];
    } else {
      assert t[..last] == flat[..last][k := v];
      ChecksumSumUpdate(flat[..last], k, v);
    }
  }

  /** The two checksum bytes themselves never contribute to the checksum. */
  lemma GlobalChecksumSkipsItsOwnBytes(flat: seq<byte>, v: byte, w: byte)
    requires |flat| > GlobalChecksumLow
    ensures ChecksumSum(flat[GlobalChecksumHigh := v][GlobalChecksumLow := w]) == ChecksumSum(flat)
  {
    ChecksumSumUpdate(flat, GlobalChecksumHigh, v);
    ChecksumSumUpdate(flat[GlobalChecksumHigh := v], GlobalChecksumLow, w);
  }

  /** The banks with byte j of bank b replaced by v. */
  function PatchByte(banks: seq<seq<byte>>, b: nat, j: nat, v: byte): seq<seq<byte>>
    requires b < |banks| && j < |banks[b]|
  {
    var bank: seq<byte> := banks[b][j := v];
    banks[b := bank]
  }

  /** The flat image splits around bank b into the banks before it, bank b and the banks after it. */
  lemma FlattenAround(banks: seq<seq<byte>>, b: nat)
    requires b < |banks|
    ensures Flatten(banks) == Flatten(banks[..b]) + banks[b] + Flatten(banks[b + 1..])
  {
    var upTo := banks[..b + 1];
    assert banks == upTo + banks[b + 1..];
    FlattenAppend(upTo, banks[b + 1..]);
    assert upTo[..b] == banks[..b];
  }

  lemma UpdateInMiddle(before: seq<byte>, x: seq<byte>, after: seq<byte>, j: nat, v: byte)
    requires j < |x|
    ensures (before + x + after)[|before| + j := v] == before + x[j := v] + after
  {
  }

  /** Changing byte j of bank b changes the flat image at offset |banks before b| + j only. */
  lemma FlattenUpdate(banks: seq<seq<byte>>, b: nat, j: nat, v: byte)
    requires b < |banks| && j < |banks[b]|
    ensures |Flatten(banks[..b])| + j < |Flatten(banks)|
    ensures Flatten(banks)[|Flatten(banks[..b])| + j] == banks[b][j]
    ensures Flatten(PatchByte(banks, b, j, v)) == Flatten(banks)[|Flatten(banks[..b])| + j := v]
  {
    var patched := PatchByte(banks, b, j, v);
    var before, after := Flatten(banks[..b]), Flatten(banks[b + 1..]);
    assert Flatten(banks) == before + banks[b] + after by {
      FlattenAround(banks, b);
    }
    assert Flatten(patched) == before + banks[b][j := v] + after by {
      FlattenAround(patched, b);
      assert patched[..b] == banks[..b];
      assert patched[b + 1..] == banks[b + 1..];
    }
    UpdateInMiddle(before, banks[b], after, j, v);
  }

  /** Sums that differ by a non-zero amount below 256 differ modulo 2^16. */
  lemma SixteenBitSumsDiffer(s: nat, t: nat)
    requires s != t && -256 < s - t < 256
    ensures s % 0x10000 != t % 0x10000
  {
  }

  /**
   * The global checksum detects a single changed byte: if a cartridge
   * validates, changing one ROM byte at a flat offset other than 0x14E and
   * 0x14F, with the header unchanged, makes it fail.
   */
  lemma GlobalChecksumDetectsSingleByteChange(c: Cartridge, b: nat, j: nat, v: byte)
    requires |c.header.globalChecksum| == 2
    requires b < |c.romBanks| && j < |c.romBanks[b]| && v != c.romBanks[b][j]
    requires |Flatten(c.romBanks[..b])| + j != GlobalChecksumHigh
    requires |Flatten(c.romBanks[..b])| + j != GlobalChecksumLow
    requires GlobalChecksumValid(c)
    ensures !GlobalChecksumValid(c.(romBanks := PatchByte(c.romBanks, b, j, v)))
  {
    var flat := Flatten(c.romBanks);
    var k := |Flatten(c.romBanks[..b])| + j;
    FlattenUpdate(c.romBanks, b, j, v);
    ChecksumSumUpdate(flat, k, v);
    SixteenBitSumsDiffer(ChecksumSum(flat), ChecksumSum(flat[k := v]));
    var sum, sum' := GlobalChecksumOf(c.romBanks), GlobalChecksumOf(PatchByte(c.romBanks, b, j, v));
    assert sum != sum';
    assert sum == (sum / 256) * 256 + sum % 256;
    assert sum' == (sum' / 256) * 256 + sum' % 256;
  }

  /**
   * Serialises the cartridge: the ROM banks one after the other in index
   * order, nothing between them and no RAM banks.
   */
  method Save(c: Cartridge) returns (out: seq<byte>)
    ensures out == Flatten(c.romBanks)
  {
    out := [];
    for i := 0 to |c.romBanks|
      invariant out == Flatten(c.romBanks[..i])
    {
      assert c.romBanks[..i + 1][..i] == c.romBanks[..i];
      out := out + c.romBanks[i];
    }
    assert c.romBanks[..|c.romBanks|] == c.romBanks;
  }

  /** The saved image of full banks is |banks| * 0x4000 bytes with bank b at offset b * 0x4000. */
  lemma SaveLayout(c: Cartridge, b: nat, j: nat)
    requires AllBanksFull(c.romBanks)
    requires b < |c.romBanks| && j < BankSize
    ensures |Flatten(c.romBanks)| == |c.romBanks| * BankSize
    ensures Flatten(c.romBanks)[b * BankSize + j] == c.romBanks[b][j]
  {
    FlattenFullBanks(c.romBanks);
  }
}

/**
 * Reading a cartridge from a ROM image file: the reader caches the loaded
 * image and the decoded header, and cuts the image into 16 KiB ROM banks
 * (cartridge/readers.go). Opening and reading the file is outside the
 * model: each operation receives what reading the file would give.
 */
module Readers {
  import opened Common
  import opened Header
  import opened Cartridges

  /** What reading the whole ROM file gives: its bytes, or the I/O error's text. */
  datatype LoadOutcome = Loaded(bytes: seq<byte>) | LoadFailed(reason: string)

  /** The load error, wrapped as "reading cartridge header: ..." in the source. */
  datatype ReaderError = ReadingCartridgeHeader(reason: string)

  /**
   * The first nb * 0x4000 bytes of an image cut into nb banks: bank b is
   * bytes [b * 0x4000, (b + 1) * 0x4000), and together the banks cover that
   * prefix with no gap and no overlap.
   */
  function SliceBanks(image: seq<byte>, nb: nat): (banks: seq<seq<byte>>)
    requires |image| >= nb * BankSize
    ensures |banks| == nb && AllBanksFull(banks)
    ensures forall b :: 0 <= b < nb ==> banks[b] == image[b * BankSize..(b + 1) * BankSize]
    ensures Flatten(banks) == image[..nb * BankSize]
  {
    if nb == 0 then []
    else
      var init := SliceBanks(image, nb - 1);
      var banks := init + [image[(nb - 1) * BankSize..nb * BankSize]];
      assert banks[..nb - 1] == init;
      banks
  }

  /** An image of exactly nb banks is reproduced byte for byte by laying its banks end to end. */
  lemma ImageRoundTrip(image: seq<byte>, nb: nat)
    requires |image| == nb * BankSize
    ensures Flatten(SliceBanks(image, nb)) == image
  {
    assert image[..nb * BankSize] == image;
  }

  /** Cutting the concatenation of full banks gives the same banks back. */
  lemma {:induction false} BanksRoundTrip(banks: seq<seq<byte>>)
    requires AllBanksFull(banks)
    ensures |Flatten(banks)| == |banks| * BankSize
    ensures SliceBanks(Flatten(banks), |banks|) == banks
  {
    FlattenFullBanks(banks);
    var flat := Flatten(banks);
    var sliced := SliceBanks(flat, |banks|);
    forall b | 0 <= b < |banks|
      ensures sliced[b] == banks[b]
    {
      forall j | 0 <= j < BankSize
        ensures sliced[b][j] == banks[b][j]
      {
        assert sliced[b][j] == flat[b * BankSize + j];
      }
    }
  }

  /** The global checksum of a cartridge read from an image is the checksum of the image's bytes. */
  lemma GlobalChecksumOfSlicedImage(image: seq<byte>, nb: nat)
    requires |image| == nb * BankSize
    ensures GlobalChecksumOf(SliceBanks(image, nb)) == ChecksumSum(image) % 0x10000
  {
    ImageRoundTrip(image, nb);
  }

  /** Fills a slice of nb banks, bank b copied from bytes [b * 0x4000, (b + 1) * 0x4000) of the image. */
  method CutBanks(image: seq<byte>, nb: nat) returns (banks: seq<seq<byte>>)
    requires |image| >= nb * BankSize
    ensures banks == SliceBanks(image, nb)
  {
    var slots := new seq<byte>[nb];
    for b := 0 to nb
      invariant forall k :: 0 <= k < b ==> slots[k] == image[k * BankSize..(k + 1) * BankSize]
    {
      var start := b * BankSize;
      var end := start + BankSize;
      slots[b] := image[start..end];
    }
    banks := slots[..];
  }

  class FileROMReader {
    const fname: string
    var inmemfile: Option<seq<byte>>
    var header: Option<CartridgeHeader>

    /** A cached header is the decoding of the first 0x150 bytes of the cached image. */
    ghost predicate Valid()
      reads this
    {
      header.Some? ==>
        && inmemfile.Some?
        && |inmemfile.value| >= HeaderSize
        && header.value == ROMHeaderFromBytes(inmemfile.value[..HeaderSize])
    }

    /** The image once loaded: the cached one if any, otherwise what the file gives. */
    ghost function ImageAfterLoad(file: LoadOutcome): Option<seq<byte>>
      reads this
    {
      if inmemfile.Some? then inmemfile
      else if file.Loaded? then Some(file.bytes)
      else None
    }

    /** The source slices the image's first 0x150 bytes without checking its length. */
    ghost predicate HeaderFits(file: LoadOutcome)
      reads this
    {
      ImageAfterLoad(file).Some? ==> |ImageAfterLoad(file).value| >= HeaderSize
    }

    /** The source slices GetNumROMBanks() banks out of the image without checking its length. */
    ghost predicate BanksFit(file: LoadOutcome)
      reads this
    {
      ImageAfterLoad(file).Some? ==>
        var image := ImageAfterLoad(file).value;
        |image| >= HeaderSize && |image| >= GetNumROMBanks(ROMHeaderFromBytes(image[..HeaderSize])) * BankSize
    }

    /** A reader of the named file with nothing loaded or decoded yet. */
    constructor (fname: string)
      ensures Valid()
      ensures this.fname == fname && inmemfile == None && header == None
    {
      this.fname := fname;
      inmemfile := None;
      header := None;
    }

    /** Loads the file only while no image is cached; a load error is returned and nothing is cached. */
    method LoadROMInMemory(file: LoadOutcome) returns (err: Option<string>)
      requires Valid()
      modifies this
      ensures Valid()
      ensures inmemfile == old(ImageAfterLoad(file)) && header == old(header)
      ensures err == if old(inmemfile).None? && file.LoadFailed? then Some(file.reason) else None
    {
      err := None;
      if inmemfile == None {
        match file
        case Loaded(bytes) =>
          inmemfile := Some(bytes);
        case LoadFailed(reason) =>
          err := Some(reason);
      }
    }

    /**
     * Returns the header decoded from the image's first 0x150 bytes. The
     * first successful call decodes it and caches it; later calls return the
     * cached header without decoding again.
     */
    method ReadHeader(file: LoadOutcome) returns (r: Result<CartridgeHeader, ReaderError>)
      requires Valid() && HeaderFits(file)
      modifies this
      ensures Valid()
      ensures inmemfile == old(ImageAfterLoad(file))
      ensures r.Failure? <==> inmemfile.None?
      ensures r.Failure? ==>
        old(inmemfile).None? && file.LoadFailed? && r.error == ReadingCartridgeHeader(file.reason)
        && header == old(header)
      ensures r.Success? ==>
        r.value == ROMHeaderFromBytes(inmemfile.value[..HeaderSize]) && header == Some(r.value)
      ensures old(header).Some? ==> r == Success(old(header).value) && header == old(header)
    {
      var err := LoadROMInMemory(file);
      if err.Some? {
        return Failure(ReadingCartridgeHeader(err.value));
      }
      if header.Some? {
        return Success(header.value);
      }
      var bytes := inmemfile.value[..HeaderSize];
      header := Some(ROMHeaderFromBytes(bytes));
      r := Success(header.value);
    }

    /**
     * Reads the header, then cuts GetNumROMBanks() banks of 0x4000 bytes out
     * of the image in order. A header error is returned unchanged with no
     * cartridge; an unknown ROM size code gives a cartridge with no banks.
     */
    method ReadCartridge(file: LoadOutcome) returns (r: Result<Cartridge, ReaderError>)
      requires Valid() && BanksFit(file)
      modifies this
      ensures Valid()
      ensures inmemfile == old(ImageAfterLoad(file))
      ensures r.Failure? <==> inmemfile.None?
      ensures r.Failure? ==> old(inmemfile).None? && file.LoadFailed? && r.error == ReadingCartridgeHeader(file.reason)
      ensures r.Success? ==>
        var image := inmemfile.value;
        var h := ROMHeaderFromBytes(image[..HeaderSize]);
        && header == Some(h)
        && r.value == NewCartridge(h, SliceBanks(image, GetNumROMBanks(h)))
    {
      var hr := ReadHeader(file);
      if hr.Failure? {
        return Failure(hr.error);
      }
      var h := hr.value;
      var image := inmemfile.value;
      var banks := CutBanks(image, GetNumROMBanks(h));
      r := Success(NewCartridge(h, banks));
    }
  }
}

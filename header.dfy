/**
 * The Game Boy cartridge header: the fixed byte layout of addresses
 * 0x0104-0x014F of every ROM image, the classification of the
 * cartridge-type byte, the ROM/RAM geometry tables and the 8-bit header
 * checksum (cartridge/header.go).
 */
module Header {
  import opened Common

  // Cartridge-type codes (byte 0x147)
  const RomOnly: byte := 0x00
  const MBC1: byte := 0x01
  const MBC1RAM: byte := 0x02
  const MBC1RAMBattery: byte := 0x03
  const MBC2: byte := 0x05
  const MBC2Battery: byte := 0x06
  const ROMRAM: byte := 0x08
  const ROMRAMBattery: byte := 0x09
  const MMM01: byte := 0x0B
  const MMM01RAM: byte := 0x0C
  const MMM01RAMBattery: byte := 0x0D
  const MBC3TimerBattery: byte := 0x0F
  const MBC3TimerRAMBattery: byte := 0x10
  const MBC3: byte := 0x11
  const MBC3RAM: byte := 0x12
  const MBC3RAMBattery: byte := 0x13
  const MBC5: byte := 0x19
  const MBC5RAM: byte := 0x1A
  const MBC5RAMBattery: byte := 0x1B
  const MBC5Rumble: byte := 0x1C
  const MBC5RumbleRAM: byte := 0x1D
  const MBC5RumbleRAMBattery: byte := 0x1E
  const MBC6: byte := 0x20
  const MBC7SensorRumbleRAMBattery: byte := 0x22
  const PocketCamera: byte := 0xFC
  const BandaiTAMA5: byte := 0xFD
  const HuC3: byte := 0xFE
  const HuC1RAMBattery: byte := 0xFF

  // ROM size codes (byte 0x148)
  const ROM32KB: byte := 0x00
  const ROM64KB: byte := 0x01
  const ROM128KB: byte := 0x02
  const ROM256KB: byte := 0x03
  const ROM512KB: byte := 0x04
  const ROM1MB: byte := 0x05
  const ROM2MB: byte := 0x06
  const ROM4MB: byte := 0x07
  const ROM8MB: byte := 0x08

  // RAM size codes (byte 0x149); the source calls the first two `None` and `Unused`
  const RAMNone: byte := 0x00
  const RAMUnused: byte := 0x01
  const RAM8KB: byte := 0x02
  const RAM32KB: byte := 0x03
  const RAM128KB: byte := 0x04
  const RAM64KB: byte := 0x05

  /** Number of bytes the decoder reads: addresses 0x0000-0x014F. */
  const HeaderSize: nat := 0x150

  /**
   * The decoded header. `rawBytes` is the window it was decoded from; the
   * slice fields are copies of that window's bytes (in the source they
   * alias it, which no code here can observe since nothing writes them).
   */
  datatype CartridgeHeader = CartridgeHeader(
    rawBytes: seq<byte>,
    nintendoLogo: seq<byte>,
    title: seq<byte>,
    manufacturerCode: seq<byte>,
    cgbFlag: byte,
    licenseeCode: seq<byte>,
    sgbFlag: byte,
    cartridgeType: byte,
    romSize: byte,
    ramSize: byte,
    destinationCode: byte,
    oldLicenseeCode: byte,
    maskRomVersion: byte,
    headerChecksum: byte,
    globalChecksum: seq<byte>)

  /**
   * Decodes the header fields at their fixed offsets. The manufacturer code
   * overlaps the last bytes of the title and the CGB flag is the title's last
   * byte, as in the cartridge format; the new-licensee code is one byte only.
   */
  function ROMHeaderFromBytes(bytes: seq<byte>): (h: CartridgeHeader)
    requires |bytes| >= HeaderSize
    ensures h.rawBytes == bytes
    ensures |h.nintendoLogo| == 48 && forall i :: 0 <= i < 48 ==> h.nintendoLogo[i] == bytes[0x104 + i]
    ensures |h.title| == 16 && forall i :: 0 <= i < 16 ==> h.title[i] == bytes[0x134 + i]
    ensures h.manufacturerCode == h.title[11..15] && h.cgbFlag == h.title[15]
    ensures h.licenseeCode == [bytes[0x144]]
    ensures h.sgbFlag == bytes[0x146] && h.cartridgeType == bytes[0x147]
    ensures h.romSize == bytes[0x148] && h.ramSize == bytes[0x149]
    ensures h.destinationCode == bytes[0x14A] && h.oldLicenseeCode == bytes[0x14B]
    ensures h.maskRomVersion == bytes[0x14C] && h.headerChecksum == bytes[0x14D]
    ensures h.globalChecksum == [bytes[0x14E], bytes[0x14F]]
  {
    CartridgeHeader(
      rawBytes := bytes,
      nintendoLogo := bytes[0x104..0x134],
      title := bytes[0x134..0x144],
      manufacturerCode := bytes[0x13F..0x143],
      cgbFlag := bytes[0x143],
      licenseeCode := bytes[0x144..0x145],
      sgbFlag := bytes[0x146],
      cartridgeType := bytes[0x147],
      romSize := bytes[0x148],
      ramSize := bytes[0x149],
      destinationCode := bytes[0x14A],
      oldLicenseeCode := bytes[0x14B],
      maskRomVersion := bytes[0x14C],
      headerChecksum := bytes[0x14D],
      globalChecksum := bytes[0x14E..0x150])
  }

  /**
   * Re-assembling the fields reproduces the window 0x104..0x150 except for
   * byte 0x145, the second byte of the new-licensee code, which no field holds.
   */
  lemma HeaderFieldsCoverWindow(bytes: seq<byte>)
    requires |bytes| >= HeaderSize
    ensures var h := ROMHeaderFromBytes(bytes);
      bytes[0x104..HeaderSize]
      == h.nintendoLogo + h.title + h.licenseeCode + [bytes[0x145]]
         + [h.sgbFlag, h.cartridgeType, h.romSize, h.ramSize, h.destinationCode,
            h.oldLicenseeCode, h.maskRomVersion, h.headerChecksum]
         + h.globalChecksum
  {
    var h := ROMHeaderFromBytes(bytes);
    var whole := h.nintendoLogo + h.title + h.licenseeCode + [bytes[0x145]]
         + [h.sgbFlag, h.cartridgeType, h.romSize, h.ramSize, h.destinationCode,
            h.oldLicenseeCode, h.maskRomVersion, h.headerChecksum]
         + h.globalChecksum;
    assert |whole| == 0x4C;
    forall i | 0 <= i < 0x4C
      ensures whole[i] == bytes[0x104 + i]
    {
      if i < 48 {
      } else if i < 64 {
        assert whole[i] == h.title[i - 48];
      } else if i < 66 {
      } else if i < 74 {
      } else {
        assert whole[i] == h.globalChecksum[i - 74];
      }
    }
  }

  /** Every decoded field is a function of the window 0x104..0x150 alone. */
  lemma DecodeDependsOnlyOnWindow(a: seq<byte>, b: seq<byte>)
    requires |a| >= HeaderSize && |b| >= HeaderSize
    requires a[0x104..HeaderSize] == b[0x104..HeaderSize]
    ensures ROMHeaderFromBytes(a).(rawBytes := []) == ROMHeaderFromBytes(b).(rawBytes := [])
  {
    HeaderFieldsCoverWindow(a);
    HeaderFieldsCoverWindow(b);
    var ha, hb := ROMHeaderFromBytes(a), ROMHeaderFromBytes(b);
    assert ha.nintendoLogo == a[0x104..0x134] == a[0x104..HeaderSize][..48];
    assert hb.nintendoLogo == b[0x104..0x134] == b[0x104..HeaderSize][..48];
    assert ha.title == a[0x104..HeaderSize][48..64];
    assert hb.title == b[0x104..HeaderSize][48..64];
    assert ha.globalChecksum == a[0x104..HeaderSize][74..];
    assert hb.globalChecksum == b[0x104..HeaderSize][74..];
    forall i | 0x104 <= i < HeaderSize
      ensures a[i] == b[i]
    {
      assert a[i] == a[0x104..HeaderSize][i - 0x104];
    }
  }

  // ---------------------------------------------------------------------
  // Classification of the cartridge-type byte

  /** The cartridge runs only on a Game Boy Color. */
  predicate IsGBCOnly(h: CartridgeHeader) {
    h.cgbFlag == 0xC0
  }

  /** The cartridge supports Super Game Boy functions. */
  predicate SupportsSGB(h: CartridgeHeader) {
    h.sgbFlag == 0x03
  }

  /**
   * Both flags are read from single header bytes; the Game Boy Color flag
   * is also the last byte of the title, which it overlaps.
   */
  lemma FlagsOfDecodedHeader(bytes: seq<byte>)
    requires |bytes| >= HeaderSize
    ensures IsGBCOnly(ROMHeaderFromBytes(bytes)) <==> bytes[0x143] == 0xC0
    ensures IsGBCOnly(ROMHeaderFromBytes(bytes)) <==> ROMHeaderFromBytes(bytes).title[15] == 0xC0
    ensures SupportsSGB(ROMHeaderFromBytes(bytes)) <==> bytes[0x146] == 0x03
  {
  }

  /** Every code except the three plain-ROM codes counts as having a memory bank controller. */
  predicate HasMBC(h: CartridgeHeader) {
    h.cartridgeType != RomOnly && h.cartridgeType != ROMRAM && h.cartridgeType != ROMRAMBattery
  }

  predicate IsMBC1(h: CartridgeHeader) {
    h.cartridgeType in {MBC1, MBC1RAM, MBC1RAMBattery}
  }

  predicate IsMBC2(h: CartridgeHeader) {
    h.cartridgeType in {MBC2, MBC2Battery}
  }

  predicate IsMBC3(h: CartridgeHeader) {
    h.cartridgeType in {MBC3, MBC3RAM, MBC3RAMBattery, MBC3TimerBattery, MBC3TimerRAMBattery}
  }

  predicate IsMBC5(h: CartridgeHeader) {
    h.cartridgeType in {MBC5, MBC5RAM, MBC5RAMBattery, MBC5Rumble, MBC5RumbleRAM, MBC5RumbleRAMBattery}
  }

  predicate HasBattery(h: CartridgeHeader) {
    h.cartridgeType in {MBC1RAMBattery, MBC2Battery, ROMRAMBattery, MMM01RAMBattery, MBC3TimerBattery,
                        MBC3TimerRAMBattery, MBC3RAMBattery, MBC5RAMBattery, MBC5RumbleRAMBattery,
                        MBC7SensorRumbleRAMBattery, HuC1RAMBattery}
  }

  /**
   * The RAM membership test exactly as the source lists it: it leaves out
   * MBC3TimerRAMBattery (0x10) and MBC5RAM (0x1A).
   */
  predicate HasRAM(h: CartridgeHeader) {
    h.cartridgeType in {MBC1RAMBattery, MBC1RAM, ROMRAM, ROMRAMBattery, MMM01RAM, MMM01RAMBattery,
                        MBC3RAMBattery, MBC3RAM, MBC5RumbleRAMBattery, MBC7SensorRumbleRAMBattery,
                        HuC1RAMBattery, MBC5RAMBattery, MBC5RumbleRAM}
  }

  /** The RAM membership test with every code whose name says RAM, 0x10 and 0x1A included. */
  predicate HasRAMCorrected(h: CartridgeHeader) {
    HasRAM(h) || h.cartridgeType == MBC3TimerRAMBattery || h.cartridgeType == MBC5RAM
  }

  /** The controller family a cartridge-type name begins with. */
  datatype Family =
    | NoController | FamilyMBC1 | FamilyMBC2 | FamilyMMM01 | FamilyMBC3 | FamilyMBC5
    | FamilyMBC6 | FamilyMBC7 | FamilyPocketCamera | FamilyTAMA5 | FamilyHuC3 | FamilyHuC1

  /** What a cartridge-type name says: its family, and whether it mentions RAM and a battery. */
  datatype TypeInfo = TypeInfo(family: Family, ram: bool, battery: bool)

  /**
   * The cartridge-type codes read from their names, independently of the
   * membership tests above (e.g. MBC5RAMBattery is MBC5 with RAM and a battery).
   */
  const TypeNames: map<byte, TypeInfo> := map[
    RomOnly := TypeInfo(NoController, false, false),
    MBC1 := TypeInfo(FamilyMBC1, false, false),
    MBC1RAM := TypeInfo(FamilyMBC1, true, false),
    MBC1RAMBattery := TypeInfo(FamilyMBC1, true, true),
    MBC2 := TypeInfo(FamilyMBC2, false, false),
    MBC2Battery := TypeInfo(FamilyMBC2, false, true),
    ROMRAM := TypeInfo(NoController, true, false),
    ROMRAMBattery := TypeInfo(NoController, true, true),
    MMM01 := TypeInfo(FamilyMMM01, false, false),
    MMM01RAM := TypeInfo(FamilyMMM01, true, false),
    MMM01RAMBattery := TypeInfo(FamilyMMM01, true, true),
    MBC3TimerBattery := TypeInfo(FamilyMBC3, false, true),
    MBC3TimerRAMBattery := TypeInfo(FamilyMBC3, true, true),
    MBC3 := TypeInfo(FamilyMBC3, false, false),
    MBC3RAM := TypeInfo(FamilyMBC3, true, false),
    MBC3RAMBattery := TypeInfo(FamilyMBC3, true, true),
    MBC5 := TypeInfo(FamilyMBC5, false, false),
    MBC5RAM := TypeInfo(FamilyMBC5, true, false),
    MBC5RAMBattery := TypeInfo(FamilyMBC5, true, true),
    MBC5Rumble := TypeInfo(FamilyMBC5, false, false),
    MBC5RumbleRAM := TypeInfo(FamilyMBC5, true, false),
    MBC5RumbleRAMBattery := TypeInfo(FamilyMBC5, true, true),
    MBC6 := TypeInfo(FamilyMBC6, false, false),
    MBC7SensorRumbleRAMBattery := TypeInfo(FamilyMBC7, true, true),
    PocketCamera := TypeInfo(FamilyPocketCamera, false, false),
    BandaiTAMA5 := TypeInfo(FamilyTAMA5, false, false),
    HuC3 := TypeInfo(FamilyHuC3, false, false),
    HuC1RAMBattery := TypeInfo(FamilyHuC1, true, true)
  ]

  /** HasMBC is false exactly for the codes 0x00, 0x08 and 0x09. */
  lemma HasMBCExactly(h: CartridgeHeader)
    ensures !HasMBC(h) <==> h.cartridgeType in {0x00, 0x08, 0x09}
  {
  }

  /** The four controller tests pick disjoint code sets, each inside HasMBC. */
  lemma MBCFamiliesDisjoint(h: CartridgeHeader)
    ensures IsMBC1(h) ==> HasMBC(h) && !IsMBC2(h) && !IsMBC3(h) && !IsMBC5(h)
    ensures IsMBC2(h) ==> HasMBC(h) && !IsMBC3(h) && !IsMBC5(h)
    ensures IsMBC3(h) ==> HasMBC(h) && !IsMBC5(h)
    ensures IsMBC5(h) ==> HasMBC(h)
  {
  }

  /** The family tests agree with the family named by each known code. */
  lemma FamiliesMatchTypeNames(h: CartridgeHeader)
    requires h.cartridgeType in TypeNames
    ensures HasMBC(h) <==> TypeNames[h.cartridgeType].family != NoController
    ensures IsMBC1(h) <==> TypeNames[h.cartridgeType].family == FamilyMBC1
    ensures IsMBC2(h) <==> TypeNames[h.cartridgeType].family == FamilyMBC2
    ensures IsMBC3(h) <==> TypeNames[h.cartridgeType].family == FamilyMBC3
    ensures IsMBC5(h) <==> TypeNames[h.cartridgeType].family == FamilyMBC5
  {
    ControllerAndMBC1MatchNames(h);
    LaterFamiliesMatchNames(h);
  }

  lemma ControllerAndMBC1MatchNames(h: CartridgeHeader)
    requires h.cartridgeType in TypeNames
    ensures HasMBC(h) <==> TypeNames[h.cartridgeType].family != NoController
    ensures IsMBC1(h) <==> TypeNames[h.cartridgeType].family == FamilyMBC1
  {
  }

  lemma LaterFamiliesMatchNames(h: CartridgeHeader)
    requires h.cartridgeType in TypeNames
    ensures IsMBC2(h) <==> TypeNames[h.cartridgeType].family == FamilyMBC2
    ensures IsMBC3(h) <==> TypeNames[h.cartridgeType].family == FamilyMBC3
    ensures IsMBC5(h) <==> TypeNames[h.cartridgeType].family == FamilyMBC5
  {
  }

  /** The battery test holds exactly for the codes whose name mentions a battery. */
  lemma HasBatteryMatchesTypeNames(h: CartridgeHeader)
    ensures HasBattery(h) <==> h.cartridgeType in TypeNames && TypeNames[h.cartridgeType].battery
  {
  }

  /** The corrected RAM test holds exactly for the codes whose name mentions RAM. */
  lemma HasRAMCorrectedMatchesTypeNames(h: CartridgeHeader)
    ensures HasRAMCorrected(h) <==> h.cartridgeType in TypeNames && TypeNames[h.cartridgeType].ram
  {
  }

  /**
   * The source's RAM test disagrees with the code names on exactly two codes:
   * MBC3TimerRAMBattery (0x10) and MBC5RAM (0x1A) name RAM but fail the test.
   */
  lemma HasRAMMissesTwoCodes(h: CartridgeHeader)
    ensures HasRAM(h) != HasRAMCorrected(h) <==> h.cartridgeType in {MBC3TimerRAMBattery, MBC5RAM}
    ensures h.cartridgeType in {MBC3TimerRAMBattery, MBC5RAM} ==>
      !HasRAM(h) && TypeNames[h.cartridgeType].ram
    ensures h.cartridgeType !in {MBC3TimerRAMBattery, MBC5RAM} ==>
      (HasRAM(h) <==> h.cartridgeType in TypeNames && TypeNames[h.cartridgeType].ram)
  {
  }

  /** RAM and battery are independent capabilities, as the four sample codes show. */
  lemma RAMAndBatteryIndependent(h: CartridgeHeader)
    ensures h.cartridgeType == 0x0F ==> !HasRAM(h) && HasBattery(h)
    ensures h.cartridgeType == 0x1D ==> HasRAM(h) && !HasBattery(h)
    ensures h.cartridgeType == 0x1B ==> HasRAM(h) && HasBattery(h)
    ensures h.cartridgeType == 0x00 ==> !HasRAM(h) && !HasBattery(h)
  {
  }

  // ---------------------------------------------------------------------
  // The human-readable cartridge type

  /** The name of the controller family; empty for a controller none of the tests names. */
  function FamilyText(h: CartridgeHeader): string {
    if !HasMBC(h) then "ROM (no MBC)"
    else if IsMBC1(h) then "MBC1"
    else if IsMBC2(h) then "MBC2"
    else if IsMBC3(h) then "MBC3"
    else if IsMBC5(h) then "MBC5"
    else ""
  }

  function RAMSuffix(ram: bool): string {
    if ram then " + RAM" else ""
  }

  function BatterySuffix(h: CartridgeHeader): string {
    if HasBattery(h) then " + Battery" else ""
  }

  function GBCSuffix(h: CartridgeHeader): string {
    if IsGBCOnly(h) then " (GBC Only)" else ""
  }

  /** A description: the family, then the RAM, battery and GBC-only remarks in that order. */
  function Describe(h: CartridgeHeader, ram: bool): string {
    FamilyText(h) + RAMSuffix(ram) + BatterySuffix(h) + GBCSuffix(h)
  }

  /** The description the source prints, its RAM remark decided by the source's list. */
  function TypeText(h: CartridgeHeader): string {
    Describe(h, HasRAM(h))
  }

  /** The description with the RAM remark for every code whose name says RAM. */
  function CorrectedTypeText(h: CartridgeHeader): string {
    Describe(h, HasRAMCorrected(h))
  }

  /** Builds the description by successive appends, as the source does. */
  method CartridgeTypeText(h: CartridgeHeader) returns (msg: string)
    ensures msg == TypeText(h)
  {
    if !HasMBC(h) {
      msg := "ROM (no MBC)";
    } else if IsMBC1(h) {
      msg := "MBC1";
    } else if IsMBC2(h) {
      msg := "MBC2";
    } else if IsMBC3(h) {
      msg := "MBC3";
    } else if IsMBC5(h) {
      msg := "MBC5";
    } else {
      msg := "";
    }
    if HasRAM(h) {
      msg := msg + " + RAM";
    }
    if HasBattery(h) {
      msg := msg + " + Battery";
    }
    if IsGBCOnly(h) {
      msg := msg + " (GBC Only)";
    }
  }

  /** What a description says, read back from its text. */
  datatype TypeTextParts = TypeTextParts(family: string, ram: bool, battery: bool, gbcOnly: bool)

  predicate EndsWith(s: string, suffix: string) {
    |suffix| <= |s| && s[|s| - |suffix|..] == suffix
  }

  function StripSuffix(s: string, suffix: string): (string, bool) {
    if EndsWith(s, suffix) then (s[..|s| - |suffix|], true) else (s, false)
  }

  /** Reads a description back, removing the remarks from the end in reverse order. */
  function ParseTypeText(s: string): TypeTextParts {
    var (s1, gbc) := StripSuffix(s, " (GBC Only)");
    var (s2, battery) := StripSuffix(s1, " + Battery");
    var (s3, ram) := StripSuffix(s2, " + RAM");
    TypeTextParts(s3, ram, battery, gbc)
  }

  lemma StripAppended(s: string, suffix: string)
    ensures StripSuffix(s + suffix, suffix) == (s, true)
  {
    assert (s + suffix)[|s|..] == suffix;
    assert (s + suffix)[..|s|] == s;
  }

  lemma NotEndsWithByLast(s: string, suffix: string)
    requires suffix != []
    requires s == [] || s[|s| - 1] != suffix[|suffix| - 1]
    ensures !EndsWith(s, suffix)
  {
  }

  /**
   * The description determines the capabilities it reports: reading it back
   * recovers the family text and the RAM, battery and GBC-only flags, for
   * the source's description and for the corrected one.
   */
  lemma {:induction false} TypeTextRoundTrip(h: CartridgeHeader)
    ensures ParseTypeText(TypeText(h))
            == TypeTextParts(FamilyText(h), HasRAM(h), HasBattery(h), IsGBCOnly(h))
    ensures ParseTypeText(CorrectedTypeText(h))
            == TypeTextParts(FamilyText(h), HasRAMCorrected(h), HasBattery(h), IsGBCOnly(h))
  {
    DescribeRoundTrip(h, HasRAM(h));
    DescribeRoundTrip(h, HasRAMCorrected(h));
  }

  /**
   * The source's description and the corrected one differ exactly for the
   * two codes the source's RAM list misses, 0x10 and 0x1A.
   */
  lemma {:induction false} TypeTextsDifferOnTwoCodes(h: CartridgeHeader)
    ensures TypeText(h) != CorrectedTypeText(h) <==> h.cartridgeType in {MBC3TimerRAMBattery, MBC5RAM}
  {
    TypeTextRoundTrip(h);
    HasRAMMissesTwoCodes(h);
  }

  lemma {:induction false} DescribeRoundTrip(h: CartridgeHeader, ram: bool)
    ensures ParseTypeText(Describe(h, ram))
            == TypeTextParts(FamilyText(h), ram, HasBattery(h), IsGBCOnly(h))
  {
    var f, r, b, g := FamilyText(h), RAMSuffix(ram), BatterySuffix(h), GBCSuffix(h);
    var frb := f + r + b;
    // the GBC-only remark
    if IsGBCOnly(h) {
      StripAppended(frb, g);
    } else {
      assert frb + g == frb;
      NoGBCRemark(f, r, b);
    }
    // the battery remark
    if HasBattery(h) {
      StripAppended(f + r, b);
    } else {
      assert f + r + b == f + r;
      NoBatteryRemark(f, r);
    }
    // the RAM remark
    if ram {
      StripAppended(f, r);
    } else {
      assert f + r == f;
      NoRAMRemark(f);
    }
  }

  lemma NoGBCRemark(f: string, r: string, b: string)
    requires f in {"ROM (no MBC)", "MBC1", "MBC2", "MBC3", "MBC5", ""}
    requires r in {" + RAM", ""} && b in {" + Battery", ""}
    ensures !EndsWith(f + r + b, " (GBC Only)")
  {
    var s := f + r + b;
    if b != "" {
      assert s[|s| - 1] == 'y';
      NotEndsWithByLast(s, " (GBC Only)");
    } else if r != "" {
      assert s[|s| - 1] == 'M';
      NotEndsWithByLast(s, " (GBC Only)");
    } else if f == "ROM (no MBC)" {
      assert s == f;
      assert s[1] != " (GBC Only)"[0];
    } else {
      assert s == f;
      NotEndsWithByLast(s, " (GBC Only)");
    }
  }

  lemma NoBatteryRemark(f: string, r: string)
    requires f in {"ROM (no MBC)", "MBC1", "MBC2", "MBC3", "MBC5", ""}
    requires r in {" + RAM", ""}
    ensures !EndsWith(f + r, " + Battery")
  {
    var s := f + r;
    if r != "" {
      assert s[|s| - 1] == 'M';
    } else {
      assert s == f;
    }
    NotEndsWithByLast(s, " + Battery");
  }

  lemma NoRAMRemark(f: string)
    requires f in {"ROM (no MBC)", "MBC1", "MBC2", "MBC3", "MBC5", ""}
    ensures !EndsWith(f, " + RAM")
  {
    NotEndsWithByLast(f, " + RAM");
  }

  /** The descriptions of the sample codes. */
  lemma TypeTextExamples(h: CartridgeHeader)
    requires !IsGBCOnly(h)
    ensures h.cartridgeType == 0x1B ==> TypeText(h) == "MBC5 + RAM + Battery"
    ensures h.cartridgeType == 0x00 ==> TypeText(h) == "ROM (no MBC)"
    ensures h.cartridgeType == 0x0F ==> TypeText(h) == "MBC3 + Battery"
    ensures h.cartridgeType == 0xFF ==> TypeText(h) == " + RAM + Battery"
  {
  }

  /** For the two codes the source's RAM list misses, its description drops the RAM remark. */
  lemma MissedRAMCodesTypeText(h: CartridgeHeader)
    requires !IsGBCOnly(h)
    ensures h.cartridgeType == 0x1A ==> TypeText(h) == "MBC5" && CorrectedTypeText(h) == "MBC5 + RAM"
    ensures h.cartridgeType == 0x10 ==> TypeText(h) == "MBC3 + Battery" && CorrectedTypeText(h) == "MBC3 + RAM + Battery"
  {
    if h.cartridgeType == 0x1A {
      assert FamilyText(h) == "MBC5" && !HasRAM(h) && HasRAMCorrected(h) && !HasBattery(h);
      assert TypeText(h) == "MBC5" + "" + "" + "";
      assert CorrectedTypeText(h) == "MBC5" + " + RAM" + "" + "";
    } else if h.cartridgeType == 0x10 {
      assert FamilyText(h) == "MBC3" && !HasRAM(h) && HasRAMCorrected(h) && HasBattery(h);
      assert TypeText(h) == "MBC3" + "" + " + Battery" + "";
      assert CorrectedTypeText(h) == "MBC3" + " + RAM" + " + Battery" + "";
    }
  }

  // ---------------------------------------------------------------------
  // Geometry

  /** Size in KiB a ROM size code names (ROM32KB, ROM64KB, ...). */
  function ROMSizeKiB(code: byte): nat
    requires code <= ROM8MB
  {
    32 * Pow2(code)
  }

  /**
   * ROM banks of 16 KiB: `2 << code` for the nine known codes, and the
   * Go map zero value 0 for any other code.
   */
  function GetNumROMBanks(h: CartridgeHeader): (n: nat)
    ensures h.romSize <= ROM8MB ==> n == Pow2(h.romSize + 1) && n * 16 == ROMSizeKiB(h.romSize)
    ensures h.romSize > ROM8MB ==> n == 0
  {
    var table := map[ROM32KB := 2, ROM64KB := 4, ROM128KB := 8, ROM256KB := 16, ROM512KB := 32,
                     ROM1MB := 64, ROM2MB := 128, ROM4MB := 256, ROM8MB := 512];
    if h.romSize in table then table[h.romSize] else 0
  }

  /** Size in KiB a RAM size code names; the unused code 0x01 names none. */
  function RAMSizeKiB(code: byte): nat
    requires code <= RAM64KB
  {
    match code
    case 0x00 => 0
    case 0x01 => 0
    case 0x02 => 8
    case 0x03 => 32
    case 0x04 => 128
    case 0x05 => 64
  }

  /** RAM banks of 8 KiB for the six known codes; 0 for any other code. */
  function GetNumRAMBanks(h: CartridgeHeader): (n: nat)
    ensures h.ramSize <= RAM64KB ==> n * 8 == RAMSizeKiB(h.ramSize)
    ensures h.ramSize > RAM64KB ==> n == 0
  {
    var table := map[RAMNone := 0, RAMUnused := 0, RAM8KB := 1, RAM32KB := 4, RAM64KB := 8, RAM128KB := 16];
    if h.ramSize in table then table[h.ramSize] else 0
  }

  /** The RAM bank count is not monotone in the code: 0x04 gives more banks than 0x05. */
  lemma RAMBanksNotMonotone(h4: CartridgeHeader, h5: CartridgeHeader)
    requires h4.ramSize == RAM128KB && h5.ramSize == RAM64KB
    ensures GetNumRAMBanks(h4) == 16 && GetNumRAMBanks(h5) == 8
  {
  }

  // ---------------------------------------------------------------------
  // Header checksum

  /** First byte after the checksummed range 0x134..0x14C. */
  const ChecksumEnd: nat := 0x14D

  /** One step of the checksum recurrence, x - b - 1 modulo 256. */
  function ChecksumStep(x: byte, b: byte): byte {
    (x - b - 1) % 256
  }

  function SumBytes(s: seq<byte>): nat {
    if s == [] then 0 else SumBytes(s[..|s| - 1]) + s[|s| - 1]
  }

  /**
   * The recurrence folded from 0 over s. Its closed form: minus the byte sum
   * minus the number of bytes, modulo 256.
   */
  function HeaderChecksumOf(s: seq<byte>): (x: byte)
    ensures x == (0 - SumBytes(s) - |s|) % 256
  {
    if s == [] then 0
    else
      var prev := HeaderChecksumOf(s[..|s| - 1]);
      ModSubtract(0 - SumBytes(s[..|s| - 1]) - (|s| - 1), s[|s| - 1] as int + 1);
      ChecksumStep(prev, s[|s| - 1])
  }

  /** Subtracting after reducing modulo 256 is subtracting before. */
  lemma ModSubtract(a: int, c: int)
    ensures (a % 256 - c) % 256 == (a - c) % 256
  {
    var k := a / 256;
    assert a == 256 * k + a % 256;
    DivModUnique(a - c, 256, (a - c) / 256, (a - c) % 256);
    var q := (a % 256 - c) / 256;
    assert a % 256 - c == 256 * q + (a % 256 - c) % 256;
    DivModUnique(a - c, 256, q + k, (a % 256 - c) % 256);
  }

  /** The header checksum byte matches the bytes 0x134..0x14C of the raw window. */
  predicate HeaderChecksumValid(h: CartridgeHeader) {
    |h.rawBytes| >= ChecksumEnd && HeaderChecksumOf(h.rawBytes[0x134..ChecksumEnd]) == h.headerChecksum
  }

  datatype HeaderError = InvalidHeaderChecksum

  /** Recomputes the header checksum from the raw bytes and compares it with byte 0x14D. */
  method Validate(h: CartridgeHeader) returns (r: Outcome<HeaderError>)
    requires |h.rawBytes| >= ChecksumEnd
    ensures r == Pass <==> HeaderChecksumValid(h)
    ensures r != Pass ==> r == Fail(InvalidHeaderChecksum)
  {
    var x: byte := 0;
    for i := 0x134 to ChecksumEnd
      invariant x == HeaderChecksumOf(h.rawBytes[0x134..i])
    {
      assert h.rawBytes[0x134..i + 1][..i - 0x134] == h.rawBytes[0x134..i];
      x := (x - h.rawBytes[i] - 1) % 256;
    }
    if x == h.headerChecksum {
      r := Pass;
    } else {
      r := Fail(InvalidHeaderChecksum);
    }
  }

  /** Replacing one byte changes the sum by the difference of the two bytes. */
  lemma {:induction false} SumBytesUpdate(s: seq<byte>, k: nat, v: byte)
    requires k < |s|
    ensures SumBytes(s[k := v]) == SumBytes(s) - s[k] + v
  {
    var t := s[k := v];
    if k == |s| - 1 {
      assert t[..|t| - 1] == s[..|s| - 1];
    } else {
      assert t[..|t| - 1] == s[..|s| - 1][k := v];
      SumBytesUpdate(s[..|s| - 1], k, v);
    }
  }

  /** Whether a header validates depends only on the bytes 0x134..0x14D of its window. */
  lemma HeaderChecksumOnlyReadsRange(a: seq<byte>, b: seq<byte>)
    requires |a| >= HeaderSize && |b| >= HeaderSize
    requires a[0x134..0x14E] == b[0x134..0x14E]
    ensures HeaderChecksumValid(ROMHeaderFromBytes(a)) == HeaderChecksumValid(ROMHeaderFromBytes(b))
  {
    assert a[0x134..ChecksumEnd] == a[0x134..0x14E][..0x19];
    assert b[0x134..ChecksumEnd] == b[0x134..0x14E][..0x19];
    assert a[0x14D] == a[0x134..0x14E][0x19];
    assert b[0x14D] == b[0x134..0x14E][0x19];
  }

  /**
   * The checksum detects every single-byte change: if a header validates,
   * changing any one byte of 0x134..0x14C makes it fail.
   */
  lemma HeaderChecksumDetectsSingleByteChange(bytes: seq<byte>, k: nat, v: byte)
    requires |bytes| >= HeaderSize && 0x134 <= k < ChecksumEnd && v != bytes[k]
    requires HeaderChecksumValid(ROMHeaderFromBytes(bytes))
    ensures !HeaderChecksumValid(ROMHeaderFromBytes(bytes[k := v]))
  {
    var s, t := bytes[0x134..ChecksumEnd], bytes[k := v][0x134..ChecksumEnd];
    assert t == s[k - 0x134 := v];
    SumBytesUpdate(s, k - 0x134, v);
    var d := v - bytes[k];
    assert SumBytes(t) == SumBytes(s) + d;
    assert -256 < d < 256 && d != 0;
    assert (0 - SumBytes(t) - |t|) % 256 != (0 - SumBytes(s) - |s|) % 256;
  }

  /** Writing the recomputed checksum into byte 0x14D always yields a valid header. */
  lemma SealedHeaderValidates(bytes: seq<byte>)
    requires |bytes| >= HeaderSize
    ensures HeaderChecksumValid(ROMHeaderFromBytes(bytes[0x14D := HeaderChecksumOf(bytes[0x134..ChecksumEnd])]))
  {
    var sealed := bytes[0x14D := HeaderChecksumOf(bytes[0x134..ChecksumEnd])];
    assert sealed[0x134..ChecksumEnd] == bytes[0x134..ChecksumEnd];
  }
}

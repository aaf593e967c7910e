# Game Boy cartridge dumper: verified model of the core

This project models, in Dafny, the core of a Game Boy cartridge dumper. The dumper is written in Go and has three parts.

- **Header decoding and classification** (`cartridge/header.go`). The header is a window of 0x150 bytes. It is cut into fields at fixed offsets:
  - the Nintendo logo;
  - the title, with the manufacturer code and the Game Boy Color flag overlapping its last five bytes;
  - the licensee codes;
  - the Super Game Boy flag;
  - the cartridge-type, ROM-size and RAM-size codes;
  - the 8-bit header checksum and the 16-bit global checksum.

  The cartridge-type byte is classified into memory-bank-controller families and into RAM and battery flags. The size codes map to bank counts. The header checksum is the recurrence `x = x - b - 1 (mod 256)` over bytes 0x134..0x14C.
- **The cartridge image** (`cartridge/cartridge.go`, `cartridge/readers.go`).
  - The file reader caches the loaded image and the decoded header.
  - It cuts the image into ROM banks of 0x4000 bytes.
  - A cartridge checks its 16-bit global checksum over all bank bytes. The sum skips flat offsets 0x14E and 0x14F.
  - Saving lays the banks end to end.
- **The bus protocol over GPIO pins** (`gbproxy/io.go`, `gbproxy/gbrpi.go`).
  - A Raspberry Pi drives 16 address pins, 8 data pins and the RD and WR strobes.
  - The pins are set up as bus master or as slave.
  - A byte is read by pulsing RD and sampling the data pins.
  - A byte is written by driving the data pins and pulsing WR.
  - An address is selected by spreading its bits over the address pins.

Module map:

- `common.dfy` (`Common`) holds bytes, the Go result conventions and powers of two with their bit lemmas.
- `header.dfy` (`Header`) holds the header decoder, the classifier, the size tables and the header checksum.
- `cartridge.dfy` (`Cartridges`) holds the cartridge, the global checksum and saving.
- `readers.dfy` (`Readers`) holds bank slicing and the caching `FileROMReader` class.
- `io.dfy` (`PinIO`) holds the abstract pin class and `WriteToPins`.
- `gbrpi.dfy` (`RPiProxy`) holds the `RPiGameBoyProxy` class with its set-up, `Read`, `Write`, `SelectAddress`, `SetReadMode` and `SetWriteMode`.

How the model is built:

- The code that works step by step stays imperative:
  - both checksum loops;
  - the string building in `CartridgeTypeText`;
  - the bank loops of `Save` and `ReadCartridge`;
  - the reader's caching fields;
  - every pin operation.
- Each of these methods is proved against a specification function.
- The properties that matter are proved about those functions as lemmas, for example:
  - the checksums detect single-byte changes;
  - slicing and saving are inverse;
  - the bit encodings round-trip.
- A pin is an object with a mode, the level it drives and the level the Game Boy side presents. That last level is the oracle a read samples.
- Every pin operation and every wait is appended to the board's event trace. The proxy's contracts therefore state both the final pin states and the exact order of operations.

## Model

| member | source | states |
|---|---|---|
| `Header.ROMHeaderFromBytes` | cartridge/header.go:84-102 | Needs at least 0x150 bytes. Each field is the raw bytes at its fixed offset: a 48-byte logo at 0x104, a 16-byte title at 0x134, one-byte fields from 0x143 to 0x14D, a two-byte global checksum at 0x14E. The manufacturer code is title[11..15], the CGB flag is title[15], and the licensee code is the single byte at 0x144. |
| `Header.HeaderFieldsCoverWindow` | cartridge/header.go:86-100 | The fields laid end to end reproduce bytes 0x104..0x150. Byte 0x145 is the one byte that no field holds. |
| `Header.DecodeDependsOnlyOnWindow` | cartridge/header.go:84-102 | Two images that agree on bytes 0x104..0x150 decode to the same fields. |
| `Header.FlagsOfDecodedHeader` | cartridge/header.go:120-128 | The header is GBC-only iff byte 0x143 (also the title's last byte) is 0xC0. It supports SGB iff byte 0x146 is 0x03. |
| `Header.HasMBCExactly` | cartridge/header.go:131-133 | HasMBC is false exactly for codes 0x00, 0x08 and 0x09. |
| `Header.MBCFamiliesDisjoint` | cartridge/header.go:135-156 | The MBC1, MBC2, MBC3 and MBC5 code sets are pairwise disjoint, and each implies HasMBC. |
| `Header.FamiliesMatchTypeNames` | cartridge/header.go:10-37 | For every named cartridge-type code, each family test holds iff the constant's name starts with that family. |
| `Header.HasBatteryMatchesTypeNames` | cartridge/header.go:158-163 | HasBattery holds iff the code is a named type whose name mentions a battery. |
| `Header.HasRAMCorrectedMatchesTypeNames` | cartridge/header.go:165-171 | The corrected RAM test, `HasRAMCorrected`, holds iff the code is a named type whose name mentions RAM. |
| `Header.HasRAMMissesTwoCodes` | cartridge/header.go:165-171 | `HasRAM` is the source's 13-code list. It differs from `HasRAMCorrected` exactly on 0x10 and 0x1A, where it answers false although the names say RAM. On every other code it holds iff the name mentions RAM. |
| `Header.RAMAndBatteryIndependent` | cartridge/header.go:158-171 | RAM and battery are independent: 0x0F has battery only, 0x1D RAM only, 0x1B both, 0x00 neither. |
| `Header.CartridgeTypeText` | cartridge/header.go:173-200 | The string built by successive appends equals the family name ("ROM (no MBC)", "MBC1", "MBC2", "MBC3", "MBC5", or empty for other codes). It is followed by " + RAM" when the source's `HasRAM` list holds, then " + Battery" and " (GBC Only)" when those flags hold. |
| `Header.TypeTextRoundTrip` | cartridge/header.go:173-200 | Stripping the suffixes off the source's type text recovers the family text and the RAM (source's list), battery and GBC flags. The same holds for the corrected text with `HasRAMCorrected`. So each text determines the flags it reports. |
| `Header.TypeTextsDifferOnTwoCodes` | cartridge/header.go:165-200 | The source's type text and the corrected one differ exactly when the code is 0x10 or 0x1A. |
| `Header.MissedRAMCodesTypeText` | cartridge/header.go:165-200 | For non-GBC headers the source prints "MBC5" for 0x1A and "MBC3 + Battery" for 0x10. The corrected texts are "MBC5 + RAM" and "MBC3 + RAM + Battery". |
| `Header.TypeTextExamples` | cartridge/header.go:173-200 | For non-GBC headers: 0x1B gives "MBC5 + RAM + Battery", 0x00 gives "ROM (no MBC)", 0x0F gives "MBC3 + Battery", and 0xFF (HuC1) gives " + RAM + Battery" with an empty family prefix. |
| `Header.GetNumROMBanks` | cartridge/header.go:203-215 | Codes 0..8 give 2^(code+1) banks, which is 2 << code, and 16 KiB times that is the code's ROM size. Any other code gives 0, the Go map's zero value. |
| `Header.GetNumRAMBanks` | cartridge/header.go:218-227 | Codes 0..5 give the code's RAM size divided by 8 KiB. Any other code gives 0. |
| `Header.RAMBanksNotMonotone` | cartridge/header.go:218-227 | Code 0x04 (128 KiB) gives 16 banks and code 0x05 (64 KiB) gives 8, so the table is not monotone in the code. |
| `Header.HeaderChecksumOf` | cartridge/header.go:232-238 | The fold of `x - b - 1 (mod 256)` from 0 over a byte sequence equals minus the sum of the bytes minus their count, modulo 256. |
| `Header.Validate` | cartridge/header.go:231-246 | The loop over raw bytes 0x134..0x14C returns Pass iff the folded value equals the stored header checksum. Otherwise it returns the invalid-header-checksum error. |
| `Header.HeaderChecksumOnlyReadsRange` | cartridge/header.go:235-240 | Header validity depends only on bytes 0x134..0x14D. |
| `Header.HeaderChecksumDetectsSingleByteChange` | cartridge/header.go:235-240 | If a header validates, changing any one byte in 0x134..0x14C to a different value makes it fail. |
| `Header.SealedHeaderValidates` | cartridge/header.go:235-245 | Storing the folded value at 0x14D always yields a header that validates. |
| `Cartridges.NewCartridge` | cartridge/cartridge.go:18-24 | Keeps the given header and bank list unchanged, with no RAM banks. |
| `Cartridges.FlattenAppend` | cartridge/cartridge.go:33-40 | Laying out banks is compatible with concatenation, so the summed byte stream depends only on the flat bytes, not on the bank split. |
| `Cartridges.FlattenFullBanks` | cartridge/cartridge.go:33-40 | For full 0x4000-byte banks, flat offset b*0x4000 + j is byte j of bank b. |
| `Cartridges.Validate` | cartridge/cartridge.go:29-52 | The nested loop sums every bank byte except flat offsets 0x14E and 0x14F, modulo 0x10000. It returns Pass iff the low byte equals GlobalChecksum[1] and the high byte equals GlobalChecksum[0]. Otherwise the error carries the stored and the computed bytes. |
| `Cartridges.ChecksumSumUpdate` | cartridge/cartridge.go:33-39 | Changing the byte at flat offset 0x14E or 0x14F leaves the sum unchanged. Changing any other byte shifts the sum by exactly the difference. |
| `Cartridges.GlobalChecksumSkipsItsOwnBytes` | cartridge/cartridge.go:35-37 | Overwriting both global-checksum bytes never changes the sum. |
| `Cartridges.GlobalChecksumDetectsSingleByteChange` | cartridge/cartridge.go:33-45 | If a cartridge validates, changing one bank byte at any flat offset other than 0x14E/0x14F, with the header unchanged, makes it fail. |
| `Cartridges.Save` | cartridge/cartridge.go:63-74 | The bytes written are exactly the ROM banks concatenated in index order. |
| `Cartridges.SaveLayout` | cartridge/cartridge.go:63-74 | For full banks the saved image has length banks*0x4000, and bank b starts at offset b*0x4000. |
| `Readers.SliceBanks` | cartridge/readers.go:55-64 | Needs an image of at least nb*0x4000 bytes. Produces nb full banks where bank b is bytes [b*0x4000, (b+1)*0x4000), and their concatenation is the image's first nb*0x4000 bytes. |
| `Readers.ImageRoundTrip` | cartridge/readers.go:59-64 | When the image is exactly nb banks long, saving the sliced banks reproduces the image byte for byte. |
| `Readers.BanksRoundTrip` | cartridge/readers.go:59-64 | Slicing the concatenation of full banks gives the same banks back. |
| `Readers.GlobalChecksumOfSlicedImage` | cartridge/readers.go:55-68 | The global checksum of a cartridge read from an image is the checksum sum of the image itself. |
| `Readers.CutBanks` | cartridge/readers.go:55-64 | Fills a slice of nb banks in a loop, bank b copied from bytes [b*0x4000, (b+1)*0x4000); the result is exactly SliceBanks of the image. |
| `Readers.FileROMReader.constructor` | cartridge/readers.go:20-27 | A new reader has the file name and nothing loaded or decoded. |
| `Readers.FileROMReader.LoadROMInMemory` | cartridge/readers.go:71-80 | Loads only while no image is cached. A load error is returned and nothing is cached. The header is untouched. |
| `Readers.FileROMReader.ReadHeader` | cartridge/readers.go:30-45 | Fails, wrapping the load error, iff no image can be loaded. Otherwise it returns and caches the decoding of the image's first 0x150 bytes. Once a header is cached, it is returned as is. |
| `Readers.FileROMReader.ReadCartridge` | cartridge/readers.go:48-69 | Returns the header error unchanged and no cartridge. Otherwise it returns NewCartridge of the same header with GetNumROMBanks() banks sliced from the image. An unknown ROM size code gives no banks and no error. |
| `PinIO.Pin.Read` | gbproxy/gbrpi.go:19-21 | Returns the level on the line and records one sample. No pin state changes. |
| `PinIO.Pin.High` | gbproxy/gbrpi.go:24-26 | Drives the pin high without changing its mode. |
| `PinIO.Pin.Low` | gbproxy/gbrpi.go:29-31 | Drives the pin low without changing its mode. |
| `PinIO.Pin.SetState` | gbproxy/gbrpi.go:34-40 | Drives the pin to the given level, through High or Low. |
| `PinIO.Pin.Input` | gbproxy/gbrpi.go:43-45 | Switches the pin to input and keeps its level. |
| `PinIO.Pin.Output` | gbproxy/gbrpi.go:48-50 | Switches the pin to output and keeps its level. |
| `PinIO.Sleep` | gbproxy/gbrpi.go:12 | A wait of the fixed margin, recorded as one Wait event. |
| `PinIO.WriteToPins` | gbproxy/io.go:7-12 | Pin i ends at bit i of the value. No mode changes. The trace gains exactly one SetState per pin, in index order. |
| `PinIO.OnlyLowBitsReachPins` | gbproxy/io.go:8-10 | Bits of the value at positions at or above the number of pins have no effect. |
| `RPiProxy.ByteOfBits` | gbproxy/gbrpi.go:145-150 | Decoding n sampled levels as the sum of 2^i gives a number below 2^n whose bit i is level i. |
| `RPiProxy.ByteOfBitsOf` | gbproxy/io.go:7-12 | Decoding the levels written for a value on n pins gives the value modulo 2^n. |
| `RPiProxy.BitsOfByteOf` | gbproxy/gbrpi.go:145-150 | Encoding a decoded byte back into bits gives the sampled levels. |
| `RPiProxy.EightPinsCarryLowByte` | gbproxy/io.go:9-10 | Writing a value to the 8 data pins and decoding their levels gives the value modulo 256. |
| `RPiProxy.SixteenPinsCarryLowHalfword` | gbproxy/gbrpi.go:173-175 | With 16 address pins, only the address modulo 65536 reaches the pins. |
| `RPiProxy.SetUpAddressPins` | gbproxy/gbrpi.go:89-99 | A master makes every address pin a low output. A slave makes every address pin an input and keeps its level. |
| `RPiProxy.PulseDataPinsLow` | gbproxy/gbrpi.go:101-106 | Each data pin goes Output, Low, wait, Input, and ends a low input. |
| `RPiProxy.SetUpStrobes` | gbproxy/gbrpi.go:108-122 | A master makes RD and WR high outputs. A slave makes them inputs and keeps their levels. |
| `RPiProxy.SlaveDrivesOnlyDataPins` | gbproxy/gbrpi.go:89-122 | During slave set-up every level written goes to a data pin and is low, so no address pin, RD or WR is ever driven. |
| `RPiProxy.SetUpBus` | gbproxy/gbrpi.go:89-122 | Runs the three set-up steps in order (address pins, data probe, RD and WR) and states the resulting pin states and the whole trace for either role. |
| `RPiProxy.RPiGameBoyProxy.constructor` | gbproxy/gbrpi.go:74-130 | Master: address pins are low outputs, and RD and WR are high outputs. Slave: those pins are inputs with their levels untouched. In both roles the data pins end as low inputs. The trace is address set-up, data probe, RD, WR, in that order. |
| `RPiProxy.SampleDataPins` | gbproxy/gbrpi.go:145-150 | Samples the data pins in order and accumulates a byte that equals the decoding of their levels, never overflowing 8 bits. |
| `RPiProxy.RPiGameBoyProxy.Read` | gbproxy/gbrpi.go:139-156 | RD low, wait, sample each data pin in order, RD high, wait. The result is the decoded data levels (bit i = pin i, by ByteOfBits). RD ends high, and no address or data pin is touched. |
| `RPiProxy.WriteToRPiPins` | gbproxy/gbrpi.go:193-202 | Pin i ends at bit i of the value, then one wait. Modes are unchanged. |
| `RPiProxy.RPiGameBoyProxy.Write` | gbproxy/gbrpi.go:159-170 | Data pin i is set to bit i of the value with modes left as they were, then wait, WR low, wait, WR high, wait, then read mode. Afterwards every data pin is a low input and WR is high. |
| `RPiProxy.RPiGameBoyProxy.SelectAddress` | gbproxy/gbrpi.go:173-175 | Address pin i ends at bit i of the address, then one wait. No role check, and no other pin is touched. |
| `RPiProxy.RPiGameBoyProxy.SetReadMode` | gbproxy/gbrpi.go:177-183 | Every data pin goes Low then Input, then one wait. The end state (all low inputs) does not depend on the state before, so the call is idempotent on pin state. |
| `RPiProxy.RPiGameBoyProxy.SetWriteMode` | gbproxy/gbrpi.go:185-191 | Every data pin goes Output then Low, then one wait. All end as low outputs whatever the state before, so the call is idempotent on pin state. |

## Left out

- Reading the ROM file (`loadFile`, cartridge/readers.go:82-102) is not modelled. Each reader operation takes a `LoadOutcome`: the bytes the file holds, or the error text.
- When the buffered read fails after a partial read, the source caches the partial image. That behaviour depends on the I/O library, and the model caches nothing on a failed load.
- `Save` is modelled as the concatenation it writes. File creation, writing, syncing and their error messages are not modelled.
- `PrintInfo` and all logging are left out: they only print.
- The go-rpio backend is left out: `initGPIO` and its process exit, and `End`/`rpio.Close`. The abstract `Pin` class stands in for `GameBoyRPiPin`.
- A pin read returns the level the Game Boy side presents, whatever the pin's mode.
- Real-time waits are recorded only as `Wait` events; their duration is not modelled.
- The floating-point `math.Pow(2, i)` mask is modelled as the exact integer 2^i. This requires fewer than 64 pins, which holds for the 16 and 8 pins used.
- Go's `uint` width for addresses and values is not modelled: values are unbounded naturals, and only the low bits that reach pins matter.
- The `conmap` pin mapping and the `GameBoyPin` interface are not part of this model. The wiring is the `Wired` predicate: distinct pins on one header. The model assumes it and the source does not check it.
- Short images or headers make Go slicing panic. The model states these as preconditions: `HeaderFits`, `BanksFit`, at least 0x150 header bytes, and a two-byte global checksum.
- The decoded header and the sliced banks are values here. In Go they alias the cached image, but nothing in the source mutates through those aliases.
- RAM banks are left out: the reader never fills them.
- An unknown ROM or RAM size code gives 0 banks, the Go map's zero value, and no error. The model gives 0 as well.
- `SelectAddress` has no role check: a slave proxy drives its address pins like a master does. No operation reports that the bus is not ready.
- `Write` never calls `Output` on the data pins: the comment at gbproxy/gbrpi.go:160 has no matching call. The value is driven onto the bus only if the caller has called `SetWriteMode` first.
- There is no release operation besides `End`, which closes the GPIO backend and is left out with it.
- RPiProxy.RPiGameBoyProxy.Read: the per-bit statement (bit i of the result is data pin i) is proved by `RPiProxy.ByteOfBits` about the decoded value, not repeated in the method's own contract.

## Findings

| source | as written | input that shows it | evidently intended | confidence | as-written member | corrected member |
|---|---|---|---|---|---|---|
| cartridge/header.go:165-171 | `HasRAM` lists 13 codes and omits MBC3TimerRAMBattery (0x10) and MBC5RAM (0x1A), although both names say the cartridge has RAM | cartridge type 0x1A: HasRAM is false, and CartridgeTypeText gives "MBC5" | HasRAM is true for 0x10 and 0x1A, and the text for 0x1A is "MBC5 + RAM" | high, not executed | `Header.HasRAMMissesTwoCodes` | `Header.HasRAMCorrectedMatchesTypeNames` |

`HasRAM` and `CartridgeTypeText` model the program as it is, so `CartridgeTypeText` prints what the Go code prints.
- `HasRAMCorrected` and `CorrectedTypeText` are the intended behaviour.
- `Header.TypeTextsDifferOnTwoCodes` proves that the two descriptions differ only on codes 0x10 and 0x1A.
- `Header.MissedRAMCodesTypeText` gives both strings for those two codes.
- No other part of the model reads the RAM flag.

/**
 * The Raspberry Pi side of the cartridge bus (gbproxy/gbrpi.go): sixteen
 * address pins, eight data pins and the RD and WR strobes. The proxy sets
 * the pins up as bus master or as a passive slave, reads a byte by pulsing
 * RD and sampling the data pins, writes one by driving the data pins and
 * pulsing WR, and selects an address by driving the address pins.
 */
module RPiProxy {
  import opened Common
  import opened PinIO

  const AddressPins := 16
  const DataPins := 8

  /** The number whose bit i is bits[i]: the sum of 2^i over the true positions. */
  function ByteOf(bits: seq<bool>): nat
  {
    if |bits| == 0 then 0
    else ByteOf(bits[..|bits| - 1]) + (if bits[|bits| - 1] then Pow2(|bits| - 1) else 0)
  }

  /** Decoding n bits gives a number below 2^n whose bits are exactly those bits. */
  lemma {:induction false} ByteOfBits(bits: seq<bool>)
    ensures ByteOf(bits) < Pow2(|bits|)
    ensures forall i :: 0 <= i < |bits| ==> Bit(ByteOf(bits), i) == bits[i]
  {
    if |bits| > 0 {
      var n := |bits| - 1;
      var init := bits[..n];
      ByteOfBits(init);
      var low, top := ByteOf(init), if bits[n] then 1 else 0;
      assert ByteOf(bits) == Pow2(n) * top + low;
      DivModUnique(ByteOf(bits), Pow2(n), top, low);
      forall i | 0 <= i < |bits|
        ensures Bit(ByteOf(bits), i) == bits[i]
      {
        if i < n {
          BitOfMod(ByteOf(bits), n, i);
          assert init[i] == bits[i];
        }
      }
    }
  }

  /** Decoding the first n bits of v gives v modulo 2^n. */
  lemma {:induction false} ByteOfBitsOf(v: nat, n: nat)
    ensures ByteOf(BitsOf(v, n)) == v % Pow2(n)
  {
    if n > 0 {
      ByteOfBitsOf(v, n - 1);
      assert BitsOf(v, n)[..n - 1] == BitsOf(v, n - 1);
      ModPow2Succ(v, n - 1);
    }
  }

  /** Splitting a decoded number back into bits gives the original bits. */
  lemma BitsOfByteOf(bits: seq<bool>)
    ensures BitsOf(ByteOf(bits), |bits|) == bits
  {
    ByteOfBits(bits);
  }

  /** Writing a value to eight pins and decoding their levels gives the value modulo 256. */
  lemma EightPinsCarryLowByte(value: nat, levels: seq<bool>)
    requires levels == BitsOf(value, DataPins)
    ensures ByteOf(levels) == value % 256
  {
    ByteOfBitsOf(value, DataPins);
  }

  /** The levels the Game Boy side presents on the pins, in order. */
  function Externals(pins: seq<Pin>): (levels: seq<bool>)
    reads pins
    ensures |levels| == |pins| && forall i :: 0 <= i < |pins| ==> levels[i] == pins[i].external
  {
    seq(|pins|, i reads pins requires 0 <= i < |pins| => pins[i].external)
  }

  /** No pin of the group saw its Game Boy side level change. */
  twostate predicate ExternalsKept(pins: seq<Pin>)
    reads pins
  {
    forall i :: 0 <= i < |pins| ==> pins[i].external == old(pins[i].external)
  }

  /** One sample of each pin, in order. */
  function SampleEvents(pins: seq<Pin>): (events: seq<Event>)
    reads pins
    ensures |events| == |pins|
    ensures forall i :: 0 <= i < |pins| ==> events[i] == Sampled(pins[i], pins[i].external)
  {
    seq(|pins|, i reads pins requires 0 <= i < |pins| => Sampled(pins[i], pins[i].external))
  }

  /** The same few events for each pin in turn. */
  function ForEachPin(pins: seq<Pin>, step: Pin -> seq<Event>): seq<Event>
  {
    if |pins| == 0 then [] else ForEachPin(pins[..|pins| - 1], step) + step(pins[|pins| - 1])
  }

  lemma ForEachPinAppend(pins: seq<Pin>, i: nat, step: Pin -> seq<Event>)
    requires i < |pins|
    ensures ForEachPin(pins[..i + 1], step) == ForEachPin(pins[..i], step) + step(pins[i])
  {
    assert pins[..i + 1][..i] == pins[..i];
  }

  lemma AppendFour(t: seq<Event>, a: seq<Event>, b: seq<Event>, c: seq<Event>, d: seq<Event>)
    ensures t + a + b + c + d == t + (a + b + c + d)
  {
  }

  /** Sampling one more data pin adds its weight when it reads high, and stays within a byte. */
  lemma ByteOfAppend(bits: seq<bool>, b: bool)
    requires |bits| < DataPins
    ensures ByteOf(bits + [b]) == ByteOf(bits) + (if b then Pow2(|bits|) else 0)
    ensures ByteOf(bits + [b]) < 256
  {
    assert (bits + [b])[..|bits|] == bits;
    ByteOfBits(bits + [b]);
    Pow2Monotone(|bits| + 1, DataPins);
    assert Pow2(4) == 16;
    Pow2Add(4, 4);
  }

  function MasterAddressStep(p: Pin): seq<Event> { [ModeSet(p, Output), LevelSet(p, false)] }
  function MasterStrobeStep(p: Pin): seq<Event> { [ModeSet(p, Output), LevelSet(p, true)] }
  function SlaveStep(p: Pin): seq<Event> { [ModeSet(p, Input)] }
  function DataInitStep(p: Pin): seq<Event> { [ModeSet(p, Output), LevelSet(p, false), Wait, ModeSet(p, Input)] }
  function ReadModeStep(p: Pin): seq<Event> { [LevelSet(p, false), ModeSet(p, Input)] }
  function WriteModeStep(p: Pin): seq<Event> { [ModeSet(p, Output), LevelSet(p, false)] }

  /** What initialisation does, in order: address pins, data pins, RD, then WR. */
  function InitEvents(address: seq<Pin>, data: seq<Pin>, rd: Pin, wr: Pin, isMaster: bool): seq<Event>
  {
    ForEachPin(address, if isMaster then MasterAddressStep else SlaveStep)
    + ForEachPin(data, DataInitStep)
    + (if isMaster then MasterStrobeStep(rd) else SlaveStep(rd))
    + (if isMaster then MasterStrobeStep(wr) else SlaveStep(wr))
  }

  /**
   * A slave never drives the address pins, RD or WR: every level written
   * during its initialisation goes to a data pin, and it is low.
   */
  lemma {:induction false} SlaveDrivesOnlyDataPins(address: seq<Pin>, data: seq<Pin>, rd: Pin, wr: Pin)
    ensures forall e :: e in InitEvents(address, data, rd, wr, false) && e.LevelSet? ==> e.pin in data && !e.level
  {
    SlaveStepsWriteNoLevel(address);
    DataInitWritesLowOnItsPins(data);
  }

  lemma {:induction false} SlaveStepsWriteNoLevel(pins: seq<Pin>)
    ensures forall e :: e in ForEachPin(pins, SlaveStep) ==> e.ModeSet? && e.mode == Input
  {
    if |pins| > 0 {
      SlaveStepsWriteNoLevel(pins[..|pins| - 1]);
    }
  }

  lemma {:induction false} DataInitWritesLowOnItsPins(pins: seq<Pin>)
    ensures forall e :: e in ForEachPin(pins, DataInitStep) && e.LevelSet? ==> e.pin in pins && !e.level
  {
    if |pins| > 0 {
      DataInitWritesLowOnItsPins(pins[..|pins| - 1]);
    }
  }

  /** Every pin of the group is in the given mode and drives the given level. */
  predicate AllAre(pins: seq<Pin>, mode: Mode, level: bool)
    reads pins
  {
    forall i :: 0 <= i < |pins| ==> pins[i].mode == mode && pins[i].level == level
  }

  /**
   * The wiring the proxy is built from: 16 address pins, 8 data pins, RD and
   * WR, no pin used twice, all on one GPIO header.
   */
  predicate Wired(board: Board, address: seq<Pin>, data: seq<Pin>, rd: Pin, wr: Pin) {
    && |address| == AddressPins && |data| == DataPins
    && Distinct(address) && Distinct(data) && rd != wr
    && (forall i, j :: 0 <= i < |address| && 0 <= j < |data| ==> address[i] != data[j])
    && rd !in address && wr !in address && rd !in data && wr !in data
    && OnBoard(address, board) && OnBoard(data, board) && rd.board == board && wr.board == board
  }

  /** The first step of the set-up: each address pin in turn, for the role. */
  method SetUpAddressPins(pins: seq<Pin>, isMaster: bool, board: Board)
    requires Distinct(pins) && OnBoard(pins, board)
    modifies pins, board
    ensures isMaster ==> AllAre(pins, Output, false)
    ensures !isMaster ==> forall i :: 0 <= i < |pins| ==> pins[i].mode == Input && pins[i].level == old(pins[i].level)
    ensures ExternalsKept(pins)
    ensures board.trace == old(board.trace) + ForEachPin(pins, if isMaster then MasterAddressStep else SlaveStep)
  {
    ghost var step := if isMaster then MasterAddressStep else SlaveStep;
    for i := 0 to |pins|
      invariant forall k :: 0 <= k < i ==>
        if isMaster then pins[k].mode == Output && !pins[k].level
        else pins[k].mode == Input && pins[k].level == old(pins[k].level)
      invariant forall k :: i <= k < |pins| ==> pins[k].level == old(pins[k].level)
      invariant forall k :: 0 <= k < |pins| ==> pins[k].external == old(pins[k].external)
      invariant board.trace == old(board.trace) + ForEachPin(pins[..i], step)
    {
      ForEachPinAppend(pins, i, step);
      if isMaster {
        pins[i].Output();
        pins[i].Low();
      } else {
        pins[i].Input();
      }
    }
    assert pins[..|pins|] == pins;
  }

  /** The second step of the set-up: each data pin driven low as an output, a pause, then input. */
  method PulseDataPinsLow(pins: seq<Pin>, board: Board)
    requires Distinct(pins) && OnBoard(pins, board)
    modifies pins, board
    ensures AllAre(pins, Input, false)
    ensures ExternalsKept(pins)
    ensures board.trace == old(board.trace) + ForEachPin(pins, DataInitStep)
  {
    for i := 0 to |pins|
      invariant forall k :: 0 <= k < i ==> pins[k].mode == Input && !pins[k].level
      invariant forall k :: 0 <= k < |pins| ==> pins[k].external == old(pins[k].external)
      invariant board.trace == old(board.trace) + ForEachPin(pins[..i], DataInitStep)
    {
      ForEachPinAppend(pins, i, DataInitStep);
      pins[i].Output();
      pins[i].Low();
      Sleep(board);
      pins[i].Input();
    }
    assert pins[..|pins|] == pins;
  }

  /** The last step of the set-up: RD, then WR, driven high as outputs by a master and made inputs by a slave. */
  method SetUpStrobes(rd: Pin, wr: Pin, isMaster: bool, board: Board)
    requires rd != wr && rd.board == board && wr.board == board
    modifies rd, wr, board
    ensures isMaster ==> rd.mode == Output && rd.level && wr.mode == Output && wr.level
    ensures !isMaster ==> rd.mode == Input && rd.level == old(rd.level) && wr.mode == Input && wr.level == old(wr.level)
    ensures rd.external == old(rd.external) && wr.external == old(wr.external)
    ensures board.trace == old(board.trace) + (if isMaster then MasterStrobeStep(rd) else SlaveStep(rd))
      + (if isMaster then MasterStrobeStep(wr) else SlaveStep(wr))
  {
    if isMaster {
      rd.Output();
      rd.High();
    } else {
      rd.Input();
    }
    if isMaster {
      wr.Output();
      wr.High();
    } else {
      wr.Input();
    }
  }

  /** The data bus as a byte: each pin sampled in order, bit i set when pin i reads high. */
  method SampleDataPins(pins: seq<Pin>, board: Board) returns (result: byte)
    requires |pins| == DataPins && OnBoard(pins, board)
    modifies board
    ensures result == ByteOf(Externals(pins))
    ensures board.trace == old(board.trace) + SampleEvents(pins)
  {
    ghost var levels, events := Externals(pins), SampleEvents(pins);
    result := 0;
    for i := 0 to DataPins
      invariant result == ByteOf(levels[..i])
      invariant board.trace == old(board.trace) + events[..i]
    {
      assert levels[..i + 1] == levels[..i] + [levels[i]];
      assert events[..i + 1] == events[..i] + [events[i]];
      ByteOfAppend(levels[..i], levels[i]);
      var high := pins[i].Read();
      if high {
        result := result + Pow2(i);
      }
    }
    assert levels[..DataPins] == levels;
    assert events[..DataPins] == events;
  }

  /** Drives the value's bits onto the pins, then pauses for the Game Boy. */
  method WriteToRPiPins(value: nat, pins: seq<Pin>, board: Board)
    requires |pins| < 64 && Distinct(pins) && OnBoard(pins, board)
    modifies pins, board
    ensures Levels(pins) == BitsOf(value, |pins|)
    ensures forall i :: 0 <= i < |pins| ==> pins[i].mode == old(pins[i].mode)
    ensures ExternalsKept(pins)
    ensures board.trace == old(board.trace) + SetStateEvents(value, pins) + [Wait]
  {
    WriteToPins(value, pins, board);
    Sleep(board);
  }

  /** The whole set-up, in the source's order: address pins, data pins, then RD and WR. */
  method SetUpBus(address: seq<Pin>, data: seq<Pin>, rd: Pin, wr: Pin, isMaster: bool, board: Board)
    requires Wired(board, address, data, rd, wr)
    modifies address, data, rd, wr, board
    ensures isMaster ==> AllAre(address, Output, false)
    ensures isMaster ==> rd.mode == Output && rd.level && wr.mode == Output && wr.level
    ensures !isMaster ==>
      && (forall i :: 0 <= i < |address| ==> address[i].mode == Input && address[i].level == old(address[i].level))
      && rd.mode == Input && rd.level == old(rd.level)
      && wr.mode == Input && wr.level == old(wr.level)
    ensures AllAre(data, Input, false)
    ensures ExternalsKept(address) && ExternalsKept(data)
    ensures rd.external == old(rd.external) && wr.external == old(wr.external)
    ensures board.trace == old(board.trace) + InitEvents(address, data, rd, wr, isMaster)
  {
    ghost var t0 := board.trace;
    SetUpAddressPins(address, isMaster, board);
    PulseDataPinsLow(data, board);
    SetUpStrobes(rd, wr, isMaster, board);
    AppendFour(t0, ForEachPin(address, if isMaster then MasterAddressStep else SlaveStep),
      ForEachPin(data, DataInitStep), if isMaster then MasterStrobeStep(rd) else SlaveStep(rd),
      if isMaster then MasterStrobeStep(wr) else SlaveStep(wr));
  }

  /** With sixteen address pins only the address modulo 65536 reaches the bus. */
  lemma SixteenPinsCarryLowHalfword(addr: nat, pins: seq<Pin>)
    requires |pins| == AddressPins
    ensures SetStateEvents(addr % 0x10000, pins) == SetStateEvents(addr, pins)
    ensures BitsOf(addr % 0x10000, AddressPins) == BitsOf(addr, AddressPins)
  {
    assert Pow2(4) == 16;
    Pow2Add(4, 4);
    Pow2Add(8, 8);
    OnlyLowBitsReachPins(addr, pins);
  }

  class RPiGameBoyProxy {
    const board: Board
    const As: seq<Pin>
    const Db: seq<Pin>
    const Rd: Pin
    const Wr: Pin

    ghost predicate Valid() {
      Wired(board, As, Db, Rd, Wr)
    }

    /**
     * Sets the pins up. A master drives the address pins low and RD and WR
     * high, all as outputs; a slave only switches them to inputs and writes
     * no level to them. In both roles every data pin is driven low as an
     * output and then left as an input.
     */
    constructor (board: Board, address: seq<Pin>, data: seq<Pin>, rd: Pin, wr: Pin, isMaster: bool)
      requires Wired(board, address, data, rd, wr)
      modifies address, data, rd, wr, board
      ensures Valid()
      ensures this.board == board && As == address && Db == data && Rd == rd && Wr == wr
      ensures isMaster ==> AllAre(address, Output, false)
      ensures isMaster ==> rd.mode == Output && rd.level && wr.mode == Output && wr.level
      ensures !isMaster ==>
        && (forall i :: 0 <= i < |address| ==> address[i].mode == Input && address[i].level == old(address[i].level))
        && rd.mode == Input && rd.level == old(rd.level)
        && wr.mode == Input && wr.level == old(wr.level)
      ensures AllAre(data, Input, false)
      ensures ExternalsKept(address) && ExternalsKept(data)
      ensures rd.external == old(rd.external) && wr.external == old(wr.external)
      ensures board.trace == old(board.trace) + InitEvents(address, data, rd, wr, isMaster)
    {
      this.board := board;
      As := address;
      Db := data;
      Rd := rd;
      Wr := wr;
      new;
      SetUpBus(address, data, rd, wr, isMaster, board);
    }

    /**
     * Reads the byte at the selected address: RD low, a pause, each data
     * pin sampled in order, RD high, a pause. Bit i of the result is what
     * data pin i showed; no data or address pin is touched.
     */
    method Read() returns (result: byte)
      requires Valid()
      modifies Rd, board
      ensures Rd.level && Rd.mode == old(Rd.mode) && Rd.external == old(Rd.external)
      ensures result == ByteOf(Externals(Db))
      ensures board.trace == old(board.trace) + [LevelSet(Rd, false), Wait] + SampleEvents(Db) + [LevelSet(Rd, true), Wait]
    {
      Rd.Low();
      Sleep(board);
      ghost var strobed := board.trace;
      assert strobed == old(board.trace) + [LevelSet(Rd, false), Wait];
      result := SampleDataPins(Db, board);
      ghost var sampled := board.trace;
      Rd.High();
      Sleep(board);
      assert board.trace == sampled + [LevelSet(Rd, true), Wait];
    }

    /** What Write does, in order. */
    ghost function WriteEvents(value: byte): seq<Event> {
      SetStateEvents(value, Db) + [Wait] + [LevelSet(Wr, false), Wait, LevelSet(Wr, true), Wait] + ReadModeEvents()
    }

    ghost function ReadModeEvents(): seq<Event> {
      ForEachPin(Db, ReadModeStep) + [Wait]
    }

    /**
     * Writes a byte to the selected address: data pin i is set to bit i of
     * the value (their mode is left as it was), WR is pulsed low then high,
     * and the data pins are put back into read mode.
     */
    method Write(value: byte)
      requires Valid()
      modifies Db, Wr, board
      ensures AllAre(Db, Input, false) && ExternalsKept(Db)
      ensures Wr.level && Wr.mode == old(Wr.mode) && Wr.external == old(Wr.external)
      ensures board.trace == old(board.trace) + WriteEvents(value)
    {
      WriteToRPiPins(value, Db, board);
      ghost var driven := board.trace;
      Wr.Low();
      Sleep(board);
      Wr.High();
      Sleep(board);
      ghost var pulsed := board.trace;
      assert pulsed == driven + [LevelSet(Wr, false), Wait, LevelSet(Wr, true), Wait];
      SetReadMode();
      AppendFour(old(board.trace), SetStateEvents(value, Db), [Wait],
        [LevelSet(Wr, false), Wait, LevelSet(Wr, true), Wait], ReadModeEvents());
    }

    /** Drives address pin i to bit i of the address and touches no other pin. */
    method SelectAddress(addr: nat)
      requires Valid()
      modifies As, board
      ensures Levels(As) == BitsOf(addr, AddressPins)
      ensures forall i :: 0 <= i < AddressPins ==> As[i].mode == old(As[i].mode)
      ensures ExternalsKept(As)
      ensures board.trace == old(board.trace) + SetStateEvents(addr, As) + [Wait]
    {
      WriteToRPiPins(addr, As, board);
    }

    /** Leaves every data pin a low input, whatever their state before. */
    method SetReadMode()
      requires Valid()
      modifies Db, board
      ensures AllAre(Db, Input, false) && ExternalsKept(Db)
      ensures board.trace == old(board.trace) + ReadModeEvents()
    {
      for i := 0 to |Db|
        invariant forall k :: 0 <= k < i ==> Db[k].mode == Input && !Db[k].level
        invariant forall k :: 0 <= k < |Db| ==> Db[k].external == old(Db[k].external)
        invariant board.trace == old(board.trace) + ForEachPin(Db[..i], ReadModeStep)
      {
        ForEachPinAppend(Db, i, ReadModeStep);
        Db[i].Low();
        Db[i].Input();
      }
      assert Db[..|Db|] == Db;
      Sleep(board);
    }

    /** Leaves every data pin a low output, whatever their state before. */
    method SetWriteMode()
      requires Valid()
      modifies Db, board
      ensures AllAre(Db, Output, false) && ExternalsKept(Db)
      ensures board.trace == old(board.trace) + ForEachPin(Db, WriteModeStep) + [Wait]
    {
      for i := 0 to |Db|
        invariant forall k :: 0 <= k < i ==> Db[k].mode == Output && !Db[k].level
        invariant forall k :: 0 <= k < |Db| ==> Db[k].external == old(Db[k].external)
        invariant board.trace == old(board.trace) + ForEachPin(Db[..i], WriteModeStep)
      {
        ForEachPinAppend(Db, i, WriteModeStep);
        Db[i].Output();
        Db[i].Low();
      }
      assert Db[..|Db|] == Db;
      Sleep(board);
    }
  }
}

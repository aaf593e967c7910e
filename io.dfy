/**
 * Abstract GPIO pins and the bit-to-pin distribution of gbproxy/io.go.
 *
 * A pin has a mode (Input or Output), the level it was last told to drive,
 * and the level the Game Boy side presents on the line, which is what a
 * read samples. Every pin of a board records what is done to it, in order,
 * in the board's trace; waits are recorded as `Wait` events.
 */
module PinIO {
  import opened Common

  datatype Mode = Input | Output

  /** One observable action on the GPIO header. */
  datatype Event =
    | ModeSet(pin: Pin, mode: Mode)
    | LevelSet(pin: Pin, level: bool)
    | Sampled(pin: Pin, level: bool)
    | Wait

  /** The GPIO header the pins belong to, with the history of what was done to it. */
  class Board {
    ghost var trace: seq<Event>

    constructor ()
      ensures trace == []
    {
      trace := [];
    }
  }

  class Pin {
    const board: Board
    var mode: Mode
    var level: bool
    var external: bool

    constructor (board: Board, mode: Mode, level: bool, external: bool)
      ensures this.board == board && this.mode == mode && this.level == level && this.external == external
    {
      this.board := board;
      this.mode := mode;
      this.level := level;
      this.external := external;
    }

    /** Samples the line: true when it is high. */
    method Read() returns (high: bool)
      modifies board
      ensures high == external
      ensures board.trace == old(board.trace) + [Sampled(this, high)]
    {
      high := external;
      board.trace := board.trace + [Sampled(this, high)];
    }

    method High()
      modifies this, board
      ensures level && mode == old(mode) && external == old(external)
      ensures board.trace == old(board.trace) + [LevelSet(this, true)]
    {
      level := true;
      board.trace := board.trace + [LevelSet(this, true)];
    }

    method Low()
      modifies this, board
      ensures !level && mode == old(mode) && external == old(external)
      ensures board.trace == old(board.trace) + [LevelSet(this, false)]
    {
      level := false;
      board.trace := board.trace + [LevelSet(this, false)];
    }

    /** Drives the pin high when `state` holds and low otherwise. */
    method SetState(state: bool)
      modifies this, board
      ensures level == state && mode == old(mode) && external == old(external)
      ensures board.trace == old(board.trace) + [LevelSet(this, state)]
    {
      if state {
        High();
      } else {
        Low();
      }
    }

    method Input()
      modifies this, board
      ensures mode == Mode.Input && level == old(level) && external == old(external)
      ensures board.trace == old(board.trace) + [ModeSet(this, Mode.Input)]
    {
      mode := Mode.Input;
      board.trace := board.trace + [ModeSet(this, Mode.Input)];
    }

    method Output()
      modifies this, board
      ensures mode == Mode.Output && level == old(level) && external == old(external)
      ensures board.trace == old(board.trace) + [ModeSet(this, Mode.Output)]
    {
      mode := Mode.Output;
      board.trace := board.trace + [ModeSet(this, Mode.Output)];
    }
  }

  /** The fixed pause that lets the Game Boy side settle. */
  method Sleep(board: Board)
    modifies board
    ensures board.trace == old(board.trace) + [Wait]
  {
    board.trace := board.trace + [Wait];
  }

  /** No pin appears twice: each wire is a distinct GPIO line. */
  predicate Distinct(pins: seq<Pin>) {
    forall i, j :: 0 <= i < j < |pins| ==> pins[i] != pins[j]
  }

  predicate OnBoard(pins: seq<Pin>, board: Board) {
    forall p :: p in pins ==> p.board == board
  }

  /** The bits 0 .. n-1 of v, least significant first. */
  function BitsOf(v: nat, n: nat): (bits: seq<bool>)
    ensures |bits| == n && forall i :: 0 <= i < n ==> bits[i] == Bit(v, i)
  {
    seq(n, i requires 0 <= i < n => Bit(v, i))
  }

  /** One SetState per pin, in index order, pin i receiving bit i of the value. */
  function SetStateEvents(value: nat, pins: seq<Pin>): (events: seq<Event>)
    ensures |events| == |pins|
    ensures forall i :: 0 <= i < |pins| ==> events[i] == LevelSet(pins[i], Bit(value, i))
  {
    seq(|pins|, i requires 0 <= i < |pins| => LevelSet(pins[i], Bit(value, i)))
  }

  /** The levels currently driven by the pins, in order. */
  function Levels(pins: seq<Pin>): (levels: seq<bool>)
    reads pins
    ensures |levels| == |pins| && forall i :: 0 <= i < |pins| ==> levels[i] == pins[i].level
  {
    seq(|pins|, i reads pins requires 0 <= i < |pins| => pins[i].level)
  }

  /**
   * Sets pin i to bit i of `value`, for every i below the number of pins.
   * The source computes the mask 2^i in floating point; below 64 pins it
   * is exact.
   */
  method WriteToPins(value: nat, pins: seq<Pin>, board: Board)
    requires |pins| < 64 && Distinct(pins) && OnBoard(pins, board)
    modifies pins, board
    ensures Levels(pins) == BitsOf(value, |pins|)
    ensures forall p :: p in pins ==> p.mode == old(p.mode) && p.external == old(p.external)
    ensures board.trace == old(board.trace) + SetStateEvents(value, pins)
  {
    for i := 0 to |pins|
      invariant forall k :: 0 <= k < i ==> pins[k].level == Bit(value, k)
      invariant forall p :: p in pins ==> p.mode == old(p.mode) && p.external == old(p.external)
      invariant board.trace == old(board.trace) + SetStateEvents(value, pins[..i])
    {
      var mask := Pow2(i);
      var state := (value / mask) % 2 == 1;
      pins[i].SetState(state);
      assert SetStateEvents(value, pins[..i + 1]) == SetStateEvents(value, pins[..i]) + [LevelSet(pins[i], state)];
    }
    assert pins[..|pins|] == pins;
  }

  /** Bits of the value at positions from the number of pins upward have no effect. */
  lemma {:induction false} OnlyLowBitsReachPins(value: nat, pins: seq<Pin>)
    ensures SetStateEvents(value % Pow2(|pins|), pins) == SetStateEvents(value, pins)
    ensures BitsOf(value % Pow2(|pins|), |pins|) == BitsOf(value, |pins|)
  {
    forall i | 0 <= i < |pins|
      ensures Bit(value % Pow2(|pins|), i) == Bit(value, i)
    {
      BitOfMod(value, |pins|, i);
    }
  }
}

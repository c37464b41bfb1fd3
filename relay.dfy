/**
 * The serial relay board driven by the relay scripts: its 4-byte command frame
 * `[0xA0, channel, state, checksum]` (state 1 closes the relay, 0 opens it, the
 * checksum is the sum of the first three bytes modulo 256), what a frame does to
 * the board, and the serial port the scripts write frames to.
 *
 * The port records every frame written, in order; the board's channel states are
 * always the initial states with every written frame applied in turn.
 */
module Relay {
  import opened Common

  /** The first byte of every relay command frame. */
  const HEAD: byte := 0xA0

  /** The state byte values. */
  const ON: byte := 1
  const OFF: byte := 0

  /** The relay channels and whether each is closed (on). */
  type Board = map<int, bool>

  /** The checksum byte: the sum of the first three bytes, modulo 256. */
  function Checksum(b0: byte, b1: byte, b2: byte): (c: byte)
    ensures c as int == (b0 as int + b1 as int + b2 as int) % 256
  {
    ((b0 as int + b1 as int + b2 as int) % 256) as byte
  }

  /** A frame the board accepts as a command. */
  predicate WellFormed(f: seq<byte>)
  {
    |f| == 4 && f[0] == HEAD && (f[2] == ON || f[2] == OFF) && f[3] == Checksum(f[0], f[1], f[2])
  }

  /** The frame that switches `channel` on or off. */
  function Command(channel: byte, on: bool): (f: seq<byte>)
    ensures WellFormed(f)
    ensures f[1] == channel && (f[2] == ON <==> on)
  {
    var state := if on then ON else OFF;
    [HEAD, channel, state, Checksum(HEAD, channel, state)]
  }

  /** A button press on `channel`: close the relay, then open it. */
  function Press(channel: byte): seq<seq<byte>>
  {
    [Command(channel, true), Command(channel, false)]
  }

  /** Is `channel` closed on `b`? A channel the board was never told about is taken to be open. */
  predicate IsOn(b: Board, channel: int)
  {
    channel in b && b[channel]
  }

  /**
   * The board after receiving `f`: a well-formed frame sets its channel; anything else
   * leaves the board as it was.
   */
  function Apply(b: Board, f: seq<byte>): Board
  {
    if WellFormed(f) then b[f[1] as int := f[2] == ON] else b
  }

  /** The board after receiving the frames `fs` in order. */
  function ApplyAll(b: Board, fs: seq<seq<byte>>): Board
    decreases |fs|
  {
    if fs == [] then b else ApplyAll(Apply(b, fs[0]), fs[1..])
  }

  /** Every state the board passes through while receiving `fs`, starting with `b`. */
  function History(b: Board, fs: seq<seq<byte>>): (h: seq<Board>)
    decreases |fs|
    ensures |h| == |fs| + 1
    ensures h[0] == b && h[|fs|] == ApplyAll(b, fs)
  {
    if fs == [] then [b] else [b] + History(Apply(b, fs[0]), fs[1..])
  }

  /** Receiving `a` and then `b` is receiving `a + b`. */
  lemma {:induction false} ApplyAllConcat(m: Board, a: seq<seq<byte>>, b: seq<seq<byte>>)
    ensures ApplyAll(m, a + b) == ApplyAll(ApplyAll(m, a), b)
    decreases |a|
  {
    if a == [] {
      assert a + b == b;
    } else {
      assert (a + b)[0] == a[0] && (a + b)[1..] == a[1..] + b;
      ApplyAllConcat(Apply(m, a[0]), a[1..], b);
    }
  }

  /** The states passed through while receiving `a + b` are those of `a`, then those of `b`. */
  lemma {:induction false} HistoryConcat(m: Board, a: seq<seq<byte>>, b: seq<seq<byte>>)
    ensures History(m, a + b) == History(m, a) + History(ApplyAll(m, a), b)[1..]
    decreases |a|
  {
    if a == [] {
      assert a + b == b;
    } else {
      assert (a + b)[0] == a[0] && (a + b)[1..] == a[1..] + b;
      HistoryConcat(Apply(m, a[0]), a[1..], b);
    }
  }

  /** A press leaves its channel open and touches no other channel; in between it is closed. */
  lemma PressEffect(m: Board, channel: byte)
    ensures ApplyAll(m, Press(channel)) == m[channel as int := false]
    ensures History(m, Press(channel)) == [m, m[channel as int := true], m[channel as int := false]]
  {
    var on, off := Command(channel, true), Command(channel, false);
    assert Press(channel)[1..] == [off];
    assert [off][1..] == [];
    var m1 := Apply(m, on);
    assert m1 == m[channel as int := true];
    assert ApplyAll(m, Press(channel)) == ApplyAll(m1, [off]) == ApplyAll(Apply(m1, off), []);
    assert m[channel as int := true][channel as int := false] == m[channel as int := false];
  }

  /** The serial port to the relay board. */
  class RelayPort {
    var isOpen: bool
    /** Every frame written, oldest first. */
    var trace: seq<seq<byte>>
    /** The board's channel states. */
    var relays: Board
    /** The board's channel states when the port was opened. */
    ghost var initial: Board

    ghost predicate Valid()
      reads this
    {
      relays == ApplyAll(initial, trace)
    }

    /** Opens the port to a board whose channels are in the states `board`. */
    constructor Open(board: Board)
      ensures Valid() && isOpen
      ensures trace == [] && relays == board && initial == board
    {
      isOpen, trace, relays := true, [], board;
      initial := board;
    }

    /** `ser.write(frame)`: the frame goes on the trace and reaches the board. */
    method Write(f: seq<byte>)
      requires Valid() && isOpen
      modifies this
      ensures Valid() && isOpen && initial == old(initial)
      ensures trace == old(trace) + [f]
      ensures relays == Apply(old(relays), f)
    {
      ApplyAllConcat(initial, trace, [f]);
      trace := trace + [f];
      relays := Apply(relays, f);
    }

    /** `ser.close()`: nothing more can be written; the board keeps its states. */
    method Close()
      requires Valid()
      modifies this
      ensures Valid() && !isOpen && initial == old(initial)
      ensures trace == old(trace) && relays == old(relays)
    {
      isOpen := false;
    }
  }
}

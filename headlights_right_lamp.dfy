/**
 * The right-lamp script (Tool/TestHeadlights/test_HeadlightsSpecificationIntervals.py):
 * ten iterations, each switching relay channel 3 on and then off, then the port is closed.
 */
module HeadlightsRightLamp {
  import opened Common
  import opened Relay

  // The script writes these two frames as binary literals
  // (1010_0000 0000_0011 0000_0001 1010_0100 and 1010_0000 0000_0011 0000_0000 1010_0011).
  const LAMP_ON: seq<byte> := [0xA0, 0x03, 0x01, 0xA4]
  const LAMP_OFF: seq<byte> := [0xA0, 0x03, 0x00, 0xA3]

  /** The number of iterations of the script's loop. */
  const ITERATIONS: nat := 10

  /** The two frames are the ON and OFF command frames of channel 3, checksums included. */
  lemma FramesAreCommands()
    ensures LAMP_ON == Command(3, true) && LAMP_OFF == Command(3, false)
    ensures WellFormed(LAMP_ON) && WellFormed(LAMP_OFF)
    ensures Press(3) == [LAMP_ON, LAMP_OFF]
  {
  }

  /**
   * While channel 3 is pressed `n` times, every later state has channel 3 on exactly at the
   * odd steps (after an ON frame) and off at the even ones (after each iteration), and no
   * other channel ever changes.
   */
  lemma {:induction false} PressesAlternate(m: Board, n: nat)
    ensures n >= 1 ==> ApplyAll(m, Repeat(Press(3), n)) == m[3 := false]
    ensures var h := History(m, Repeat(Press(3), n));
      forall k :: 0 <= k < |h| ==> h[k] - {3} == m - {3} && (k > 0 ==> (IsOn(h[k], 3) <==> k % 2 == 1))
  {
    if n > 0 {
      var prev := Repeat(Press(3), n - 1);
      PressesAlternate(m, n - 1);
      var x := ApplyAll(m, prev);
      assert x == History(m, prev)[|prev|];
      assert x - {3} == m - {3};
      PressEffect(x, 3);
      assert x[3 := true] - {3} == x - {3};
      assert x[3 := false] - {3} == x - {3};
      ApplyAllConcat(m, prev, Press(3));
      HistoryConcat(m, prev, Press(3));
      if n > 1 {
        assert m[3 := false][3 := false] == m[3 := false];
      }
    }
  }

  /**
   * The whole script on a board whose channels start in the states `board`: twenty frames,
   * ON then OFF for channel 3 in each iteration, channel 3 off after every iteration and at
   * exit, every other channel untouched, and the port closed.
   */
  method RunScript(board: Board) returns (port: RelayPort)
    ensures fresh(port) && port.Valid() && !port.isOpen && port.initial == board
    ensures port.trace == Repeat([LAMP_ON, LAMP_OFF], ITERATIONS) && |port.trace| == 20
    ensures port.relays == board[3 := false]
    ensures var h := History(board, port.trace);
      forall k :: 0 < k < |h| ==> h[k] - {3} == board - {3} && (IsOn(h[k], 3) <==> k % 2 == 1)
  {
    port := new RelayPort.Open(board);
    for i := 0 to ITERATIONS
      invariant port.Valid() && port.isOpen && port.initial == board
      invariant port.trace == Repeat([LAMP_ON, LAMP_OFF], i)
    {
      port.Write(LAMP_ON);
      port.Write(LAMP_OFF);
    }
    port.Close();
    FramesAreCommands();
    PressesAlternate(board, ITERATIONS);
  }
}

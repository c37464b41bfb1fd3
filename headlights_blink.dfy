/**
 * The headlight blink suite (Tool/TestHeadlights/test_HeadlightsNoSpecificationIntervals.py):
 * module setup opens the port and opens relays 2 and 3, each of the ten parametrised test
 * runs blinks the left lamp (channel 2) and then the right lamp (channel 3), and module
 * teardown opens both relays again and closes the port if it was ever opened.
 */
module HeadlightsBlink {
  import opened Common
  import opened Relay

  // The four frames the suite writes, as it spells them out.
  const K2_ON: seq<byte> := [0xA0, 0x02, 0x01, 0xA3]
  const K2_OFF: seq<byte> := [0xA0, 0x02, 0x00, 0xA2]
  const K3_ON: seq<byte> := [0xA0, 0x03, 0x01, 0xA4]
  const K3_OFF: seq<byte> := [0xA0, 0x03, 0x00, 0xA3]

  /** The parameters of the test runs, `list(range(1, 11))`. */
  const NUMBERS: seq<int> := [1, 2, 3, 4, 5, 6, 7, 8, 9, 10]

  function SetupFrames(): seq<seq<byte>>
  {
    [K2_OFF, K3_OFF]
  }

  function BlinkFrames(): seq<seq<byte>>
  {
    [K2_ON, K2_OFF, K3_ON, K3_OFF]
  }

  function TeardownFrames(): seq<seq<byte>>
  {
    [K2_OFF, K3_OFF]
  }

  /** Both lamps lit at once. */
  predicate BothOn(b: Board)
  {
    IsOn(b, 2) && IsOn(b, 3)
  }

  /** Neither lamp lit. */
  predicate AllOff(b: Board)
  {
    !IsOn(b, 2) && !IsOn(b, 3)
  }

  /**
   * The frames are the ON/OFF command frames of channels 2 and 3 listed in the suite's
   * description, so each carries a correct checksum.
   */
  lemma FramesAreCommands()
    ensures K2_ON == Command(2, true) && K2_OFF == Command(2, false)
    ensures K3_ON == Command(3, true) && K3_OFF == Command(3, false)
    ensures WellFormed(K2_ON) && WellFormed(K2_OFF) && WellFormed(K3_ON) && WellFormed(K3_OFF)
    ensures BlinkFrames() == Press(2) + Press(3)
  {
  }

  /** The two OFF frames open both relays, whatever their states were; the first already opens channel 2. */
  lemma ReleaseBoth(m: Board)
    ensures ApplyAll(m, [K2_OFF, K3_OFF]) == m[2 := false][3 := false]
    ensures History(m, [K2_OFF, K3_OFF]) == [m, m[2 := false], m[2 := false][3 := false]]
  {
    FramesAreCommands();
    var m1 := Apply(m, K2_OFF);
    assert m1 == m[2 := false];
    assert [K2_OFF, K3_OFF][1..] == [K3_OFF];
    assert [K3_OFF][1..] == [];
    assert ApplyAll(m, [K2_OFF, K3_OFF]) == ApplyAll(m1, [K3_OFF]) == ApplyAll(Apply(m1, K3_OFF), []);
  }

  /** One blink from a dark board: the lamps are never lit together, and both end dark. */
  lemma OneBlink(m: Board)
    requires AllOff(m)
    ensures ApplyAll(m, BlinkFrames()) == m[2 := false][3 := false]
    ensures forall k :: 0 <= k < |History(m, BlinkFrames())| ==> !BothOn(History(m, BlinkFrames())[k])
  {
    FramesAreCommands();
    ApplyAllConcat(m, Press(2), Press(3));
    HistoryConcat(m, Press(2), Press(3));
    PressEffect(m, 2);
    PressEffect(m[2 := false], 3);
  }

  /** Any number of blinks from a dark board: never both lit, and dark after every blink. */
  lemma {:induction false} BlinksNeverOverlap(m: Board, n: nat)
    requires AllOff(m)
    ensures AllOff(ApplyAll(m, Repeat(BlinkFrames(), n)))
    ensures forall k :: 0 <= k < |History(m, Repeat(BlinkFrames(), n))| ==>
              !BothOn(History(m, Repeat(BlinkFrames(), n))[k])
  {
    if n > 0 {
      var prev := Repeat(BlinkFrames(), n - 1);
      BlinksNeverOverlap(m, n - 1);
      var x := ApplyAll(m, prev);
      OneBlink(x);
      ApplyAllConcat(m, prev, BlinkFrames());
      HistoryConcat(m, prev, BlinkFrames());
    }
  }

  /**
   * The frames of a whole run: after the first setup frame the lamps are never lit
   * together, and the run ends with both dark.
   */
  lemma RunNeverOverlaps(m: Board, n: nat)
    ensures var fs := SetupFrames() + Repeat(BlinkFrames(), n) + TeardownFrames();
      && AllOff(ApplyAll(m, fs))
      && forall k :: 1 <= k < |History(m, fs)| ==> !BothOn(History(m, fs)[k])
  {
    var blinks := Repeat(BlinkFrames(), n);
    ReleaseBoth(m);
    var m1 := m[2 := false][3 := false];
    BlinksNeverOverlap(m1, n);
    var m2 := ApplyAll(m1, blinks);
    ReleaseBoth(m2);
    ApplyAllConcat(m, SetupFrames(), blinks);
    HistoryConcat(m, SetupFrames(), blinks);
    ApplyAllConcat(m, SetupFrames() + blinks, TeardownFrames());
    HistoryConcat(m, SetupFrames() + blinks, TeardownFrames());
  }

  /** `setup_module`: opens the port and writes OFF for channels 2 and 3. */
  method SetupModule(board: Board) returns (port: RelayPort)
    ensures fresh(port) && port.Valid() && port.isOpen && port.initial == board
    ensures port.trace == SetupFrames()
    ensures port.relays == board[2 := false][3 := false] && AllOff(port.relays)
  {
    port := new RelayPort.Open(board);
    port.Write(K2_OFF);
    port.Write(K3_OFF);
    FramesAreCommands();
  }

  /** `test_leftRightBlink`: K2 ON, K2 OFF, K3 ON, K3 OFF, and nothing else. */
  method TestLeftRightBlink(port: RelayPort, cnahsu: int)
    requires port.Valid() && port.isOpen
    modifies port
    ensures port.Valid() && port.isOpen && port.initial == old(port.initial)
    ensures port.trace == old(port.trace) + BlinkFrames()
    ensures port.relays == old(port.relays)[2 := false][3 := false]
  {
    FramesAreCommands();
    port.Write(K2_ON);
    port.Write(K2_OFF);
    port.Write(K3_ON);
    port.Write(K3_OFF);
    assert port.relays == old(port.relays)[2 := true][2 := false][3 := true][3 := false];
  }

  /** `teardown_module`: only when the port was opened, OFF for channels 2 and 3, then close. */
  method TeardownModule(port: RelayPort?)
    requires port != null ==> port.Valid() && port.isOpen
    modifies port
    ensures port != null ==> port.Valid() && !port.isOpen && port.initial == old(port.initial)
    ensures port != null ==> port.trace == old(port.trace) + TeardownFrames()
    ensures port != null ==> port.relays == old(port.relays)[2 := false][3 := false]
  {
    if port != null {
      FramesAreCommands();
      port.Write(K2_OFF);
      port.Write(K3_OFF);
      port.Close();
    }
  }

  /**
   * The whole suite: setup, one test run per parameter, teardown. Forty-four frames are
   * written; both lamps are dark between runs and at the end, and never lit together after
   * the first setup frame.
   */
  method RunSuite(board: Board) returns (port: RelayPort)
    ensures fresh(port) && port.Valid() && !port.isOpen && port.initial == board
    ensures port.trace == SetupFrames() + Repeat(BlinkFrames(), |NUMBERS|) + TeardownFrames()
    ensures |NUMBERS| == 10 && |port.trace| == 44
    ensures port.relays == board[2 := false][3 := false] && AllOff(port.relays)
    ensures forall k :: 1 <= k < |History(board, port.trace)| ==> !BothOn(History(board, port.trace)[k])
  {
    port := SetupModule(board);
    for i := 0 to |NUMBERS|
      invariant port.Valid() && port.isOpen && port.initial == board
      invariant port.trace == SetupFrames() + Repeat(BlinkFrames(), i)
      invariant port.relays == board[2 := false][3 := false]
    {
      TestLeftRightBlink(port, NUMBERS[i]);
    }
    TeardownModule(port);
    RunNeverOverlaps(board, |NUMBERS|);
  }
}

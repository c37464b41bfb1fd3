/**
 * The left/right turn-signal script (Tool/TestTurnSignals/test_LeftTurnSignalsNoSpecificationIntervals.py):
 * a table of four relay frames, `send_cmd` writing one frame, `press_button` pressing one
 * channel, `left_right_cycle` pressing channel 2 then channel 3, and ten cycles before the
 * port is closed.
 */
module LeftTurnSignals {
  import opened Common
  import opened Relay

  /** A key of the frame table: the name "K<channel>_ON" or "K<channel>_OFF". */
  datatype CmdKey = CmdKey(channel: int, on: bool)

  /** The frame table, as the script spells it out in hex. */
  const RELAY_CMDS: map<CmdKey, seq<byte>> := map[
    CmdKey(2, true) := [0xA0, 0x02, 0x01, 0xA3],
    CmdKey(2, false) := [0xA0, 0x02, 0x00, 0xA2],
    CmdKey(3, true) := [0xA0, 0x03, 0x01, 0xA4],
    CmdKey(3, false) := [0xA0, 0x03, 0x00, 0xA3]
  ]

  /** The number of left/right cycles the script runs. */
  const CYCLES: nat := 10

  /**
   * Looking a frame up by channel: the table has frames for channels 2 and 3 only, and each
   * is the well-formed command frame for that channel and state.
   */
  function LookupCmd(channel: int, on: bool): (r: Option<seq<byte>>)
    ensures r.Some? <==> channel == 2 || channel == 3
    ensures r.Some? ==> 0 <= channel < 0x100 && r.value == Command(channel as byte, on)
  {
    var key := CmdKey(channel, on);
    if key in RELAY_CMDS then Some(RELAY_CMDS[key]) else None
  }

  /** The frames of one `left_right_cycle`. */
  function CycleFrames(): seq<seq<byte>>
  {
    Press(2) + Press(3)
  }

  /** `send_cmd`: writes exactly one frame. */
  method SendCmd(port: RelayPort, cmd: seq<byte>)
    requires port.Valid() && port.isOpen
    modifies port
    ensures port.Valid() && port.isOpen && port.initial == old(port.initial)
    ensures port.trace == old(port.trace) + [cmd]
    ensures port.relays == Apply(old(port.relays), cmd)
  {
    port.Write(cmd);
  }

  /**
   * `press_button`: the ON frame then the OFF frame of `channel`, leaving it open and the
   * other channels as they were. For a channel without frames the lookup fails before
   * anything is written.
   */
  method PressButton(port: RelayPort, channel: int) returns (ok: bool)
    requires port.Valid() && port.isOpen
    modifies port
    ensures port.Valid() && port.isOpen && port.initial == old(port.initial)
    ensures ok <==> channel == 2 || channel == 3
    ensures ok ==> port.trace == old(port.trace) + Press(channel as byte)
    ensures ok ==> port.relays == old(port.relays)[channel := false]
    ensures !ok ==> port.trace == old(port.trace) && port.relays == old(port.relays)
  {
    var onCmd := LookupCmd(channel, true);
    if onCmd.None? {
      return false;
    }
    SendCmd(port, onCmd.value);
    var offCmd := LookupCmd(channel, false);
    SendCmd(port, offCmd.value);
    ok := true;
  }

  /** `left_right_cycle`: channel 2 is pressed before channel 3; both end open. */
  method LeftRightCycle(port: RelayPort)
    requires port.Valid() && port.isOpen
    modifies port
    ensures port.Valid() && port.isOpen && port.initial == old(port.initial)
    ensures port.trace == old(port.trace) + CycleFrames()
    ensures port.relays == old(port.relays)[2 := false][3 := false]
  {
    var left := PressButton(port, 2);
    var right := PressButton(port, 3);
  }

  /** Any number of cycles, at least one, leaves channels 2 and 3 open and no other channel touched. */
  lemma {:induction false} CyclesLeaveBothOff(m: Board, n: nat)
    requires n >= 1
    ensures ApplyAll(m, Repeat(CycleFrames(), n)) == m[2 := false][3 := false]
  {
    var prev := Repeat(CycleFrames(), n - 1);
    ApplyAllConcat(m, prev, CycleFrames());
    var x := ApplyAll(m, prev);
    ApplyAllConcat(x, Press(2), Press(3));
    PressEffect(x, 2);
    PressEffect(x[2 := false], 3);
    if n > 1 {
      CyclesLeaveBothOff(m, n - 1);
    }
  }

  /**
   * The whole script on a board whose channels start in the states `board`: ten cycles,
   * forty frames, then the port is closed with channels 2 and 3 open.
   */
  method RunScript(board: Board) returns (port: RelayPort)
    ensures fresh(port) && port.Valid() && !port.isOpen && port.initial == board
    ensures port.trace == Repeat(CycleFrames(), CYCLES) && |port.trace| == 40
    ensures port.relays == board[2 := false][3 := false]
  {
    port := new RelayPort.Open(board);
    for i := 0 to CYCLES
      invariant port.Valid() && port.isOpen && port.initial == board
      invariant port.trace == Repeat(CycleFrames(), i)
    {
      LeftRightCycle(port);
    }
    port.Close();
    CyclesLeaveBothOff(board, CYCLES);
  }

  /** Every frame in the table is the command frame its key names, so its checksum is right. */
  lemma TableFramesWellFormed()
    ensures forall k :: k in RELAY_CMDS ==>
              0 <= k.channel < 0x100 && RELAY_CMDS[k] == Command(k.channel as byte, k.on) &&
              WellFormed(RELAY_CMDS[k])
  {
  }
}

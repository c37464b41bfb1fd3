/**
 * The Hall-sensor diagnostic of the motor control board (libs/libcs_mcb/libs/mcb_V1.4.7.py):
 * the single-register read request of `read_reg`, the rule that turns a reply into a
 * value or None, and the monitoring loop of `main` that counts sensor changes and
 * judges the sensor.
 *
 * The packet codec lives in a vendor DLL and the exchange runs over a serial port; both
 * are abstracted: a request is recorded as the message handed to the codec, and a reply
 * as what the codec's parse reported together with the registers it left behind.
 */
module McbHall {
  import opened Common
  import PpxPacket

  const MCB_DEV_ID: byte := 0x20

  // Register numbers.
  const REG_HW_VERSION: int := 3
  const REG_HALL_STATE: int := 15
  const REG_BUS_VOLT: int := 10

  /** The sensor is judged working when it changed more often than this. */
  const MIN_CHANGES: nat := 5

  newtype uint16 = x: int | 0 <= x < 0x1_0000

  /** The region message handed to the codec (ppx_region_msg_t, its exception triple left zero). */
  datatype RegionMsg = RegionMsg(id: byte, cmd: byte, msgType: byte, regAddr: byte, regNums: byte)

  /**
   * The request `read_reg(reg)` builds: a READ of one register of the motor board.
   * The register number is stored in an 8-bit field, so it is taken modulo 256.
   */
  function ReadRequest(reg: int): (m: RegionMsg)
    ensures m.id as bv8 == PpxPacket.ID_MCB
    ensures PpxPacket.IsReq(m.cmd as bv8) && PpxPacket.Msg(m.cmd as bv8) == PpxPacket.MSG_READ
    ensures m.regNums == 1
    ensures m.regAddr as int == reg % 256
    ensures 0 <= reg < 256 ==> m.regAddr as int == reg
  {
    RegionMsg(MCB_DEV_ID, 0x01, 0, (reg % 256) as byte, 1)
  }

  /**
   * One serial exchange: either nothing was waiting after the request, or some bytes
   * were received and the codec's parse returned `parseStatus`, leaving the board's
   * register image with the given Hall state and bus voltage.
   */
  datatype Reply = Silent | Received(parseStatus: int, hallState: byte, busVoltage: uint16)

  /**
   * The value `read_reg(reg)` returns for a reply: a register value only when the parse
   * succeeded and the register is the Hall state or the bus voltage, otherwise None.
   */
  function ReadResult(reg: int, reply: Reply): (r: Option<int>)
    ensures r.Some? <==> reply.Received? && reply.parseStatus == 1 &&
                         (reg == REG_HALL_STATE || reg == REG_BUS_VOLT)
    ensures r.Some? && reg == REG_HALL_STATE ==> r.value == reply.hallState as int && 0 <= r.value < 256
    ensures r.Some? && reg == REG_BUS_VOLT ==> r.value == reply.busVoltage as int && 0 <= r.value < 0x1_0000
  {
    match reply
    case Silent => None
    case Received(status, hall, volt) =>
      if status != 1 then None
      else if reg == REG_HALL_STATE then Some(hall as int)
      else if reg == REG_BUS_VOLT then Some(volt as int)
      else None
  }

  /** The test engine; `written` is every request it has sent, oldest first. */
  class TestEngine {
    var written: seq<RegionMsg>

    constructor ()
      ensures written == []
    {
      written := [];
    }

    /** `read_reg`: sends one single-register read request and interprets the reply. */
    method ReadReg(reg: int, reply: Reply) returns (r: Option<int>)
      modifies this
      ensures written == old(written) + [ReadRequest(reg)]
      ensures r == ReadResult(reg, reply)
    {
      var msg := ReadRequest(reg);
      written := written + [msg];
      r := ReadResult(reg, reply);
    }
  }

  /** The label printed beside a Hall reading. */
  datatype Label = Normal | Abnormal

  /** A reading of 0 or 7 is a broken or unplugged sensor; anything else is labelled normal. */
  function HallLabel(h: int): (l: Label)
    ensures l == Abnormal <==> h == 0 || h == 7
    ensures 1 <= h <= 6 ==> l == Normal
  {
    if h == 0 || h == 7 then Abnormal else Normal
  }

  /** A line printed by the monitor: a new reading and its label. */
  datatype Report = Report(hall: int, status: Label)

  /** The monitor's variables `last_hall` and `change_count`, and the lines it printed. */
  datatype Monitor = Monitor(lastHall: int, changeCount: nat, log: seq<Report>)

  const Start := Monitor(-1, 0, [])

  /** Is `v` one of the six valid Hall codes? */
  predicate ValidHall(v: int)
  {
    1 <= v <= 6
  }

  /** The effect of one loop iteration with reading `h`. */
  function Step(s: Monitor, h: Option<int>): Monitor
  {
    match h
    case None => s
    case Some(v) =>
      if v == s.lastHall then s
      else Monitor(v, s.changeCount + (if ValidHall(v) then 1 else 0), s.log + [Report(v, HallLabel(v))])
  }

  /** The monitor after the readings `rs`, taken in order from the start state. */
  function Scan(rs: seq<Option<int>>): Monitor
  {
    if rs == [] then Start else Step(Scan(rs[..|rs| - 1]), rs[|rs| - 1])
  }

  /** The number of readings that are present and a valid Hall code. */
  function ValidCount(rs: seq<Option<int>>): (n: nat)
    ensures n <= |rs|
  {
    if rs == [] then 0
    else ValidCount(rs[..|rs| - 1]) + (if rs[|rs| - 1].Some? && ValidHall(rs[|rs| - 1].value) then 1 else 0)
  }

  /** The latest reading that is present, if any. */
  function LatestReading(rs: seq<Option<int>>): Option<int>
  {
    if rs == [] then None
    else if rs[|rs| - 1].Some? then rs[|rs| - 1]
    else LatestReading(rs[..|rs| - 1])
  }

  /** The verdict of the diagnostic. */
  predicate Working(s: Monitor)
  {
    s.changeCount > MIN_CHANGES
  }

  /** A missing reading leaves the monitor unchanged, whatever its state. */
  lemma MissingReadingIgnored(rs: seq<Option<int>>)
    ensures Scan(rs + [None]) == Scan(rs)
  {
    assert (rs + [None])[..|rs|] == rs;
  }

  /**
   * `change_count` grows by one exactly when a reading differs from `last_hall` and is a
   * valid code; `last_hall` follows every differing reading, valid or not, and exactly the
   * differing readings are printed, each with its label.
   */
  lemma StepEffect(s: Monitor, v: int)
    ensures Step(s, Some(v)).lastHall == v
    ensures Step(s, Some(v)).changeCount == s.changeCount + (if v != s.lastHall && ValidHall(v) then 1 else 0)
    ensures Step(s, Some(v)).log == s.log + (if v != s.lastHall then [Report(v, HallLabel(v))] else [])
  {
  }

  /** `last_hall` is always the latest present reading, or -1 before the first one. */
  lemma {:induction false} LastHallIsLatest(rs: seq<Option<int>>)
    ensures Scan(rs).lastHall == (if LatestReading(rs).Some? then LatestReading(rs).value else -1)
  {
    if rs != [] {
      LastHallIsLatest(rs[..|rs| - 1]);
    }
  }

  /** Only valid readings can be counted, so the count never exceeds their number. */
  lemma {:induction false} ChangeCountBound(rs: seq<Option<int>>)
    ensures Scan(rs).changeCount <= ValidCount(rs)
  {
    if rs != [] {
      ChangeCountBound(rs[..|rs| - 1]);
    }
  }

  /** A sensor that reports only 0, 7 or other invalid codes is never counted as changing. */
  lemma {:induction false} NoValidReadingNoChange(rs: seq<Option<int>>)
    requires forall i :: 0 <= i < |rs| && rs[i].Some? ==> !ValidHall(rs[i].value)
    ensures Scan(rs).changeCount == 0
    ensures !Working(Scan(rs))
  {
    if rs != [] {
      NoValidReadingNoChange(rs[..|rs| - 1]);
    }
  }

  /** A sensor stuck at one value changes at most once (from the initial -1) and is judged broken. */
  lemma {:induction false} StuckSensorFails(rs: seq<Option<int>>, v: int)
    requires forall i :: 0 <= i < |rs| && rs[i].Some? ==> rs[i].value == v
    ensures Scan(rs).changeCount <= 1
    ensures Scan(rs).lastHall == -1 || Scan(rs).lastHall == v
    ensures Scan(rs).lastHall == -1 ==> Scan(rs).changeCount == 0
    ensures !Working(Scan(rs))
  {
    if rs != [] {
      StuckSensorFails(rs[..|rs| - 1], v);
    }
  }

  /** The readings that are present, in order. */
  function Present(rs: seq<Option<int>>): (vs: seq<int>)
    ensures |vs| <= |rs|
  {
    if rs == [] then []
    else Present(rs[..|rs| - 1]) + (if rs[|rs| - 1].Some? then [rs[|rs| - 1].value] else [])
  }

  /** The last of `vs`, or `prev` when there is none. */
  function LastOr(vs: seq<int>, prev: int): int
  {
    if vs == [] then prev else vs[|vs| - 1]
  }

  /** `vs` with every value equal to the one before it dropped; `prev` stands before the first. */
  function Changes(vs: seq<int>, prev: int): (cs: seq<int>)
    ensures |cs| <= |vs|
  {
    if vs == [] then []
    else (if vs[0] != prev then [vs[0]] else []) + Changes(vs[1..], vs[0])
  }

  /** The printed line of each value in `hs`. */
  function Reports(hs: seq<int>): (ls: seq<Report>)
    ensures |ls| == |hs|
  {
    seq(|hs|, i requires 0 <= i < |hs| => Report(hs[i], HallLabel(hs[i])))
  }

  /** Appending a value to `vs` keeps it exactly when it differs from the value before it. */
  lemma {:induction false} ChangesSnoc(vs: seq<int>, prev: int, v: int)
    ensures Changes(vs + [v], prev) == Changes(vs, prev) + (if v != LastOr(vs, prev) then [v] else [])
    decreases |vs|
  {
    if vs == [] {
      assert ([] + [v])[1..] == [];
    } else {
      assert (vs + [v])[0] == vs[0] && (vs + [v])[1..] == vs[1..] + [v];
      ChangesSnoc(vs[1..], vs[0], v);
      assert LastOr(vs[1..], vs[0]) == LastOr(vs, prev);
    }
  }

  /**
   * The printed lines are exactly the present readings with every repeat of the previous
   * reading dropped (and a first reading of -1 dropped), each with its label; `last_hall`
   * is the last present reading, or -1.
   */
  lemma {:induction false} LogIsChanges(rs: seq<Option<int>>)
    ensures Scan(rs).log == Reports(Changes(Present(rs), -1))
    ensures Scan(rs).lastHall == LastOr(Present(rs), -1)
  {
    if rs != [] {
      var p, x := rs[..|rs| - 1], rs[|rs| - 1];
      LogIsChanges(p);
      var vs := Present(p);
      if x.Some? {
        var v := x.value;
        assert Present(rs) == vs + [v];
        ChangesSnoc(vs, -1, v);
        var c := Changes(vs, -1);
        if v != Scan(p).lastHall {
          assert Reports(c + [v]) == Reports(c) + [Report(v, HallLabel(v))];
        }
      } else {
        assert vs + [] == vs;
        assert Present(rs) == vs;
      }
    }
  }

  /**
   * The printed lines, read off one by one: each carries its reading's label, no two
   * consecutive lines show the same reading, the last one shows the current `last_hall`,
   * and there is at most one counted change per line.
   */
  lemma {:induction false} LogRecordsChanges(rs: seq<Option<int>>)
    ensures var s := Scan(rs);
      && (forall k :: 0 <= k < |s.log| ==> s.log[k].status == HallLabel(s.log[k].hall))
      && (forall k :: 0 < k < |s.log| ==> s.log[k].hall != s.log[k - 1].hall)
      && (|s.log| == 0 ==> s.lastHall == -1)
      && (|s.log| > 0 ==> s.log[|s.log| - 1].hall == s.lastHall && s.log[0].hall != -1)
      && s.changeCount <= |s.log|
  {
    if rs != [] {
      LogRecordsChanges(rs[..|rs| - 1]);
    }
  }

  /** A working verdict needs more than five valid readings. */
  lemma WorkingNeedsValidReadings(rs: seq<Option<int>>)
    requires Working(Scan(rs))
    ensures ValidCount(rs) > MIN_CHANGES
  {
    ChangeCountBound(rs);
  }

  /** The monitoring loop of `main` over the readings of `read_reg(REG_HALL_STATE)`, one per iteration. */
  method MonitorHall(readings: seq<Option<int>>) returns (lastHall: int, changeCount: nat, log: seq<Report>)
    ensures Monitor(lastHall, changeCount, log) == Scan(readings)
    ensures changeCount <= ValidCount(readings)
  {
    lastHall, changeCount, log := -1, 0, [];
    var i := 0;
    while i < |readings|
      invariant 0 <= i <= |readings|
      invariant Monitor(lastHall, changeCount, log) == Scan(readings[..i])
    {
      var h := readings[i];
      if h.Some? {
        var v := h.value;
        var status := HallLabel(v);
        if v != lastHall {
          log := log + [Report(v, status)];
          lastHall := v;
          if 1 <= v <= 6 {
            changeCount := changeCount + 1;
          }
        }
      }
      assert readings[..i + 1][..i] == readings[..i];
      i := i + 1;
    }
    assert readings[..|readings|] == readings;
    ChangeCountBound(readings);
  }

  /** How `main` ends. */
  datatype Diagnosis =
    | NoVoltage                                                      // stopped before monitoring
    | Diagnosed(working: bool, changeCount: nat, log: seq<Report>)

  /**
   * `main` after setup: the bus-voltage reading gates the monitoring (None and 0 are both
   * falsy in Python), then the Hall readings are monitored and judged.
   */
  method RunDiagnostic(voltage: Option<int>, readings: seq<Option<int>>) returns (d: Diagnosis)
    ensures d.NoVoltage? <==> voltage.None? || voltage.value == 0
    ensures d.Diagnosed? ==> d.changeCount == Scan(readings).changeCount && d.log == Scan(readings).log
    ensures d.Diagnosed? ==> (d.working <==> d.changeCount > MIN_CHANGES)
    ensures d.Diagnosed? && d.working ==> ValidCount(readings) > MIN_CHANGES
  {
    if voltage.None? || voltage.value == 0 {
      return NoVoltage;
    }
    var lastHall, changeCount, log := MonitorHall(readings);
    d := Diagnosed(changeCount > MIN_CHANGES, changeCount, log);
  }
}

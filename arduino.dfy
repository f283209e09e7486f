/**
 * The host side of arduino_controller.py: a FIFO of command lines filled by the aiming code
 * and drained towards the serial port, and the `connected` flag driven by the PONG handshake
 * and by failed exchanges. The serial port is an oracle: each exchange either fails on write,
 * fails while reading, or yields the stripped reply line ("" when readline timed out).
 */
module Arduino {
  import opened Wrappers
  import opened Config
  import opened Geometry
  import opened Vision
  import opened Correction
  import opened Protocol

  /** The outcome of writing one line and reading one line back. */
  datatype Exchange = Reply(line: string) | WriteError | ReadError

  /**
   * `self.arduino`: no port object yet, an open port, or a port object that has been closed
   * (the attribute keeps the closed object).
   */
  datatype Port = NoPort | Open | Closed

  /** The `connected` flag and the lines written to the port so far. */
  datatype Link = Link(connected: bool, written: seq<string>)

  /**
   * send_command: with the flag down or no port object nothing is written. Writing to a
   * closed port raises, as does a failed write: nothing is written and the flag is lowered.
   * A failed read happens after the write and lowers the flag. A reply leaves the flag up.
   */
  function SendStep(l: Link, port: Port, cmd: string, ex: Exchange): (r: Link)
    ensures !l.connected || port.NoPort? ==> r == l
    ensures l.connected && port.Closed? ==> r == Link(false, l.written)
    ensures l.connected && port.Open? && !ex.Reply? ==> !r.connected
    ensures l.connected && port.Open? && ex.Reply? ==> r == Link(true, l.written + [cmd])
    ensures l.connected && port.Open? ==> (r.written == l.written + [cmd] <==> !ex.WriteError?)
    ensures r.connected ==> l.connected
    ensures r.written == l.written || r.written == l.written + [cmd]
  {
    if !l.connected || port.NoPort? then l
    else if port.Closed? then Link(false, l.written)
    else
      match ex
      case WriteError => Link(false, l.written)
      case ReadError => Link(false, l.written + [cmd])
      case Reply(_) => Link(true, l.written + [cmd])
  }

  /** send_command's result: true exactly when a line was written to an open port and the reply was "OK". */
  predicate Acked(l: Link, port: Port, ex: Exchange) {
    l.connected && port.Open? && ex.Reply? && ex.line == "OK"
  }

  /** The reply to the i-th exchange of a drain; exchanges beyond the oracle time out. */
  function ExchangeAt(replies: seq<Exchange>, i: nat): Exchange {
    if i < |replies| then replies[i] else Reply("")
  }

  /** The commands of one drain sent one after the other, in order. */
  function Deliver(l: Link, port: Port, cmds: seq<string>, replies: seq<Exchange>): Link {
    if cmds == [] then l
    else SendStep(Deliver(l, port, cmds[..|cmds| - 1], replies), port, cmds[|cmds| - 1], ExchangeAt(replies, |cmds| - 1))
  }

  /**
   * A drain writes a prefix of its commands, in enqueue order and each at most once, after
   * what was already written; the flag is never raised by it.
   */
  lemma {:induction false} DeliverWritesPrefix(l: Link, port: Port, cmds: seq<string>, replies: seq<Exchange>)
    ensures var r := Deliver(l, port, cmds, replies);
      (r.connected ==> l.connected)
      && exists k :: 0 <= k <= |cmds| && r.written == l.written + cmds[..k]
  {
    if cmds == [] {
      assert l.written == l.written + cmds[..0];
    } else {
      var init := cmds[..|cmds| - 1];
      DeliverWritesPrefix(l, port, init, replies);
      var m := Deliver(l, port, init, replies);
      var k :| 0 <= k <= |init| && m.written == l.written + init[..k];
      assert init[..k] == cmds[..k];
      var r := Deliver(l, port, cmds, replies);
      if r.written != m.written {
        // A line was written, so no exchange before it failed: all of init went out.
        assert m.connected;
        DeliverConnectedWroteAll(l, port, init, replies);
        assert m.written == l.written + init;
        assert r.written == l.written + cmds[..|cmds|];
      }
    }
  }

  /** While the flag stays up through a drain over a port object, every command of it was written. */
  lemma {:induction false} DeliverConnectedWroteAll(l: Link, port: Port, cmds: seq<string>, replies: seq<Exchange>)
    requires !port.NoPort? && Deliver(l, port, cmds, replies).connected
    ensures Deliver(l, port, cmds, replies).written == l.written + cmds
  {
    if cmds != [] {
      var init := cmds[..|cmds| - 1];
      DeliverConnectedWroteAll(l, port, init, replies);
      assert init + [cmds[|cmds| - 1]] == cmds;
    }
  }

  /** Over a closed port a drain writes nothing, and a non-empty one leaves the flag down. */
  lemma {:induction false} DeliverClosedWritesNothing(l: Link, cmds: seq<string>, replies: seq<Exchange>)
    ensures Deliver(l, Closed, cmds, replies).written == l.written
    ensures cmds != [] ==> !Deliver(l, Closed, cmds, replies).connected
  {
    if cmds != [] {
      DeliverClosedWritesNothing(l, cmds[..|cmds| - 1], replies);
    }
  }

  /** When the board answers every exchange, a connected controller writes the whole drain in order and stays connected. */
  lemma {:induction false} DeliverAllAnswered(l: Link, port: Port, cmds: seq<string>, replies: seq<Exchange>)
    requires l.connected && port.Open?
    requires forall i :: 0 <= i < |cmds| ==> ExchangeAt(replies, i).Reply?
    ensures Deliver(l, port, cmds, replies) == Link(true, l.written + cmds)
  {
    if cmds != [] {
      var init := cmds[..|cmds| - 1];
      DeliverAllAnswered(l, port, init, replies);
      assert init + [cmds[|cmds| - 1]] == cmds;
    }
  }

  /** A correction within max_adjustment passes move_mouse's clamp unchanged. */
  lemma CorrectionFitsMoveLimit(o: Offset)
    requires -(MaxAdjustment as int) <= o.dx <= MaxAdjustment && -(MaxAdjustment as int) <= o.dy <= MaxAdjustment
    ensures ClampMove(o.dx) == o.dx && ClampMove(o.dy) == o.dy
    ensures (o == Zero) == (o.dx == 0 && o.dy == 0)
  {
  }

  class ArduinoController {
    var connected: bool
    var port: Port
    var queue: seq<string>
    /** Every line written to the serial port, oldest first. */
    var written: seq<string>
    var centerX: int
    var centerY: int
    var monitor: Region

    ghost predicate Valid()
      reads this
    {
      connected ==> !port.NoPort?
    }

    constructor ()
      ensures Valid()
      ensures !connected && port == NoPort && queue == [] && written == []
      ensures centerX == GameWidth / 2 && centerY == GameHeight / 2
      ensures monitor == Region(0, 0, GameWidth, GameHeight)
    {
      connected, port := false, NoPort;
      queue, written := [], [];
      monitor := Region(0, 0, GameWidth, GameHeight);
      centerX, centerY := GameWidth / 2, GameHeight / 2;
    }

    /**
     * connect_to_arduino. `portOpened` says whether serial.Serial could open the port. The flag is
     * raised exactly when the ping is answered "PONG"; on every other outcome the result is
     * false, the flag is left as it was and a port that is open is closed.
     */
    method ConnectToArduino(portOpened: bool, ex: Exchange) returns (ok: bool)
      requires Valid()
      modifies this
      ensures Valid()
      ensures ok <==> portOpened && ex == Reply("PONG")
      ensures ok ==> connected && port == Open
      ensures !ok ==> connected == old(connected) && port != Open
      ensures portOpened ==> port != NoPort
      ensures !portOpened ==> port == (if old(port) == NoPort then NoPort else Closed) && written == old(written)
      ensures portOpened && !ex.WriteError? ==> written == old(written) + [PingCommand]
      ensures portOpened && ex.WriteError? ==> written == old(written)
      ensures queue == old(queue) && centerX == old(centerX) && centerY == old(centerY) && monitor == old(monitor)
    {
      if !portOpened {
        if port == Open {
          port := Closed;
        }
        return false;
      }
      port := Open;
      if !ex.WriteError? {
        written := written + [PingCommand];
      }
      if ex == Reply("PONG") {
        connected := true;
        return true;
      }
      port := Closed;
      return false;
    }

    /** send_command, tied to SendStep; the result is whether the line was acknowledged with "OK". */
    method SendCommand(cmd: string, ex: Exchange) returns (ok: bool)
      requires Valid()
      modifies this`connected, this`written
      ensures Valid()
      ensures Link(connected, written) == SendStep(old(Link(connected, written)), port, cmd, ex)
      ensures ok == Acked(old(Link(connected, written)), port, ex)
    {
      if !connected || port == NoPort {
        return false;
      }
      if port == Closed {
        connected := false;
        return false;
      }
      match ex {
        case WriteError =>
          connected := false;
          ok := false;
        case ReadError =>
          written := written + [cmd];
          connected := false;
          ok := false;
        case Reply(line) =>
          written := written + [cmd];
          ok := line == "OK";
      }
    }

    /** queue_command: the command goes to the back of the queue. */
    method QueueCommand(cmd: string)
      modifies this`queue
      ensures queue == old(queue) + [cmd]
    {
      queue := queue + [cmd];
    }

    /** move_mouse: both amounts clamped into [-127, 127] and queued as one `M` line. */
    method MoveMouse(dx: int, dy: int)
      modifies this`queue
      ensures queue == old(queue) + [MoveCommand(ClampMove(dx), ClampMove(dy))]
    {
      QueueCommand(MoveCommand(ClampMove(dx), ClampMove(dy)));
    }

    /** click_mouse: queues `C,<duration>`; a call without a duration sends DefaultClickMs. */
    method ClickMouse(durationMs: int := DefaultClickMs)
      modifies this`queue
      ensures queue == old(queue) + [ClickCommand(durationMs)]
    {
      QueueCommand(ClickCommand(durationMs));
    }

    /** right_click_mouse: queues `R`. */
    method RightClickMouse()
      modifies this`queue
      ensures queue == old(queue) + [RightClickCommand]
    {
      QueueCommand(RightClickCommand);
    }

    /**
     * One pass of process_command_queue: the whole queue is taken and cleared, then each taken
     * command is sent in order with the corresponding exchange.
     */
    method DrainStep(replies: seq<Exchange>) returns (taken: seq<string>)
      requires Valid()
      modifies this`queue, this`connected, this`written
      ensures Valid()
      ensures taken == old(queue) && queue == []
      ensures Link(connected, written) == Deliver(old(Link(connected, written)), port, taken, replies)
      ensures exists k :: 0 <= k <= |taken| && written == old(written) + taken[..k]
      ensures port == Closed ==> written == old(written) && (taken != [] ==> !connected)
      ensures old(connected) && port == Open && (forall i :: 0 <= i < |taken| ==> ExchangeAt(replies, i).Reply?) ==>
        connected && written == old(written) + taken
    {
      taken := queue;
      queue := [];
      ghost var start := Link(connected, written);
      for i := 0 to |taken|
        invariant Valid() && queue == []
        invariant Link(connected, written) == Deliver(start, port, taken[..i], replies)
      {
        var _ := SendCommand(taken[i], ExchangeAt(replies, i));
        assert taken[..i + 1][..i] == taken[..i];
      }
      assert taken[..|taken|] == taken;
      DeliverWritesPrefix(start, port, taken, replies);
      if port == Closed {
        DeliverClosedWritesNothing(start, taken, replies);
      }
      if start.connected && port == Open && forall i :: 0 <= i < |taken| ==> ExchangeAt(replies, i).Reply? {
        DeliverAllAnswered(start, port, taken, replies);
      }
    }

    /** update_scan_region: the rectangle around the fixed screen centre. */
    method UpdateScanRegion()
      modifies this`monitor
      ensures monitor == ScanRegion(centerX, centerY, ScanRegionSize)
      ensures monitor.left >= 0 && monitor.top >= 0
      ensures monitor.width == ScanRegionSize && monitor.height == ScanRegionSize
    {
      monitor := ScanRegion(centerX, centerY, ScanRegionSize);
    }

    /** process_frame after contour extraction, offsets taken from the current rectangle. */
    method ProcessFrame(blobs: seq<Blob>) returns (target: Option<Point>)
      ensures (forall j :: 0 <= j < |blobs| ==> !Qualifies(blobs[j], MinimumContourArea)) ==> target.None?
      ensures forall k :: IsFirstLargest(blobs, MinimumContourArea, k) ==>
        target == (if blobs[k].m00 > 0.0 then Some(AimPoint(blobs[k], monitor.left, monitor.top, HeadshotOffset)) else None)
    {
      target := LocateTarget(blobs, MinimumContourArea, monitor.left, monitor.top, HeadshotOffset);
    }

    /** calculate_aim_adjustment: reads the centre and computes; nothing is updated. */
    method CalculateAimAdjustment(target: Option<Point>, distance: real, randomFactor: real) returns (o: Offset)
      ensures o == BasicAdjustment(Point(centerX, centerY), target, distance, randomFactor, BasicSettings)
      ensures -(MaxAdjustment as int) <= o.dx <= MaxAdjustment && -(MaxAdjustment as int) <= o.dy <= MaxAdjustment
    {
      o := BasicAdjustment(Point(centerX, centerY), target, distance, randomFactor, BasicSettings);
    }

    /**
     * aim_at_target: a zero correction queues nothing; any other is queued as one `M` line,
     * which the clamp leaves unchanged because the correction is already within 100.
     */
    method AimAtTarget(target: Option<Point>, distance: real, randomFactor: real)
      modifies this`queue
      ensures var o := BasicAdjustment(Point(centerX, centerY), target, distance, randomFactor, BasicSettings);
        queue == old(queue) + (if o == Zero then [] else [MoveCommand(ClampMove(o.dx), ClampMove(o.dy))])
      ensures var o := BasicAdjustment(Point(centerX, centerY), target, distance, randomFactor, BasicSettings);
        ClampMove(o.dx) == o.dx && ClampMove(o.dy) == o.dy
    {
      var o := CalculateAimAdjustment(target, distance, randomFactor);
      ghost var center := Point(centerX, centerY);
      MoveIfNonzero(o);
      assert Point(centerX, centerY) == center;
    }

    /** The tail of aim_at_target: move_mouse is called only for a nonzero correction. */
    method MoveIfNonzero(o: Offset)
      requires -(MaxAdjustment as int) <= o.dx <= MaxAdjustment && -(MaxAdjustment as int) <= o.dy <= MaxAdjustment
      modifies this`queue
      ensures queue == old(queue) + (if o == Zero then [] else [MoveCommand(ClampMove(o.dx), ClampMove(o.dy))])
      ensures ClampMove(o.dx) == o.dx && ClampMove(o.dy) == o.dy
    {
      CorrectionFitsMoveLimit(o);
      if o.dx != 0 || o.dy != 0 {
        MoveMouse(o.dx, o.dy);
      }
    }
  }
}

/**
 * The text protocol between arduino_controller.py and the sketch it prints for the board:
 * the host writes one line per command (`M,dx,dy`, `C,ms`, `R`, `P`) and the sketch parses
 * it with String.startsWith/remove/indexOf/substring/toInt and answers `OK`, `PONG` or
 * `UNKNOWN`. The board's `int` is 16 bits wide and Mouse.move takes signed chars; both
 * narrowings are written out.
 */
module Protocol {

  // ------------------------------------------------------------------ decimal numerals

  predicate IsDigit(c: char) { '0' <= c <= '9' }

  function DigitValue(c: char): nat
    requires IsDigit(c)
  {
    c as int - '0' as int
  }

  function DigitChar(d: nat): (c: char)
    requires d < 10
    ensures IsDigit(c) && DigitValue(c) == d
  {
    ('0' as int + d) as char
  }

  /** The decimal numeral of a natural number, as Python's str() writes it (no leading zeros). */
  function NatToDecimal(n: nat): (s: string)
    ensures 1 <= |s|
    ensures forall i :: 0 <= i < |s| ==> IsDigit(s[i])
    ensures |s| > 1 ==> s[0] != '0'
    decreases n
  {
    if n < 10 then [DigitChar(n)] else NatToDecimal(n / 10) + [DigitChar(n % 10)]
  }

  /** An int formatted by an f-string: a '-' before the magnitude of a negative number. */
  function Decimal(n: int): (s: string)
    ensures 1 <= |s| && (IsDigit(s[0]) || s[0] == '-')
    ensures ',' !in s && ' ' !in s
  {
    if n < 0 then "-" + NatToDecimal(-n) else NatToDecimal(n)
  }

  /** The value of a string of digits, most significant first. */
  function ValueOf(ds: string): nat
    requires forall i :: 0 <= i < |ds| ==> IsDigit(ds[i])
  {
    if ds == [] then 0 else ValueOf(ds[..|ds| - 1]) * 10 + DigitValue(ds[|ds| - 1])
  }

  /** Length of the run of digits at the front of `s`. */
  function DigitRun(s: string): (n: nat)
    ensures n <= |s|
    ensures forall i :: 0 <= i < n ==> IsDigit(s[i])
    ensures n < |s| ==> !IsDigit(s[n])
  {
    if |s| == 0 || !IsDigit(s[0]) then 0 else 1 + DigitRun(s[1..])
  }

  /** isspace() of the C library: space, tab, newline, vertical tab, form feed, carriage return. */
  predicate IsSpace(c: char) { c == ' ' || 9 <= c as int <= 13 }

  /** Length of the run of white space at the front of `s`. */
  function SpaceRun(s: string): (n: nat)
    ensures n <= |s|
    ensures forall i :: 0 <= i < n ==> IsSpace(s[i])
    ensures n < |s| ==> !IsSpace(s[n])
  {
    if |s| == 0 || !IsSpace(s[0]) then 0 else 1 + SpaceRun(s[1..])
  }

  /**
   * String.toInt, which is atol(): leading white space is skipped, an optional sign is read,
   * then the longest run of digits; no digits give 0 and the rest of the string is ignored.
   */
  function Atol(s: string): (v: int)
    ensures SpaceRun(s) == |s| ==> v == 0
  {
    var t := s[SpaceRun(s)..];
    if |t| > 0 && (t[0] == '-' || t[0] == '+') then
      var u := t[1..];
      var m: int := ValueOf(u[..DigitRun(u)]);
      if t[0] == '-' then -m else m
    else
      ValueOf(t[..DigitRun(t)])
  }

  /** Reading back a numeral gives the number. */
  lemma {:induction false} ValueOfNatToDecimal(n: nat)
    ensures ValueOf(NatToDecimal(n)) == n
    decreases n
  {
    var s := NatToDecimal(n);
    if n >= 10 {
      ValueOfNatToDecimal(n / 10);
      assert s[..|s| - 1] == NatToDecimal(n / 10);
    }
  }

  /** toInt inverts the host's formatting of every integer. */
  lemma DecimalRoundTrip(n: int)
    ensures Atol(Decimal(n)) == n
  {
    var s := Decimal(n);
    assert !IsSpace(s[0]);
    assert s[SpaceRun(s)..] == s;
    if n < 0 {
      var u := s[1..];
      assert u == NatToDecimal(-n);
      assert DigitRun(u) == |u|;
      assert u[..DigitRun(u)] == u;
      ValueOfNatToDecimal(-n);
    } else {
      assert DigitRun(s) == |s|;
      assert s[..DigitRun(s)] == s;
      ValueOfNatToDecimal(n);
    }
  }

  // ------------------------------------------------------------------ host side

  const MoveLimit: nat := 127
  /** The duration click_mouse sends when called without one, and the board's fallback. */
  const DefaultClickMs: int := 50

  /** max(-127, min(127, v)) of move_mouse. */
  function ClampMove(v: int): (r: int)
    ensures -(MoveLimit as int) <= r <= MoveLimit
    ensures -(MoveLimit as int) <= v <= MoveLimit ==> r == v
    ensures v > MoveLimit ==> r == MoveLimit
    ensures v < -(MoveLimit as int) ==> r == -(MoveLimit as int)
  {
    if v > MoveLimit then MoveLimit else if v < -(MoveLimit as int) then -(MoveLimit as int) else v
  }

  const RightClickCommand: string := "R"
  const PingCommand: string := "P"

  // ------------------------------------------------------------------ board side

  /** Two's-complement narrowing to the board's 16-bit int. */
  function Wrap16(x: int): (r: int)
    ensures -0x8000 <= r < 0x8000
    ensures (r - x) % 0x1_0000 == 0
    ensures -0x8000 <= x < 0x8000 ==> r == x
  {
    (x + 0x8000) % 0x1_0000 - 0x8000
  }

  /** Two's-complement narrowing to the signed char Mouse.move takes. */
  function Wrap8(x: int): (r: int)
    ensures -0x80 <= r < 0x80
    ensures (r - x) % 0x100 == 0
    ensures -0x80 <= x < 0x80 ==> r == x
  {
    (x + 0x80) % 0x100 - 0x80
  }

  predicate StartsWith(s: string, c: char) { |s| > 0 && s[0] == c }

  /** String.remove(0, 2): drops the first two characters, or all of a shorter string. */
  function DropTwo(s: string): (r: string)
    ensures |s| >= 2 ==> r == s[2..]
    ensures |s| < 2 ==> r == []
  {
    if |s| >= 2 then s[2..] else []
  }

  /** String.indexOf(c): the first position of `c`, or -1. */
  function IndexOf(s: string, c: char): (i: int)
    ensures -1 <= i < |s|
    ensures i == -1 <==> c !in s
    ensures 0 <= i ==> s[i] == c && forall j :: 0 <= j < i ==> s[j] != c
  {
    if |s| == 0 then -1
    else if s[0] == c then 0
    else
      var k := IndexOf(s[1..], c);
      if k < 0 then -1 else k + 1
  }

  /** What the board does with one received line. */
  datatype DeviceAction =
    | Move(dx: int, dy: int)   // Mouse.move with these signed-char amounts, then "OK"
    | Click(ms: int)           // left button held for ms milliseconds, then "OK"
    | RightClick               // right button held 50 ms, then "OK"
    | Pong                     // "PONG"
    | Unknown                  // "UNKNOWN"
    | Ignored                  // an M line without a comma after its first number: no answer

  /**
   * The sketch's loop body for one line. An `M` line needs a comma at a position after the
   * first character of the remainder, otherwise it is dropped without an answer; a `C` line
   * whose duration is not positive (as a 16-bit int) clicks for 50 ms.
   */
  function DeviceHandle(line: string): (a: DeviceAction)
    ensures a.Move? <==> StartsWith(line, 'M') && IndexOf(DropTwo(line), ',') > 0
    ensures a.Ignored? <==> StartsWith(line, 'M') && IndexOf(DropTwo(line), ',') <= 0
    ensures a.Click? <==> StartsWith(line, 'C')
    ensures a.RightClick? <==> StartsWith(line, 'R')
    ensures a.Pong? <==> StartsWith(line, 'P')
    ensures a.Unknown? <==> |line| == 0 || line[0] !in {'M', 'C', 'R', 'P'}
    ensures a.Move? ==> -0x80 <= a.dx < 0x80 && -0x80 <= a.dy < 0x80
    ensures a.Click? ==> 0 < a.ms < 0x8000
  {
    if StartsWith(line, 'M') then
      var s := DropTwo(line);
      var ci := IndexOf(s, ',');
      if ci > 0 then Move(Wrap8(Wrap16(Atol(s[..ci]))), Wrap8(Wrap16(Atol(s[ci + 1..]))))
      else Ignored
    else if StartsWith(line, 'C') then
      var d := Wrap16(Atol(DropTwo(line)));
      Click(if d <= 0 then DefaultClickMs else d)
    else if StartsWith(line, 'R') then RightClick
    else if StartsWith(line, 'P') then Pong
    else Unknown
  }

  /**
   * The stripped line the host reads back: Serial.println's text, or "" when the board stays
   * silent and readline times out.
   */
  function DeviceReply(a: DeviceAction): (r: string)
    ensures r == "OK" <==> a.Move? || a.Click? || a.RightClick?
    ensures r == "PONG" <==> a.Pong?
    ensures r == "UNKNOWN" <==> a.Unknown?
    ensures r == "" <==> a.Ignored?
  {
    match a
    case Move(_, _) => "OK"
    case Click(_) => "OK"
    case RightClick => "OK"
    case Pong => "PONG"
    case Unknown => "UNKNOWN"
    case Ignored => ""
  }

  // ------------------------------------------------------------------ round trips

  /** An `M` line whose first field is non-empty and comma-free moves by the two fields' values. */
  lemma ParseMoveLine(a: string, b: string)
    requires |a| > 0 && ',' !in a
    ensures DeviceHandle("M," + a + "," + b) == Move(Wrap8(Wrap16(Atol(a))), Wrap8(Wrap16(Atol(b))))
  {
    var line := "M," + a + "," + b;
    var s := DropTwo(line);
    assert s == a + "," + b;
    var n := |a|;
    assert s[n] == ',';
    assert IndexOf(s, ',') == n by {
      forall j | 0 <= j < n ensures s[j] != ',' {
        assert s[j] == a[j];
      }
    }
    assert s[..n] == a;
    assert s[n + 1..] == b;
  }

  /**
   * The `M,dx,dy` line of move_mouse. The board's handler moves by both amounts, narrowed to
   * its 16-bit int and then to Mouse.move's signed char.
   */
  function MoveCommand(dx: int, dy: int): (line: string)
    ensures StartsWith(line, 'M')
    ensures DeviceHandle(line) == Move(Wrap8(Wrap16(dx)), Wrap8(Wrap16(dy)))
  {
    ParseMoveLine(Decimal(dx), Decimal(dy));
    DecimalRoundTrip(dx);
    DecimalRoundTrip(dy);
    "M," + Decimal(dx) + "," + Decimal(dy)
  }

  /**
   * The `C,ms` line of click_mouse. The board clicks for the duration narrowed to its 16-bit
   * int, or for 50 ms when that is not positive.
   */
  function ClickCommand(ms: int): (line: string)
    ensures StartsWith(line, 'C')
    ensures DeviceHandle(line) == Click(if Wrap16(ms) <= 0 then DefaultClickMs else Wrap16(ms))
  {
    var line := "C," + Decimal(ms);
    assert DropTwo(line) == Decimal(ms);
    DecimalRoundTrip(ms);
    line
  }

  /** A clamped amount survives both narrowings on the board. */
  lemma NarrowingKeepsMove(v: int)
    requires -(MoveLimit as int) <= v <= MoveLimit
    ensures Wrap8(Wrap16(v)) == v
  {
  }

  /** Every move the host sends, once clamped, reaches Mouse.move unchanged, and is acknowledged. */
  lemma MoveRoundTrip(dx: int, dy: int)
    ensures DeviceHandle(MoveCommand(ClampMove(dx), ClampMove(dy))) == Move(ClampMove(dx), ClampMove(dy))
    ensures DeviceReply(Move(ClampMove(dx), ClampMove(dy))) == "OK"
  {
    NarrowingKeepsMove(ClampMove(dx));
    NarrowingKeepsMove(ClampMove(dy));
  }

  /**
   * A click duration that fits the board's int reaches it unchanged when positive and becomes
   * the 50 ms default otherwise; either way it is acknowledged.
   */
  lemma ClickRoundTrip(ms: int)
    requires -0x8000 <= ms < 0x8000
    ensures DeviceHandle(ClickCommand(ms)) == Click(if ms <= 0 then DefaultClickMs else ms)
    ensures DeviceReply(DeviceHandle(ClickCommand(ms))) == "OK"
  {
  }

  /** The remaining two commands: a right click is acknowledged, a ping is answered PONG. */
  lemma FixedCommandsAnswered()
    ensures DeviceHandle(RightClickCommand) == RightClick && DeviceReply(RightClick) == "OK"
    ensures DeviceHandle(PingCommand) == Pong && DeviceReply(Pong) == "PONG"
  {
  }
}

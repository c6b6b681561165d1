/**
 * The telemetry decoder `DataFormatter` of src/core.py: a two-phase machine
 * that first reads handshake lines switching on the optional magnetometer
 * and temperature fields, then, after "Start", accepts whitespace-separated
 * records whose token count matches the negotiated layout, and exposes typed
 * accessors over fixed token slots.
 *
 * The value `Decoder` is the decoder's state; its member functions are the
 * source's read-only properties and accessors, and `Parse`/`InitLine` are
 * what `parse_data`/`parse_init_state` do to it. The class `DataFormatter`
 * holds the same four fields and updates them in place.
 */
module Core {
  import opened Wrappers
  import opened Text

  /** `init_state` (0) and `in_process` (1). */
  datatype Phase = InitState | InProcess

  const MagnetometerLine := "Magnetometer True"
  const TemperatureLine := "Temperature True"
  const StartLine := "Start"

  /** Accelerometer readings arrive in g and are reported in m/s². */
  const GravityScale: real := 9.8

  /**
   * `parsed_data`: after a handshake line it is that line itself (a Python
   * `str`), after an accepted record it is the record's token list.
   */
  datatype Record = Raw(line: string) | Tokens(tokens: seq<string>) {

    function Length(): nat {
      match this
      case Raw(line) => |line|
      case Tokens(tokens) => |tokens|
    }

    /**
     * `parsed_data[i]`: a token, or a one-character string when the record
     * is a raw line; `None` where Python raises IndexError.
     */
    function Item(i: nat): (r: Option<string>)
      ensures r.Some? <==> i < Length()
    {
      match this
      case Raw(line) => if i < |line| then Some([line[i]]) else None
      case Tokens(tokens) => if i < |tokens| then Some(tokens[i]) else None
    }

    /** `float(parsed_data[i])`; `None` on IndexError or ValueError. */
    function Field(i: nat): Option<real> {
      match Item(i)
      case Some(t) => ParseReal(t)
      case None => None
    }

    /** Slots `first`, `first + 1` and `first + 2` all exist and parse. */
    predicate FieldsPresent(first: nat) {
      Field(first).Some? && Field(first + 1).Some? && Field(first + 2).Some?
    }

    /** Three consecutive fields, all or nothing (the accessors' try blocks). */
    function Triple(first: nat, scale: real): Option<seq<real>> {
      var a, b, c := Field(first), Field(first + 1), Field(first + 2);
      if a.Some? && b.Some? && c.Some? then Some([a.value * scale, b.value * scale, c.value * scale])
      else None
    }
  }

  datatype Decoder = Decoder(state: Phase, magnetometer: bool, temperature: bool, parsedData: Record) {

    /** `has_init`; the two phase properties always disagree. */
    predicate HasInit(): (b: bool)
      ensures b <==> !HasInProcess()
    {
      state == InitState
    }

    /** `has_in_process`. */
    predicate HasInProcess() {
      state == InProcess
    }

    /** `count_digits`: six fields, three more with a magnetometer; temperature is not counted. */
    function CountDigits(): (n: nat)
      ensures n == 6 || n == 9
      ensures n == 9 <==> magnetometer
    {
      if magnetometer then 9 else 6
    }

    /** `parse_init_state`: the exact handshake lines switch flags on or start streaming. */
    function InitLine(line: string): (r: Decoder)
      ensures magnetometer ==> r.magnetometer
      ensures temperature ==> r.temperature
      ensures HasInProcess() ==> r.HasInProcess()
      ensures r.parsedData == Raw(line)
    {
      Decoder(
        if line == StartLine then InProcess else state,
        magnetometer || line == MagnetometerLine,
        temperature || line == TemperatureLine,
        Raw(line))
    }

    /**
     * `parse_data`: the new state and the value returned (`None` for an
     * empty line, `False` for a rejected record, `True` otherwise).
     */
    function Parse(line: string): (r: Parsed)
      ensures r.result == None <==> line == ""
      ensures r.result == Some(false) ==> r.next == this
      ensures HasInProcess() ==>
        r.next.HasInProcess() && r.next.magnetometer == magnetometer && r.next.temperature == temperature
    {
      if line == "" then
        Parsed(this, None)
      else if HasInit() then
        Parsed(InitLine(line), Some(true))
      else
        var tokens := Split(line);
        if |tokens| != CountDigits() then Parsed(this, Some(false))
        else Parsed(this.(parsedData := Tokens(tokens)), Some(true))
    }

    /** `get_accel_data`: slots 0..2, scaled from g to m/s². */
    function GetAccelData(): (r: Option<seq<real>>)
      ensures r.Some? ==> HasInProcess() && |r.value| == 3
    {
      if HasInProcess() then parsedData.Triple(0, GravityScale) else None
    }

    /** `get_gyro_data`: slots 3..5. */
    function GetGyroData(): (r: Option<seq<real>>)
      ensures r.Some? ==> HasInProcess() && |r.value| == 3
    {
      if HasInProcess() then parsedData.Triple(3, 1.0) else None
    }

    /** `get_mag_data`: slots 6..8, only with a magnetometer. */
    function GetMagData(): (r: Option<seq<real>>)
      ensures r.Some? ==> HasInProcess() && magnetometer && |r.value| == 3
    {
      if HasInProcess() && magnetometer then parsedData.Triple(6, 1.0) else None
    }

    /** `get_temp`: slot 9 with a magnetometer, slot 6 without, only with temperature. */
    function GetTemp(): (r: Option<real>)
      ensures r.Some? ==> HasInProcess() && temperature
    {
      if HasInProcess() && temperature then parsedData.Field(if magnetometer then 9 else 6) else None
    }
  }

  datatype Parsed = Parsed(next: Decoder, result: Option<bool>)

  /** The state `__init__` and `set_initial_state` establish. */
  function Initial(): Decoder {
    Decoder(InitState, false, false, Tokens([]))
  }

  /** The decoder after feeding it `lines`, one `parse_data` call each. */
  function Run(d: Decoder, lines: seq<string>): Decoder
    decreases |lines|
  {
    if lines == [] then d else Run(d.Parse(lines[0]).next, lines[1..])
  }

  /** The lines the decoder reads in the handshake phase: those before the first "Start". */
  function Handshake(lines: seq<string>): seq<string> {
    if lines == [] || lines[0] == StartLine then [] else [lines[0]] + Handshake(lines[1..])
  }

  /**
   * What every reachable state satisfies: once streaming, the record is the
   * "Start" line that began streaming or a token list of exactly
   * `count_digits` tokens.
   */
  predicate Consistent(d: Decoder) {
    d.HasInProcess() ==>
      d.parsedData == Raw(StartLine) || (d.parsedData.Tokens? && |d.parsedData.tokens| == d.CountDigits())
  }

  // -----------------------------------------------------------------------
  // One call of parse_data
  // -----------------------------------------------------------------------

  /** An empty line changes nothing and yields `None`. */
  lemma ParseEmpty(d: Decoder)
    ensures d.Parse("") == Parsed(d, None)
  {
  }

  /** In the handshake phase every non-empty line yields `True` and becomes the record. */
  lemma ParseHandshake(d: Decoder, line: string)
    requires d.HasInit() && line != ""
    ensures d.Parse(line).result == Some(true)
    ensures d.Parse(line).next.parsedData == Raw(line)
    ensures d.Parse(line).next.HasInProcess() <==> line == StartLine
    ensures d.Parse(line).next.magnetometer <==> d.magnetometer || line == MagnetometerLine
    ensures d.Parse(line).next.temperature <==> d.temperature || line == TemperatureLine
  {
  }

  /**
   * While streaming, a line is accepted exactly when its token count is
   * `count_digits`; an accepted line replaces the record wholesale, a
   * rejected one leaves the whole state as it was. Flags and phase never move.
   */
  lemma ParseStreaming(d: Decoder, line: string)
    requires d.HasInProcess() && line != ""
    ensures var p := d.Parse(line);
      && p.result.Some?
      && (p.result.value <==> |Split(line)| == d.CountDigits())
      && (p.result.value ==> p.next == d.(parsedData := Tokens(Split(line))))
      && (!p.result.value ==> p.next == d)
  {
  }

  /** `parse_data` keeps the reachable-state invariant. */
  lemma ParseConsistent(d: Decoder, line: string)
    requires Consistent(d)
    ensures Consistent(d.Parse(line).next)
  {
  }

  // -----------------------------------------------------------------------
  // Whole input sequences
  // -----------------------------------------------------------------------

  lemma {:induction false} RunConsistent(d: Decoder, lines: seq<string>)
    requires Consistent(d)
    ensures Consistent(Run(d, lines))
    decreases |lines|
  {
    if lines != [] {
      ParseConsistent(d, lines[0]);
      RunConsistent(d.Parse(lines[0]).next, lines[1..]);
    }
  }

  /**
   * The flags after any input: a flag is on exactly when it was on already
   * or its exact handshake line came before the first "Start". No line ever
   * switches a flag off, and lines after "Start" never touch them.
   */
  lemma {:induction false} RunFlags(d: Decoder, lines: seq<string>)
    ensures Run(d, lines).magnetometer <==> d.magnetometer || (d.HasInit() && MagnetometerLine in Handshake(lines))
    ensures Run(d, lines).temperature <==> d.temperature || (d.HasInit() && TemperatureLine in Handshake(lines))
    decreases |lines|
  {
    if lines != [] {
      var next := d.Parse(lines[0]).next;
      RunFlags(next, lines[1..]);
      if d.HasInit() && lines[0] == StartLine {
        assert Handshake(lines) == [];
        RunStaysStreaming(next, lines[1..]);
      } else if d.HasInit() {
        assert Handshake(lines) == [lines[0]] + Handshake(lines[1..]);
      }
    }
  }

  /** Once streaming, no input brings the decoder back to the handshake or changes its flags. */
  lemma {:induction false} RunStaysStreaming(d: Decoder, lines: seq<string>)
    requires d.HasInProcess()
    ensures Run(d, lines).HasInProcess()
    ensures Run(d, lines).magnetometer == d.magnetometer
    ensures Run(d, lines).temperature == d.temperature
    decreases |lines|
  {
    if lines != [] {
      RunStaysStreaming(d.Parse(lines[0]).next, lines[1..]);
    }
  }

  /** From the handshake, the decoder streams afterwards exactly when some line was "Start". */
  lemma {:induction false} RunStarts(d: Decoder, lines: seq<string>)
    requires d.HasInit()
    ensures Run(d, lines).HasInProcess() <==> StartLine in lines
    decreases |lines|
  {
    if lines != [] {
      var next := d.Parse(lines[0]).next;
      if lines[0] == StartLine {
        RunStaysStreaming(next, lines[1..]);
      } else {
        RunStarts(next, lines[1..]);
        assert StartLine in lines <==> StartLine in lines[1..];
      }
    }
  }

  /**
   * The negotiated configuration depends only on which handshake lines
   * appeared: two handshakes with the same lines, in any order and with any
   * repetitions, give the same phase and flags.
   */
  lemma HandshakeOrderIrrelevant(a: seq<string>, b: seq<string>)
    requires StartLine !in a && StartLine !in b
    requires forall s :: s in a <==> s in b
    ensures Run(Initial(), a).state == Run(Initial(), b).state == InitState
    ensures Run(Initial(), a).magnetometer == Run(Initial(), b).magnetometer
    ensures Run(Initial(), a).temperature == Run(Initial(), b).temperature
  {
    RunStarts(Initial(), a);
    RunStarts(Initial(), b);
    RunFlags(Initial(), a);
    RunFlags(Initial(), b);
    HandshakeWithoutStart(a);
    HandshakeWithoutStart(b);
  }

  lemma {:induction false} HandshakeWithoutStart(lines: seq<string>)
    requires StartLine !in lines
    ensures Handshake(lines) == lines
  {
    if lines != [] {
      HandshakeWithoutStart(lines[1..]);
    }
  }

  // -----------------------------------------------------------------------
  // Accessors
  // -----------------------------------------------------------------------

  /**
   * The accessors give nothing outside streaming, and each gives all three
   * values of its slots or nothing at all, never a partial list.
   */
  lemma AccelAllOrNothing(d: Decoder)
    ensures d.GetAccelData().Some? <==> d.HasInProcess() && d.parsedData.FieldsPresent(0)
    ensures d.GetAccelData().Some? ==> var v := d.GetAccelData().value;
      && |v| == 3
      && v[0] == d.parsedData.Field(0).value * GravityScale
      && v[1] == d.parsedData.Field(1).value * GravityScale
      && v[2] == d.parsedData.Field(2).value * GravityScale
  {
  }

  lemma GyroAllOrNothing(d: Decoder)
    ensures d.GetGyroData().Some? <==> d.HasInProcess() && d.parsedData.FieldsPresent(3)
    ensures d.GetGyroData().Some? ==> var v := d.GetGyroData().value;
      && |v| == 3
      && v[0] == d.parsedData.Field(3).value
      && v[1] == d.parsedData.Field(4).value
      && v[2] == d.parsedData.Field(5).value
  {
  }

  /** The magnetometer accessor also gives nothing without the magnetometer flag. */
  lemma MagAllOrNothing(d: Decoder)
    ensures d.GetMagData().Some? <==> d.HasInProcess() && d.magnetometer && d.parsedData.FieldsPresent(6)
    ensures d.GetMagData().Some? ==> var v := d.GetMagData().value;
      && |v| == 3
      && v[0] == d.parsedData.Field(6).value
      && v[1] == d.parsedData.Field(7).value
      && v[2] == d.parsedData.Field(8).value
  {
  }

  /**
   * The temperature quirk: on every reachable state `get_temp` gives nothing,
   * because the slot it reads (6, or 9 with a magnetometer) is exactly the
   * record length `count_digits` enforces, one past the last token.
   */
  lemma TempNeverAvailable(d: Decoder)
    requires Consistent(d)
    ensures d.GetTemp() == None
  {
    if d.HasInProcess() && d.temperature {
      var slot := if d.magnetometer then 9 else 6;
      assert d.parsedData.Length() <= slot;
      assert d.parsedData.Item(slot) == None;
    }
  }

  lemma RunTempNeverAvailable(lines: seq<string>)
    ensures Run(Initial(), lines).GetTemp() == None
  {
    RunConsistent(Initial(), lines);
    TempNeverAvailable(Run(Initial(), lines));
  }

  /**
   * Between "Start" and the first accepted record the record is the string
   * "Start", whose characters do not parse, so every accessor gives nothing.
   */
  lemma AccessorsBeforeFirstRecord(d: Decoder)
    requires d.HasInProcess() && d.parsedData == Raw(StartLine)
    ensures d.GetAccelData() == None && d.GetGyroData() == None
    ensures d.GetMagData() == None && d.GetTemp() == None
  {
    assert d.parsedData.Field(0) == ParseReal("S") == None;
    assert d.parsedData.Field(3) == ParseReal("r") == None;
    assert d.parsedData.Item(6) == None;
  }

  /** The tokens of the record "1 2 3 4 5 6 7 8 9". */
  const NineTokens := ["1", "2", "3", "4", "5", "6", "7", "8", "9"]

  lemma NineTokensAreTokens()
    ensures forall k :: 0 <= k < |NineTokens| ==> IsToken(NineTokens[k])
  {
    forall k | 0 <= k < |NineTokens| ensures IsToken(NineTokens[k]) {
      var t := NineTokens[k];
      assert t == [t[0]] && IsDigit(t[0]) by {
        if k == 0 {} else if k == 1 {} else if k == 2 {} else if k == 3 {} else if k == 4 {}
        else if k == 5 {} else if k == 6 {} else if k == 7 {} else {}
      }
    }
  }

  lemma JoinThree(a: char, b: char, c: char)
    ensures Join([[a], [b], [c]]) == [a, ' ', b, ' ', c]
  {
    JoinCons([b], [[c]]);
    assert [[b], [c]] == [[b]] + [[c]];
    JoinCons([a], [[b], [c]]);
    assert [[a], [b], [c]] == [[a]] + [[b], [c]];
  }

  /** Nine one-character tokens join into those characters separated by single spaces. */
  lemma JoinNine(c1: char, c2: char, c3: char, c4: char, c5: char, c6: char, c7: char, c8: char, c9: char)
    ensures Join([[c1], [c2], [c3], [c4], [c5], [c6], [c7], [c8], [c9]])
         == [c1, ' ', c2, ' ', c3, ' ', c4, ' ', c5, ' ', c6, ' ', c7, ' ', c8, ' ', c9]
  {
    var x, y, z: seq<string> := [[c1], [c2], [c3]], [[c4], [c5], [c6]], [[c7], [c8], [c9]];
    JoinThree(c1, c2, c3);
    JoinThree(c4, c5, c6);
    JoinThree(c7, c8, c9);
    JoinAppend(y, z);
    JoinAppend(x, y + z);
    assert [[c1], [c2], [c3], [c4], [c5], [c6], [c7], [c8], [c9]] == x + (y + z);
  }

  /** The record line of the example is the single-space join of its tokens. */
  lemma NineFieldJoin()
    ensures Join(NineTokens) == "1 2 3 4 5 6 7 8 9"
  {
    JoinNine('1', '2', '3', '4', '5', '6', '7', '8', '9');
  }

  /** The record line of the example splits back into its nine tokens. */
  lemma NineFieldLine()
    ensures Split("1 2 3 4 5 6 7 8 9") == NineTokens
  {
    NineFieldJoin();
    NineTokensAreTokens();
    SplitJoin(NineTokens);
  }

  /** The handshake "Magnetometer True", "Start", then a line whose tokens are 1 to 9. */
  lemma NineFieldRun(line: string)
    requires Split(line) == NineTokens
    ensures Run(Initial(), [MagnetometerLine, StartLine, line])
         == Decoder(InProcess, true, false, Tokens(NineTokens))
  {
    var d1 := Decoder(InitState, true, false, Raw(MagnetometerLine));
    var d2 := Decoder(InProcess, true, false, Raw(StartLine));
    var d3 := Decoder(InProcess, true, false, Tokens(NineTokens));
    var lines := [MagnetometerLine, StartLine, line];
    assert line != "" by {
      assert Split("") == [];
    }
    assert Initial().Parse(MagnetometerLine).next == d1;
    assert d1.Parse(StartLine).next == d2;
    assert d2.Parse(line).next == d3;
    calc {
      Run(Initial(), lines);
      Run(d1, lines[1..]);
      { assert lines[1..][1..] == [line]; }
      Run(d2, [line]);
      Run(d3, []);
    }
  }

  /** A one-character digit token parses to its digit. */
  lemma ParseDigit(c: char)
    requires IsDigit(c)
    ensures ParseReal([c]) == Some(DigitValue(c) as real)
  {
    ParseDigits([c]);
    assert [c][..0] == [];
  }

  lemma FieldDigit(r: Record, k: nat, c: char)
    requires r.Item(k) == Some([c]) && IsDigit(c)
    ensures r.Field(k) == Some(DigitValue(c) as real)
  {
    ParseDigit(c);
  }

  lemma NineFieldAccel()
    ensures Decoder(InProcess, true, false, Tokens(NineTokens)).GetAccelData() == Some([9.8, 19.6, 29.4])
  {
    var r := Tokens(NineTokens);
    FieldDigit(r, 0, '1');
    FieldDigit(r, 1, '2');
    FieldDigit(r, 2, '3');
  }

  lemma NineFieldGyro()
    ensures Decoder(InProcess, true, false, Tokens(NineTokens)).GetGyroData() == Some([4.0, 5.0, 6.0])
  {
    var r := Tokens(NineTokens);
    FieldDigit(r, 3, '4');
    FieldDigit(r, 4, '5');
    FieldDigit(r, 5, '6');
  }

  lemma NineFieldMag()
    ensures Decoder(InProcess, true, false, Tokens(NineTokens)).GetMagData() == Some([7.0, 8.0, 9.0])
  {
    var r := Tokens(NineTokens);
    FieldDigit(r, 6, '7');
    FieldDigit(r, 7, '8');
    FieldDigit(r, 8, '9');
  }

  /**
   * After the handshake "Magnetometer True", "Start", any line that splits
   * into the tokens 1 to 9 (among them "1 2 3 4 5 6 7 8 9", see
   * `NineFieldLine`) is accepted, and the accessors give accel =
   * [9.8, 19.6, 29.4], gyro = [4, 5, 6], mag = [7, 8, 9] and no temperature.
   */
  lemma NineFieldExample(line: string)
    requires Split(line) == NineTokens
    ensures var d := Run(Initial(), [MagnetometerLine, StartLine, line]);
      && d.GetAccelData() == Some([9.8, 19.6, 29.4])
      && d.GetGyroData() == Some([4.0, 5.0, 6.0])
      && d.GetMagData() == Some([7.0, 8.0, 9.0])
      && d.GetTemp() == None
  {
    NineFieldRun(line);
    NineFieldAccel();
    NineFieldGyro();
    NineFieldMag();
  }

  // -----------------------------------------------------------------------
  // The decoder object
  // -----------------------------------------------------------------------

  class DataFormatter {
    var state: Phase
    var magnetometer: bool
    var temperature: bool
    var parsedData: Record

    /** The object's fields as a decoder value. */
    function Model(): Decoder
      reads this
    {
      Decoder(state, magnetometer, temperature, parsedData)
    }

    /** `__init__`: handshake phase, both flags off, empty record. */
    constructor ()
      ensures Model() == Initial()
    {
      state := InitState;
      magnetometer := false;
      temperature := false;
      parsedData := Tokens([]);
    }

    /** `set_initial_state`: back to the state `__init__` gives, whatever came before. */
    method SetInitialState()
      modifies this
      ensures Model() == Initial()
    {
      state := InitState;
      magnetometer := false;
      temperature := false;
      parsedData := Tokens([]);
    }

    /** `parse_init_state`. */
    method ParseInitState(line: string)
      modifies this
      ensures Model() == old(Model()).InitLine(line)
    {
      if line == MagnetometerLine {
        magnetometer := true;
      }
      if line == TemperatureLine {
        temperature := true;
      }
      if line == StartLine {
        state := InProcess;
      }
      parsedData := Raw(line);
    }

    /** `parse_data`. */
    method ParseData(data: string) returns (r: Option<bool>)
      modifies this
      ensures Model() == old(Model()).Parse(data).next
      ensures r == old(Model()).Parse(data).result
    {
      if data != "" {
        if state == InitState {
          ParseInitState(data);
        } else {
          var splitData := Split(data);
          if |splitData| != Model().CountDigits() {
            return Some(false);
          }
          parsedData := Tokens(splitData);
        }
        return Some(true);
      }
      return None;
    }
  }
}

/**
 * The dispatch half of `SerialPortInterface` (src/serial_port.py): one
 * already decoded and stripped line from the serial port drives the
 * decoder, accepted samples are routed to the three plots, and every line is
 * echoed to the console; a port refresh resets the decoder; a read error is
 * reported and closes the port. The serial device itself is replaced by a
 * port flag and by the line (or error) handed in as a parameter.
 */
module SerialPort {
  import opened Wrappers
  import opened Text
  import opened Core
  import opened Plot

  /** `serial_port`: no port object yet, an open port, or a closed one. */
  datatype PortState = NoPort | Opened | Closed

  /** What one `readline` produced: a decoded, stripped line, or a `SerialException` message. */
  datatype ReadResult = Line(text: string) | ReadError(message: string)

  const PortsUpdated := "Порты обновлены"
  const PortConnected := "Порт подключён"
  const ReadErrorPrefix := "Ошибка при попытке читать последовательный порт: "

  /** The new decoder state and the sample, if any, each plot receives. */
  datatype Routing = Routing(next: Decoder, accel: Option<seq<real>>, gyro: Option<seq<real>>, mag: Option<seq<real>>)

  /**
   * `get_data_from_port` for one non-empty line on an open port: during the
   * handshake the line only goes to `parse_data`; while streaming, a record
   * `parse_data` accepts is read by the accessors and each value they give
   * goes to its plot, the magnetometer one only with the magnetometer flag.
   */
  function Route(d: Decoder, data: string): (r: Routing)
    ensures r.next == d.Parse(data).next
    ensures r.accel.Some? ==> |r.accel.value| == 3
    ensures r.gyro.Some? ==> |r.gyro.value| == 3
    ensures r.mag.Some? ==> |r.mag.value| == 3
  {
    var p := d.Parse(data);
    var n := p.next;
    AccelAllOrNothing(n);
    GyroAllOrNothing(n);
    MagAllOrNothing(n);
    if d.HasInit() || p.result != Some(true) then Routing(n, None, None, None)
    else Routing(n, n.GetAccelData(), n.GetGyroData(), if n.magnetometer then n.GetMagData() else None)
  }

  /** `update_data` on a plot when a sample was routed to it. */
  function Feed(s: PlotState, sample: Option<seq<real>>, ceil: real, step: real): (r: PlotState)
    requires ceil > 0.0 && Aligned(s) && (sample.Some? ==> |sample.value| >= 3)
    ensures r.samples == s.samples + if sample.Some? then [sample.value] else []
  {
    if sample.Some? then Step(s, sample.value, ceil, step) else s
  }

  // -----------------------------------------------------------------------
  // Routing one line
  // -----------------------------------------------------------------------

  /** In the handshake a line only goes to the decoder; no plot gets a sample, not even for "Start". */
  lemma RouteHandshake(d: Decoder, data: string)
    requires d.HasInit()
    ensures Route(d, data) == Routing(d.Parse(data).next, None, None, None)
  {
  }

  /**
   * While streaming, a line whose token count is not `count_digits` routes
   * nothing and leaves the decoder as it was; one whose count matches
   * replaces the record and routes exactly what the accessors read from it.
   */
  lemma RouteStreaming(d: Decoder, data: string)
    requires d.HasInProcess() && data != ""
    ensures var tokens := Split(data);
      |tokens| != d.CountDigits() ==> Route(d, data) == Routing(d, None, None, None)
    ensures var tokens := Split(data);
      var n := d.(parsedData := Tokens(tokens));
      |tokens| == d.CountDigits() ==>
        Route(d, data) == Routing(n, n.GetAccelData(), n.GetGyroData(), n.GetMagData())
  {
    ParseStreaming(d, data);
  }

  /**
   * A plot receives a sample only when the decoder was streaming and
   * `parse_data` accepted the line, and the magnetometer plot only with the
   * magnetometer flag on.
   */
  lemma RouteOnlyAccepted(d: Decoder, data: string)
    ensures var r := Route(d, data);
      (r.accel.Some? || r.gyro.Some? || r.mag.Some?) ==>
        d.HasInProcess() && d.Parse(data).result == Some(true)
    ensures Route(d, data).mag.Some? ==> d.magnetometer
  {
  }

  /** Temperature is never routed: the temperature flag has no effect on what the plots receive. */
  lemma RouteIgnoresTemperature(d: Decoder, data: string, flag: bool)
    ensures var r, q := Route(d, data), Route(d.(temperature := flag), data);
      r.accel == q.accel && r.gyro == q.gyro && r.mag == q.mag
  {
    var e := d.(temperature := flag);
    if d.HasInProcess() && data != "" && |Split(data)| == d.CountDigits() {
      var n := d.(parsedData := Tokens(Split(data)));
      assert e.Parse(data).next == n.(temperature := flag);
      AccelAllOrNothing(n);
      AccelAllOrNothing(n.(temperature := flag));
    }
  }

  /** The routed accelerometer sample is the scaled record, all or nothing. */
  lemma RouteAccel(d: Decoder, data: string)
    requires d.HasInProcess() && data != "" && |Split(data)| == d.CountDigits()
    ensures var rec := Tokens(Split(data));
      Route(d, data).accel.Some? <==> rec.FieldsPresent(0)
  {
    RouteStreaming(d, data);
    AccelAllOrNothing(d.(parsedData := Tokens(Split(data))));
  }

  // -----------------------------------------------------------------------
  // A stream of lines
  // -----------------------------------------------------------------------

  /** The routings of a stream of non-empty lines, one per line. */
  function Routings(d: Decoder, lines: seq<string>): (rs: seq<Routing>)
    ensures |rs| == |lines|
    decreases |lines|
  {
    if lines == [] then [] else
      var r := Route(d, lines[0]);
      [r] + Routings(r.next, lines[1..])
  }

  /** Along a stream the decoder evolves exactly as `Run` feeds it the same lines. */
  lemma {:induction false} RoutingsFollowRun(d: Decoder, lines: seq<string>)
    requires lines != []
    ensures Routings(d, lines)[|lines| - 1].next == Run(d, lines)
    decreases |lines|
  {
    if |lines| > 1 {
      RoutingsFollowRun(Route(d, lines[0]).next, lines[1..]);
    }
  }

  /** A stream with no "Start" line, fed from the handshake, routes no sample at all. */
  lemma {:induction false} NoStartNoSamples(d: Decoder, lines: seq<string>)
    requires d.HasInit() && StartLine !in lines
    ensures forall k :: 0 <= k < |lines| ==>
      Routings(d, lines)[k].accel == None && Routings(d, lines)[k].gyro == None && Routings(d, lines)[k].mag == None
    decreases |lines|
  {
    if lines != [] {
      var r := Route(d, lines[0]);
      assert r.next.HasInit();
      assert StartLine !in lines[1..];
      NoStartNoSamples(r.next, lines[1..]);
      var rs := Routings(d, lines);
      assert rs == [r] + Routings(r.next, lines[1..]);
      forall k | 0 <= k < |lines|
        ensures rs[k].accel == None && rs[k].gyro == None && rs[k].mag == None
      {
        if k > 0 {
          assert rs[k] == Routings(r.next, lines[1..])[k - 1];
        }
      }
    }
  }

  /**
   * The session "Magnetometer True", "Start", then a line of the tokens 1
   * to 9 (e.g. "1 2 3 4 5 6 7 8 9"): the first two lines route nothing, the
   * third sends [9.8, 19.6, 29.4] to the accelerometer plot, [4, 5, 6] to
   * the gyroscope plot and [7, 8, 9] to the magnetometer plot.
   */
  lemma NineFieldSession(line: string)
    requires Split(line) == NineTokens
    ensures var rs := Routings(Initial(), [MagnetometerLine, StartLine, line]);
      && rs[0].accel == rs[0].gyro == rs[0].mag == None
      && rs[1].accel == rs[1].gyro == rs[1].mag == None
      && rs[2].accel == Some([9.8, 19.6, 29.4])
      && rs[2].gyro == Some([4.0, 5.0, 6.0])
      && rs[2].mag == Some([7.0, 8.0, 9.0])
  {
    var d1 := Decoder(InitState, true, false, Raw(MagnetometerLine));
    var d2 := Decoder(InProcess, true, false, Raw(StartLine));
    assert Initial().Parse(MagnetometerLine).next == d1;
    assert d1.Parse(StartLine).next == d2;
    var rs := Routings(Initial(), [MagnetometerLine, StartLine, line]);
    assert rs == [Route(Initial(), MagnetometerLine)] + Routings(d1, [StartLine, line]);
    assert Routings(d1, [StartLine, line]) == [Route(d1, StartLine)] + Routings(d2, [line]);
    assert rs[2] == Route(d2, line);
    NineFieldRun(line);
    NineFieldExample(line);
    RouteStreaming(d2, line);
  }

  /** `if sample: plot.update_data(sample)`. */
  method Deliver(plot: RealTimePlot, sample: Option<seq<real>>)
    requires plot.Valid() && (sample.Some? ==> |sample.value| >= 3)
    modifies plot
    ensures plot.Valid()
    ensures plot.State() == Feed(old(plot.State()), sample, plot.ceil, plot.step)
  {
    if sample.Some? {
      plot.UpdateData(sample.value);
    }
  }

  // -----------------------------------------------------------------------
  // The interface object
  // -----------------------------------------------------------------------

  class SerialPortInterface {
    const dataFormatter: DataFormatter
    const graphicsAccel: RealTimePlot
    const graphicsGyro: RealTimePlot
    const graphicsMag: RealTimePlot
    var port: PortState
    /** The console widget's text, one entry per `append`. */
    var console: seq<string>

    /**
     * Three distinct, coherent plots and a decoder in a reachable state
     * (the record, once streaming, is "Start" or has `count_digits` tokens).
     */
    ghost predicate Valid()
      reads this, dataFormatter, graphicsAccel, graphicsGyro, graphicsMag
    {
      && graphicsAccel != graphicsGyro && graphicsAccel != graphicsMag && graphicsGyro != graphicsMag
      && graphicsAccel.Valid() && graphicsGyro.Valid() && graphicsMag.Valid()
      && Consistent(dataFormatter.Model())
    }

    /** The window's initial state: no port, an empty console, a fresh decoder and three empty plots. */
    constructor (accelUnit: real, gyroUnit: real, magUnit: real, step: real)
      requires accelUnit > 0.0 && gyroUnit > 0.0 && magUnit > 0.0 && step > 0.0
      ensures Valid()
      ensures port == NoPort && console == []
      ensures dataFormatter.Model() == Initial()
      ensures graphicsAccel.State() == Start(accelUnit) && graphicsAccel.ceil == accelUnit && graphicsAccel.step == step
      ensures graphicsGyro.State() == Start(gyroUnit) && graphicsGyro.ceil == gyroUnit && graphicsGyro.step == step
      ensures graphicsMag.State() == Start(magUnit) && graphicsMag.ceil == magUnit && graphicsMag.step == step
    {
      dataFormatter := new DataFormatter();
      graphicsAccel := new RealTimePlot(accelUnit, step);
      graphicsGyro := new RealTimePlot(gyroUnit, step);
      graphicsMag := new RealTimePlot(magUnit, step);
      port := NoPort;
      console := [];
    }

    /**
     * The reset branch of `update_ports`: an existing port is closed and the
     * decoder returns to its initial state; without a port the decoder is
     * left alone. Either way the console reports the refresh.
     */
    method UpdatePorts()
      requires Valid()
      modifies this, dataFormatter
      ensures Valid()
      ensures old(port) != NoPort ==> port == Closed && dataFormatter.Model() == Initial()
      ensures old(port) == NoPort ==> port == NoPort && dataFormatter.Model() == old(dataFormatter.Model())
      ensures console == old(console) + [PortsUpdated]
    {
      if port != NoPort {
        port := Closed;
        dataFormatter.SetInitialState();
      }
      console := console + [PortsUpdated];
    }

    /** The successful path of `connect_serial`: any open port is closed and a new one is open. */
    method ConnectSerial()
      requires Valid()
      modifies this
      ensures Valid()
      ensures port == Opened
      ensures console == old(console) + [PortConnected]
    {
      port := Opened;
      console := console + [PortConnected];
    }

    /**
     * The branch of `get_data_from_port` that hands a non-empty line to the
     * decoder and, while streaming, routes an accepted record's values to the
     * plots.
     */
    method Dispatch(data: string)
      requires Valid() && data != ""
      modifies dataFormatter, graphicsAccel, graphicsGyro, graphicsMag
      ensures Valid()
      ensures var r := Route(old(dataFormatter.Model()), data);
        && dataFormatter.Model() == r.next
        && graphicsAccel.State() == Feed(old(graphicsAccel.State()), r.accel, graphicsAccel.ceil, graphicsAccel.step)
        && graphicsGyro.State() == Feed(old(graphicsGyro.State()), r.gyro, graphicsGyro.ceil, graphicsGyro.step)
        && graphicsMag.State() == Feed(old(graphicsMag.State()), r.mag, graphicsMag.ceil, graphicsMag.step)
    {
      ghost var r := Route(dataFormatter.Model(), data);
      ParseConsistent(dataFormatter.Model(), data);
      if dataFormatter.Model().HasInit() {
        var ignored := dataFormatter.ParseData(data);
      } else if dataFormatter.Model().HasInProcess() {
        var accepted := dataFormatter.ParseData(data);
        if accepted == Some(true) {
          assert dataFormatter.Model() == r.next;
          var accelData := dataFormatter.Model().GetAccelData();
          Deliver(graphicsAccel, accelData);
          var gyroData := dataFormatter.Model().GetGyroData();
          Deliver(graphicsGyro, gyroData);
          if dataFormatter.Model().magnetometer {
            var magData := dataFormatter.Model().GetMagData();
            Deliver(graphicsMag, magData);
          }
        }
      }
    }

    /**
     * `get_data_from_port`. On a port that is not open nothing happens. A
     * read error is reported on the console and closes the port, leaving the
     * decoder and the plots alone. An empty line is ignored. Any other line
     * is routed (`Route`), each plot that gets a sample takes one
     * `update_data` step, and the line is echoed to the console once.
     */
    method GetDataFromPort(input: ReadResult)
      requires Valid()
      modifies this, dataFormatter, graphicsAccel, graphicsGyro, graphicsMag
      ensures Valid()
      ensures old(port) != Opened || input == Line("") ==>
        && port == old(port) && console == old(console)
        && dataFormatter.Model() == old(dataFormatter.Model())
        && graphicsAccel.State() == old(graphicsAccel.State())
        && graphicsGyro.State() == old(graphicsGyro.State())
        && graphicsMag.State() == old(graphicsMag.State())
      ensures old(port) == Opened && input.ReadError? ==>
        && port == Closed && console == old(console) + [ReadErrorPrefix + input.message]
        && dataFormatter.Model() == old(dataFormatter.Model())
        && graphicsAccel.State() == old(graphicsAccel.State())
        && graphicsGyro.State() == old(graphicsGyro.State())
        && graphicsMag.State() == old(graphicsMag.State())
      ensures old(port) == Opened && input.Line? && input.text != "" ==>
        var r := Route(old(dataFormatter.Model()), input.text);
        && port == Opened && console == old(console) + [input.text]
        && dataFormatter.Model() == r.next
        && graphicsAccel.State() == Feed(old(graphicsAccel.State()), r.accel, graphicsAccel.ceil, graphicsAccel.step)
        && graphicsGyro.State() == Feed(old(graphicsGyro.State()), r.gyro, graphicsGyro.ceil, graphicsGyro.step)
        && graphicsMag.State() == Feed(old(graphicsMag.State()), r.mag, graphicsMag.ceil, graphicsMag.step)
    {
      if port != Opened {
        return;
      }
      match input
      case ReadError(e) =>
        console := console + [ReadErrorPrefix + e];
        port := Closed;
      case Line(data) =>
        if data != "" {
          Dispatch(data);
          console := console + [data];
        }
    }
  }
}

# IMU telemetry viewer: decoder, plot buffers and serial dispatch

This Dafny project models the logic core of a desktop viewer for IMU
telemetry. An IMU (inertial measurement unit) reports accelerometer,
gyroscope and optional magnetometer readings. The viewer reads text lines
from a serial port and plots them in three real-time charts.

The core has three parts, one module each:

- `Core` (core.dfy) models the telemetry decoder `DataFormatter`.
  - It is a two-phase machine.
  - In the handshake phase, the exact lines "Magnetometer True" and
    "Temperature True" switch on optional fields, and "Start" begins
    streaming.
  - While streaming, a line is split on whitespace. It is accepted only when
    it has `count_digits` tokens: 6, or 9 with a magnetometer.
  - Accessors read fixed token slots. The accelerometer values are scaled
    from g to m/s² by 9.8.
  - The value `Decoder` holds the decoder's state. Its member functions are
    the read-only properties and accessors. `Parse` and `InitLine` say what
    `parse_data` and `parse_init_state` do to the state.
  - The class `DataFormatter` holds the same four fields. Its methods update
    them in place and are proved against `Parse` and `InitLine`.
- `Plot` (plot.dfy) models the data half of `RealTimePlot.update_data`.
  - Each update advances a clock and appends one point to each of three
    series.
  - It sets the value-axis range from the extrema of all stored points,
    quantised to the unit `ceil`.
  - It evicts the two oldest points of each series when the series held
    more than 50 points before the append.
  - It sets a trailing 3-unit time window.
  - The class `RealTimePlot` keeps the series as `seq` fields and the axis
    ranges as plain values. Its method `UpdateData` is proved against the
    function `Step`.
  - The invariant `Coherent` is preserved by every update. It says:
    - the clock counts the updates;
    - each series holds exactly the most recent samples, time-stamped;
    - each series has the length the update count dictates;
    - the value range consists of unit multiples that strictly contain
      every plotted value.
- `SerialPort` (serial_port.dfy) models the dispatch part of
  `SerialPortInterface`.
  - One line, already read and stripped, drives the decoder.
  - While streaming, an accepted record's accessor values go to the three
    plots. The magnetometer plot gets values only when the magnetometer flag
    is on.
  - Every non-empty line is echoed to the console. The console is an
    append-only `seq<string>`.
  - A port refresh closes an existing port and resets the decoder.
  - A read error is reported and closes the port.
  - The function `Route` states what one line does to the decoder and which
    samples it routes. `Feed` states what a plot does with a routed sample.

`Text` (text.dfy) states the three library routines the core relies on:
- `str.split()` without a separator;
- `float()` on decimal strings;
- `math.ceil`.

`Wrappers` holds `Option`.

The model's numbers are exact `real`s.

Two behaviours of the code that a reader might not expect are kept as
written:

- **`get_temp` never gives a value.** Counting the temperature field is
  commented out of `count_digits` (src/core.py:121-122). So an accepted
  record has exactly as many tokens as the index `get_temp` reads (6, or 9
  with a magnetometer), and the read is always out of range. See
  `TempNeverAvailable`.
- **Series lengths settle at 50 and 51.** The eviction test uses the point
  count taken before the append (widgets/real_time_plot.py:91, 111). So a
  series grows to 51 points and then alternates between 50 and 51. Testing
  the length after the append would give 49 and 50 instead. The model
  follows the code. See `LengthAfterClosedForm`.

## Model

| member | source | states |
|---|---|---|
| Core.Record.Item | src/core.py:147-151 | `parsed_data[i]` exists exactly when `i` is below the record's length. The record is a token list or, after a handshake line, that line's characters. |
| Core.Decoder.HasInit | src/core.py:78-98 | `has_init` holds exactly when `has_in_process` does not. |
| Core.Decoder.CountDigits | src/core.py:116-123 | `count_digits` is 6 or 9, and it is 9 exactly when the magnetometer flag is on. Temperature never counts. |
| Core.Decoder.Parse | src/core.py:100-114 | `parse_data` returns `None` exactly for the empty line. When it returns `False` the state is unchanged. While streaming it never leaves the phase and never changes a flag. |
| Core.Decoder.InitLine | src/core.py:125-137 | `parse_init_state` makes the line the raw record. It never switches a flag off and never leaves streaming. |
| Core.Decoder.GetAccelData | src/core.py:139-153 | `get_accel_data` gives a value only while streaming, and the value is always three numbers. |
| Core.Decoder.GetGyroData | src/core.py:155-169 | `get_gyro_data` gives a value only while streaming, and the value is always three numbers. |
| Core.Decoder.GetMagData | src/core.py:171-185 | `get_mag_data` gives a value only while streaming with the magnetometer flag on, and the value is always three numbers. |
| Core.Decoder.GetTemp | src/core.py:187-199 | `get_temp` gives a value only while streaming with the temperature flag on. |
| Core.DataFormatter.constructor | src/core.py:44-52 | A fresh decoder is in `init_state`, both flags are off and the record is the empty list. |
| Core.DataFormatter.SetInitialState | src/core.py:54-58 | From any state the decoder returns to the state `__init__` gives. So calling it twice is the same as calling it once. |
| Core.DataFormatter.ParseInitState | src/core.py:125-137 | The fields are updated by the handshake rule `InitLine`. Only the three exact lines change the phase or a flag, and the line becomes the record. |
| Core.DataFormatter.ParseData | src/core.py:100-114 | The new fields and the returned value are those of `Parse`. |
| Core.ParseEmpty | src/core.py:106-114 | An empty line changes nothing and yields `None`. |
| Core.ParseHandshake | src/core.py:106-137 | In `init_state`, any non-empty line yields `True` and becomes the raw record. Streaming begins exactly on "Start". Each flag is on afterwards exactly when it was on before or the line is its exact switch line. |
| Core.ParseStreaming | src/core.py:109-114 | While streaming, a line is accepted exactly when its token count equals `count_digits`. An accepted line replaces only the record, with its tokens. A rejected line leaves the whole state unchanged. |
| Core.ParseConsistent | src/core.py:100-137 | Once streaming, the record is either "Start" or a list of exactly `count_digits` tokens. |
| Core.RunConsistent | src/core.py:100-137 | That invariant holds after any sequence of lines. |
| Core.RunFlags | src/core.py:131-134 | After any input, a flag is on exactly when it was on before or its exact line came before the first "Start". No line switches a flag off. |
| Core.RunStaysStreaming | src/core.py:106-113 | Once streaming, no input returns the decoder to `init_state` or changes a flag. |
| Core.RunStarts | src/core.py:135-136 | From `init_state`, the decoder is streaming afterwards exactly when some line was "Start". |
| Core.HandshakeOrderIrrelevant | src/core.py:131-136 | Two handshakes without "Start" that contain the same lines, in any order and with any repetition, give the same phase and flags. |
| Core.AccelAllOrNothing | src/core.py:139-153 | `get_accel_data` gives a value exactly when streaming and slots 0 to 2 exist and parse. The value is those three numbers times 9.8, never a partial list. |
| Core.GyroAllOrNothing | src/core.py:155-169 | `get_gyro_data` gives a value exactly when streaming and slots 3 to 5 exist and parse. The value is those three numbers. |
| Core.MagAllOrNothing | src/core.py:171-185 | `get_mag_data` gives a value exactly when streaming, the magnetometer flag is on and slots 6 to 8 exist and parse. The value is those three numbers. |
| Core.TempNeverAvailable | src/core.py:187-199 | On every state satisfying the invariant, `get_temp` gives nothing. |
| Core.RunTempNeverAvailable | src/core.py:187-199 | After any input from a fresh decoder, `get_temp` gives nothing. |
| Core.AccessorsBeforeFirstRecord | src/core.py:135-199 | Between "Start" and the first accepted record, the record is the string "Start", and every accessor gives nothing. |
| Core.NineFieldLine | src/core.py:110 | Splitting "1 2 3 4 5 6 7 8 9" gives the nine tokens 1 to 9. |
| Core.NineFieldRun | src/core.py:100-137 | "Magnetometer True", "Start" and then a line of the tokens 1 to 9 leave the decoder streaming, with the magnetometer flag on and those tokens as the record. |
| Core.NineFieldExample | src/core.py:139-199 | After that session, accel = [9.8, 19.6, 29.4], gyro = [4, 5, 6], mag = [7, 8, 9], and there is no temperature. |
| Text.Split | src/core.py:110 | Every token `split()` returns is non-empty and holds no whitespace. |
| Text.SplitJoin | src/core.py:110 | `split()` of the single-space join of whitespace-free tokens gives the tokens back. |
| Text.ParseDecimal | src/core.py:148 | `float` of a decimal integer, with or without a minus sign, is its value. |
| Text.ParseReal | src/core.py:148 | `float` gives a value only for a string that holds at least one digit and otherwise only digits, a decimal point or a leading sign. |
| Text.Ceil | widgets/real_time_plot.py:108-109 | `math.ceil(x)` is the integer `n` with `x <= n < x + 1`. |
| Plot.GetMax | widgets/real_time_plot.py:125-132 | `get_max` is at least the first point's `y`. |
| Plot.GetMin | widgets/real_time_plot.py:134-141 | `get_min` is at most the first point's `y`. |
| Plot.GetMaxIsMaximum | widgets/real_time_plot.py:125-132 | `get_max` of a non-empty point list is the `y` of one of its points, and no point's `y` exceeds it. |
| Plot.GetMinIsMinimum | widgets/real_time_plot.py:134-141 | `get_min` of a non-empty point list is the `y` of one of its points, and no point's `y` is below it. |
| Plot.ClockIncreasing | widgets/real_time_plot.py:88 | With a positive step, the clock strictly increases from one update to any later one. |
| Plot.AxisRange | widgets/real_time_plot.py:107-110 | The value range has two properties. First, both ends are multiples of the unit. Second, `lo - unit <= low < lo` and `hi + unit <= high < hi + 2 unit`. So when `lo <= hi` the range strictly contains `[lo, hi]` and is at least two units wide. |
| Plot.XWindow | widgets/real_time_plot.py:116-121 | The time range ends at the clock. It is `[0, t]` while `t < 3` and has width exactly 3 from then on. For a non-negative clock it starts at 0 or later and is at most 3 wide. |
| Plot.LengthAfterClosedForm | widgets/real_time_plot.py:91-114 | After `n` updates each series has `n` points while `n <= 51`. From then on it has 51 points after an odd number of updates and 50 after an even number. |
| Plot.LengthBounds | widgets/real_time_plot.py:111-114 | A series never holds more than 51 points. From 50 updates on, it never holds fewer than 50. Past 51 updates, consecutive lengths differ. |
| Plot.Evicted | widgets/real_time_plot.py:111-114 | After the append, a series that held more than 50 points loses two, so it ends one shorter than before; otherwise it ends one longer. What remains is always the newest points of the grown series, in order. |
| Plot.Extrema | widgets/real_time_plot.py:95-104 | The overall minimum is never above the overall maximum. |
| Plot.RecentOrdered | widgets/real_time_plot.py:91-114 | A series that keeps the most recent samples has strictly increasing time stamps. Its newest point is the current clock with the latest sample's value. |
| Plot.ExtremaBounds | widgets/real_time_plot.py:95-104 | The overall minimum is at or below each series' minimum, and the overall maximum is at or above each series' maximum. |
| Plot.InsideByExtrema | widgets/real_time_plot.py:95-110 | A range that strictly contains a series' extrema contains every value of the series. |
| Plot.SeriesStep | widgets/real_time_plot.py:91-114 | Appending the new stamped point and then evicting leaves a series that still holds exactly the most recent samples. Its length is the one the update count dictates, and it stays inside any range that contains the grown series. |
| Plot.Start | widgets/real_time_plot.py:31-67 | The initial plot has clock 0, empty series, value range `[-ceil, ceil]`, no time range and an empty history. Its contract is `StartCoherent`. |
| Plot.Step | widgets/real_time_plot.py:82-121 | One update appends exactly its sample to the history, advances the clock by one step and makes the time range the trailing window at the new clock. The eviction of all three series is decided on the first series' count, and the three series stay equally long. |
| Plot.StartCoherent | widgets/real_time_plot.py:31-67 | The initial plot satisfies the invariant: clock 0, empty series and value range `[-ceil, ceil]`. |
| Plot.StepCoherent | widgets/real_time_plot.py:82-121 | Every update preserves the invariant. |
| Plot.CoherentFacts | widgets/real_time_plot.py:82-121 | A plot satisfying the invariant has: three series of equal length, at most 51 points; at least 50 points once 50 updates have happened; strictly increasing time stamps; each series' newest point at the current clock with the latest sample's value; every plotted value strictly inside the value range. |
| Plot.ReplaySamples | widgets/real_time_plot.py:82-121 | A sequence of updates appends exactly its samples to the plot's history. |
| Plot.ReplayCoherent | widgets/real_time_plot.py:82-121 | Any sequence of updates from a plot satisfying the invariant, including the initial plot, leaves a plot that satisfies it. |
| Plot.RealTimePlot.constructor | widgets/real_time_plot.py:31-67 | A new plot has clock 0, empty series, value range `[-ceil, ceil]` and no time range yet, and it satisfies the invariant. |
| Plot.RealTimePlot.UpdateData | widgets/real_time_plot.py:82-121 | The fields become `Step` of the old ones, and the invariant is kept. |
| SerialPort.Route | src/serial_port.py:78-93 | The decoder moves exactly as `parse_data` moves it. Every routed sample has three values. |
| SerialPort.Feed | src/serial_port.py:85-93 | A plot's history grows by exactly the sample routed to it, and stays as it was when none is. |
| SerialPort.RouteHandshake | src/serial_port.py:79-80 | In the handshake phase a line only goes to `parse_data`, and no plot gets a sample, "Start" included. |
| SerialPort.RouteStreaming | src/serial_port.py:82-93 | While streaming, a line with the wrong token count routes nothing and leaves the decoder unchanged. A line with the right count replaces the record and routes exactly what the accessors read from it. |
| SerialPort.RouteOnlyAccepted | src/serial_port.py:79-93 | A plot receives a sample only when the decoder was streaming and `parse_data` returned `True`. The magnetometer plot receives one only with the magnetometer flag on. |
| SerialPort.RouteIgnoresTemperature | src/serial_port.py:82-93 | The temperature flag has no effect on what any plot receives. |
| SerialPort.RouteAccel | src/serial_port.py:84-86 | For an accepted record, the accelerometer plot gets a sample exactly when slots 0 to 2 exist and parse. |
| SerialPort.RoutingsFollowRun | src/serial_port.py:78-83 | Along a stream of lines, the decoder evolves exactly as successive `parse_data` calls move it. |
| SerialPort.NoStartNoSamples | src/serial_port.py:79-80 | Starting from the handshake phase, a stream without "Start" routes no sample to any plot. |
| SerialPort.NineFieldSession | src/serial_port.py:78-93 | In the session "Magnetometer True", "Start", then a line of the tokens 1 to 9, the first two lines route nothing. The third sends [9.8, 19.6, 29.4], [4, 5, 6] and [7, 8, 9] to the three plots. |
| SerialPort.Deliver | src/serial_port.py:85-93 | A plot updates exactly when it is handed a sample, and it keeps its invariant. |
| SerialPort.SerialPortInterface.constructor | src/core.py:30-31 | The window starts with no port, an empty console, a fresh decoder and three fresh plots. |
| SerialPort.SerialPortInterface.UpdatePorts | src/serial_port.py:23-37 | An existing port is closed and the decoder is reset, exactly when a port object exists. Without one, the decoder is untouched. Either way "Порты обновлены" is appended to the console. |
| SerialPort.SerialPortInterface.ConnectSerial | src/serial_port.py:49-57 | On success the port is open, and "Порт подключён" is appended to the console. |
| SerialPort.SerialPortInterface.Dispatch | src/serial_port.py:78-93 | After a non-empty line, the decoder is `Route`'s new state and each plot is `Feed` of the sample routed to it. All invariants are kept. |
| SerialPort.SerialPortInterface.GetDataFromPort | src/serial_port.py:67-99 | On a port that is not open, or for an empty line, nothing changes. A read error appends the prefixed message and closes the port, and it leaves the decoder and plots alone. Any other line is dispatched and echoed to the console exactly once, and the port stays open. |

## Left out

- main.py, the `InitMainWindow` widget fields and all Qt chart plumbing are left out. This covers series objects, axes, chart view, layout and `scroll(3, 0)`. It is window layout and rendering. Only the values passed to `setRange` are kept, as state.
- Serial I/O is replaced by a port flag and an input parameter. This covers port enumeration, `Serial(...)`, flush, timeout, `readline`, UTF-8 decoding, `strip` and `close`. `GetDataFromPort` receives the stripped line, or the `SerialException` message, as a parameter.
- A `UnicodeDecodeError` from decoding is not caught by `get_data_from_port`, which catches only `SerialException` (src/serial_port.py:95-99). The timer handler in main.py (lines 89-95) catches it and appends its message to the console. This path is not modelled.
- The combo-box refresh in `update_ports` (src/serial_port.py:26-36) is widget plumbing and is left out.
- SerialPort.SerialPortInterface.ConnectSerial: only the successful path is modelled. The failure path is not: an empty selection, or a `Serial(...)` that raises, makes the source hand the exception object to the console. That depends on the widget toolkit.
- `disconnect_serial` is modelled only where it is called, as the port becoming closed after a read error.
- Text.ParseReal: accepts only decimal strings with an optional sign, digits and an optional fraction. Python's `float` also accepts exponents, "inf", "nan", underscores and non-ASCII digits. The model treats such tokens as unparsable.
- IEEE floating point is not modelled. That covers the rounding of `float()`, of `* 9.8`, of the clock sum and of the range arithmetic. Numbers are exact reals, so overflow is not modelled either.
- Text.ParseReal: infinite values are not modelled. Python's `float` makes a decimal token above about 1.8e308 infinite, and it accepts the tokens "inf" and "-inf" too; here the first is an exact real and the second is unparsable. On the accelerometer path the `* 9.8` (src/core.py:148-150) already overflows from about 1.83e307. An infinite value in a plot makes `math.ceil` (widgets/real_time_plot.py:108-109) raise `OverflowError`. That happens after the append (lines 92-94) and before the eviction (lines 111-114). So the infinite point is never evicted: every later `update_data` on that plot raises again, and its series grows without bound. A "nan" token can likewise make `math.ceil` raise `ValueError`, depending on where it sits in the series.
- SerialPort.SerialPortInterface.GetDataFromPort: "dispatched and echoed exactly once" does not hold from the first record that puts an infinite value into a plot onwards. For that record and for every later accepted record whose sample reaches the poisoned plot, the plots after it are not updated and the echo (src/serial_port.py:94) is skipped. The console gets only the exception text, from main.py's timer handler (lines 89-95). The model never raises.
- Plot.LengthBounds: does not hold for a plot once it holds an infinite value, for the reason above. Neither does the invariant `Coherent` (`Plot.StepCoherent`, `Plot.CoherentFacts`, `Plot.ReplayCoherent`).
- Plot.RealTimePlot.constructor: the unit `meta.ceil` and the clock step `DELAY / 100` are parameters. The `constant` module that defines `DELAY` is not part of this model, and the step is only required to be positive. The unused `get_data` argument is dropped.
- The `print` diagnostics in the accessors are logging only. Their outcome is modelled as no value.
- The fields `accel_data`, `gyro_data`, `mag_data`, `temp_data`, `max_x` and `max_y` are never read and are left out.
- `has_magnetometer` and `has_temperature` return the flag fields themselves, so the model reads the fields directly.
- The console is kept as the sequence of appended strings. How the widget displays them is not modelled.

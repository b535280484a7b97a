# RC car controller over Bluetooth LE: a verified model

The controller runs on an nRF52840 board under CircuitPython. It advertises a
UART service. Once a phone connects, it reads one packet per loop iteration:

- Button packets drive two DC motors (`motor4`, `motor3`).
- The same buttons also steer a palette animation on an 8-pixel NeoPixel strip.
- Colour packets pin the strip to one solid colour.

This project models the core of `code.py`:

- the five motor rules;
- the `set_palette` render loop;
- the body of the `while ble.connected` packet loop, including the offset tick;
- the advertise/connect/disconnect outer loop, reduced to its effect on state.

Files:

- `car_spec.dfy`, module `CarSpec`. The pure specification. It holds the
  constants, the `Read` datatype for what one read of the stream yields, and
  the `Car` state (the globals `CURRENT_THROTTLE`, `palette_choice`, `offset`,
  `offset_increment` and `cycling`, the two motor channels, the pixel buffer,
  and the frames flushed to the strip). It also holds one loop iteration
  (`Dispatch`) and a run over many reads (`Run`).
- `car_props.dfy`, module `CarProps`. Lemmas about the specification: the
  effect of each kind of packet, the invariant each iteration keeps, the spin
  formula over many ticks, and the display pinned after a colour packet.
- `controller.dfy`, module `Controller`. Class `RcCar`, the program as it runs.
  The globals are fields, the strip is an `array<Rgb>` written slot by slot,
  and each flush appends the buffer to `shown`. Every method's `ensures` ties
  the new state to the matching `CarSpec` function applied to the old state.

The colour library (`palette_lookup`, `gamma_adjust` with brightness 0.25,
`pack`) is a function value `shade: (Palette, real) -> Rgb`. The model never
looks inside it. Throttle values are exact `real`s, so `T / 1.2` has no
rounding. Python's `%` with the positive modulus `OFFSET_MAX` is a floored
modulo. For that divisor it agrees with Dafny's Euclidean `%`, including for
negative increments.

Two behaviours of the code that are easy to misread:

- A packet that is neither a button nor a colour packet (or no packet at
  all) changes no global. It still triggers a tick when cycling is on
  (code.py:218-220). Only a decode failure (`ValueError`) skips the iteration
  with no effect at all.
- A released button, like a pressed one, also sets `cycling` to true
  (code.py:197-198).

## Model

| member | source | states |
|---|---|---|
| CarSpec.Initial | code.py:44-115 | Power-up state: throttle 0.5, Rainbow palette, offset 0, increment 1, cycling on, no frame flushed yet; the state invariant holds |
| CarSpec.Frame | code.py:101-107 | The render writes exactly NUM_LEDS slots |
| CarSpec.Solid | code.py:195 | A fill covers exactly NUM_LEDS slots |
| CarSpec.Tick | code.py:218-220 | The new offset is in [0, 1000000) and congruent to offset + increment modulo OFFSET_MAX for any sign of the increment; pixels are the current palette rendered at the new offset; exactly one frame is flushed; nothing else changes |
| CarSpec.Dispatch | code.py:161-164 | A decode failure (ValueError) leaves the whole state unchanged and skips the tick |
| CarProps.DispatchKeepsValid | code.py:159-220 | Every iteration preserves the invariant: offset in [0, OFFSET_MAX), throttle on a preset, both motor channels in [-1, 1], NUM_LEDS-slot buffer and frames |
| CarProps.PressUp | code.py:169-214 | Pressed Up: motors (T, -T), cycling on, increment + 1, offset advanced by the new increment, throttle and palette unchanged |
| CarProps.PressDown | code.py:171-216 | Pressed Down: motors (-T, T), cycling on, increment - 1, offset advanced by the new increment, throttle and palette unchanged |
| CarProps.PressTurn | code.py:130-176 | Pressed Left: motors (T, -T/1.2); pressed Right: motors (T/1.2, -T); cycling on; throttle, palette and increment unchanged |
| CarProps.PressNumbered | code.py:177-211 | Pressed Button1..4: throttle 1.0 / 0.70 / 0.5 / 0.3 and palette Rainbow / Gradient / Fire / Water; motors untouched; increment unchanged; the tick of the same iteration renders the new palette |
| CarProps.PresetAppliesAtNextMove | code.py:118-121 | After a preset press, the next Up drives the motors at that preset's throttle |
| CarProps.Release | code.py:189-198 | Any released button sets both motors to 0.0 and cycling on; throttle, palette and increment unchanged |
| CarProps.HaltIdempotent | code.py:142-144 | Stopping twice is the same as stopping once; both channels end at 0.0 |
| CarProps.ColorFill | code.py:192-196 | A colour packet turns cycling off, fills every pixel with the colour and flushes once; throttle, palette, offset, increment and motors unchanged |
| CarProps.OtherRead | code.py:192-220 | A packet of another kind changes no global and no motor; it ticks exactly when cycling is on, re-rendering the current palette at the advanced offset and flushing that frame once |
| CarProps.RunFront | code.py:159-220 | A run that begins with one read equals that iteration followed by a run over the rest |
| CarProps.RunSplit | code.py:147-222 | Splitting a run of reads in two (as at a disconnect) gives the same final state |
| CarProps.RunKeepsValid | code.py:159-220 | Any sequence of reads preserves the invariant, so the offset stays in [0, OFFSET_MAX) and the motors in [-1, 1] |
| CarProps.Spin | code.py:96-98 | While cycling, n handled reads that do not change the speed leave the offset at (offset + n * increment) mod OFFSET_MAX, for any sign of the increment; the strip shows the current palette at that offset |
| CarProps.Pinned | code.py:192-218 | With cycling off and no button read, nothing ticks: offset, increment, palette, throttle and motors stay frozen; without a colour packet the strip is neither rewritten nor flushed |
| CarProps.ColorHolds | code.py:192-196 | After a colour packet, reads that are neither buttons nor colours keep that solid colour on the strip, with no further flush and the offset unchanged |
| Controller.RcCar.constructor | code.py:49-115 | The object starts in the initial state with a dark buffer, advertising, and satisfies the class invariant |
| Controller.RcCar.MoveForward | code.py:118-121 | motor4 = T, motor3 = -T; nothing else changes |
| Controller.RcCar.MoveBackward | code.py:124-127 | motor4 = -T, motor3 = T; nothing else changes |
| Controller.RcCar.MoveLeft | code.py:130-133 | motor4 = T, motor3 = -T/1.2; nothing else changes |
| Controller.RcCar.MoveRight | code.py:136-139 | motor4 = T/1.2, motor3 = -T; nothing else changes |
| Controller.RcCar.Stop | code.py:142-144 | Both motors 0.0; nothing else changes |
| Controller.RcCar.SetPalette | code.py:101-108 | Every slot i in [0, NUM_LEDS) is written once, from the palette at position (offset + i) / NUM_LEDS; exactly one flush, of the finished buffer, after the loop |
| Controller.RcCar.FillAndShow | code.py:195-196 | Every slot holds the colour; exactly one flush of that buffer |
| Controller.RcCar.Tick | code.py:218-220 | The in-place tick matches CarSpec.Tick |
| Controller.RcCar.Step | code.py:159-220 | One in-place loop iteration matches CarSpec.Dispatch on the old state; the link stays connected; the class invariant (offset in [0, OFFSET_MAX), preset throttle, motors in [-1, 1]) is kept |
| Controller.RcCar.Serve | code.py:159-220 | Handling a connection's reads in place matches CarSpec.Run and keeps the class invariant |
| Controller.RcCar.Connect | code.py:150-155 | Connecting only changes the link state; no global, motor or pixel is reset |
| Controller.RcCar.Disconnect | code.py:221-222 | Disconnecting only changes the link state back to advertising; no global, motor or pixel is reset |
| Controller.RcCar.Operate | code.py:147-222 | Any number of connect/serve/disconnect rounds gives the state of one run over all the reads and keeps the class invariant |

## Left out

- Bluetooth advertising and the busy-wait for a connection (code.py:148-156) are radio I/O. They appear only as the `Connect`/`Disconnect` link changes.
- UART framing and `Packet.from_stream` byte decoding (code.py:162) happen in an external library. Its outcome is the `Read` datatype.
- Colour math (`palette_lookup`, `gamma_adjust`, `pack`) and the concrete palette colours (code.py:60-91, code.py:105-107) are external floating-point code. They are the uninterpreted `shade` function.
- The MotorKit and NeoPixel hardware objects (code.py:38, code.py:94) are plain fields and an array. The motors' value before the first command is taken to be 0.0, because the source does not set it.
- The throttle and motor values use floating point in the source. The model uses exact rationals, so float rounding of `T / 1.2` is not modelled.
- The `print` logging has no behavioural effect.
- Controller.RcCar.Operate: the source's `while True` runs forever. The model covers any finite number of connection rounds, each a finite sequence of reads.

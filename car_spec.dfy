/**
 * Pure specification of the RC-car controller: its tunable constants, the
 * decoded packets it reacts to, the state formed by its module-level globals
 * and outputs, and one pass through the body of the connected packet loop.
 */
module CarSpec {

  // ----- Compiled-in constants -----

  const NUM_LEDS: nat := 8
  const OFFSET_MAX: int := 1000000

  const FULL_THROTTLE: real := 1.0
  const THIRD_THROTTLE: real := 0.70
  const HALF_THROTTLE: real := 0.5
  const LOW_THROTTLE: real := 0.3

  /** A soft turn drives the inner wheel at the throttle divided by this. */
  const TURN_DIVISOR: real := 1.2

  // ----- Values -----

  /** The eight buttons of the remote's control pad. */
  datatype Button = Up | Down | Left | Right | Button1 | Button2 | Button3 | Button4

  /** The four compiled-in palettes, by identity; their colour stops stay inside Shade. */
  datatype Palette = Rainbow | Gradient | Fire | Water

  newtype byte = x: int | 0 <= x < 256

  /** One pixel as the strip holds it. */
  datatype Rgb = Rgb(red: byte, green: byte, blue: byte)

  const BLACK := Rgb(0, 0, 0)

  /**
   * The colour library: look a palette up at a fractional position, apply the
   * gamma correction with brightness 0.25 and pack the result. It is an
   * external, floating-point computation and stays uninterpreted.
   */
  type Shade = (Palette, real) -> Rgb

  /** What one attempt to read a packet from the UART stream produces. */
  datatype Read =
    | ButtonPacket(button: Button, pressed: bool)
    | ColorPacket(color: Rgb)
    | OtherPacket  // no packet, or a packet of another kind
    | Malformed    // the decoder raised ValueError

  /**
   * The module-level globals (throttle, palette choice, offset, offset
   * increment, cycling flag), the two motor channels (motor4, motor3), the
   * pixel buffer and the frames flushed to the strip so far, oldest first.
   */
  datatype Car = Car(
    throttle: real,
    palette: Palette,
    offset: int,
    increment: int,
    cycling: bool,
    motor4: real,
    motor3: real,
    pixels: seq<Rgb>,
    shown: seq<seq<Rgb>>)

  predicate IsPreset(t: real) {
    t == FULL_THROTTLE || t == THIRD_THROTTLE || t == HALF_THROTTLE || t == LOW_THROTTLE
  }

  predicate InMotorRange(x: real) {
    -1.0 <= x <= 1.0
  }

  /**
   * What holds of every reachable state: the offset lies in [0, OFFSET_MAX),
   * the throttle is one of the presets, both motor channels lie in [-1, 1],
   * and the buffer and every flushed frame have NUM_LEDS slots.
   */
  ghost predicate Valid(c: Car) {
    && 0 <= c.offset < OFFSET_MAX
    && IsPreset(c.throttle)
    && InMotorRange(c.motor4)
    && InMotorRange(c.motor3)
    && |c.pixels| == NUM_LEDS
    && (forall f | f in c.shown :: |f| == NUM_LEDS)
  }

  /** The state at power-up: half throttle, rainbow, offset 0 spinning by 1, cycling, all dark. */
  function Initial(): (c: Car)
    ensures Valid(c)
    ensures c.cycling && c.palette == Rainbow && c.offset == 0 && c.increment == 1
    ensures c.throttle == HALF_THROTTLE && c.shown == []
  {
    Car(HALF_THROTTLE, Rainbow, 0, 1, true, 0.0, 0.0, seq(NUM_LEDS, _ => BLACK), [])
  }

  // ----- Throttle presets and palette choice of the numbered buttons -----

  predicate IsNumbered(b: Button) {
    b == Button1 || b == Button2 || b == Button3 || b == Button4
  }

  function PresetThrottle(b: Button): real
    requires IsNumbered(b)
  {
    match b
    case Button1 => FULL_THROTTLE
    case Button2 => THIRD_THROTTLE
    case Button3 => HALF_THROTTLE
    case Button4 => LOW_THROTTLE
  }

  function PresetPalette(b: Button): Palette
    requires IsNumbered(b)
  {
    match b
    case Button1 => Rainbow
    case Button2 => Gradient
    case Button3 => Fire
    case Button4 => Water
  }

  // ----- Motor rules -----

  function Forward(c: Car): Car {
    c.(motor4 := c.throttle, motor3 := -c.throttle)
  }

  function Backward(c: Car): Car {
    c.(motor4 := -c.throttle, motor3 := c.throttle)
  }

  function TurnLeft(c: Car): Car {
    c.(motor4 := c.throttle, motor3 := -c.throttle / TURN_DIVISOR)
  }

  function TurnRight(c: Car): Car {
    c.(motor4 := c.throttle / TURN_DIVISOR, motor3 := -c.throttle)
  }

  function Halt(c: Car): Car {
    c.(motor4 := 0.0, motor3 := 0.0)
  }

  // ----- Rendering -----

  /** The palette position of pixel i: (offset + i) / NUM_LEDS in true division. */
  function Position(offset: int, i: int): real {
    (offset + i) as real / NUM_LEDS as real
  }

  /** The frame the palette render computes for a given offset. */
  function Frame(shade: Shade, p: Palette, offset: int): (f: seq<Rgb>)
    ensures |f| == NUM_LEDS
  {
    seq(NUM_LEDS, i => shade(p, Position(offset, i)))
  }

  /** The buffer after filling every slot with one colour. */
  function Solid(color: Rgb): (f: seq<Rgb>)
    ensures |f| == NUM_LEDS
  {
    seq(NUM_LEDS, _ => color)
  }

  /**
   * One render tick: advance the offset by the increment modulo OFFSET_MAX,
   * then render the current palette at the new offset and flush it once.
   */
  function Tick(shade: Shade, c: Car): (t: Car)
    ensures 0 <= t.offset < OFFSET_MAX
    ensures (t.offset - (c.offset + c.increment)) % OFFSET_MAX == 0
    ensures t.pixels == Frame(shade, c.palette, t.offset)
    ensures t.shown == c.shown + [t.pixels]
    ensures t.(offset := c.offset, pixels := c.pixels, shown := c.shown) == c
  {
    var o := (c.offset + c.increment) % OFFSET_MAX;
    var f := Frame(shade, c.palette, o);
    c.(offset := o, pixels := f, shown := c.shown + [f])
  }

  // ----- One iteration of the packet loop -----

  /** The first dispatch block: motor rules and throttle presets. */
  function Drive(c: Car, r: Read): Car {
    match r
    case ButtonPacket(b, pressed) =>
      if pressed then (
        match b
        case Up => Forward(c)
        case Down => Backward(c)
        case Left => TurnLeft(c)
        case Right => TurnRight(c)
        case _ => c.(throttle := PresetThrottle(b)))
      else
        Halt(c)
    case _ => c
  }

  /** The second dispatch block: solid colour, cycling flag, palette and speed. */
  function Animate(c: Car, r: Read): Car {
    match r
    case ColorPacket(color) =>
      c.(cycling := false, pixels := Solid(color), shown := c.shown + [Solid(color)])
    case ButtonPacket(b, pressed) =>
      var d := c.(cycling := true);
      if !pressed then d
      else (
        match b
        case Up => d.(increment := d.increment + 1)
        case Down => d.(increment := d.increment - 1)
        case Left => d
        case Right => d
        case _ => d.(palette := PresetPalette(b)))
    case _ => c
  }

  /**
   * One iteration of the connected loop: a malformed packet is skipped with
   * no tick; otherwise the packet is dispatched and, if cycling, a tick follows.
   */
  function Dispatch(shade: Shade, c: Car, r: Read): (t: Car)
    ensures r.Malformed? ==> t == c
  {
    if r.Malformed? then c
    else
      var d := Animate(Drive(c, r), r);
      if d.cycling then Tick(shade, d) else d
  }

  /** The state after the loop has handled every read in rs, in order. */
  function Run(shade: Shade, c: Car, rs: seq<Read>): Car
    decreases |rs|
  {
    if rs == [] then c
    else Dispatch(shade, Run(shade, c, rs[..|rs| - 1]), rs[|rs| - 1])
  }

  /** The reads of several connections, one after the other. */
  function Concat(sessions: seq<seq<Read>>): seq<Read>
    decreases |sessions|
  {
    if sessions == [] then []
    else Concat(sessions[..|sessions| - 1]) + sessions[|sessions| - 1]
  }
}

/**
 * The controller as the program runs it: module-level globals updated in
 * place, two motor channels, a pixel buffer written slot by slot and flushed
 * to the strip, and the link state of the advertise/connect loop. Every
 * method is proved against the pure specification in CarSpec.
 */
module Controller {
  import opened CarSpec
  import CarProps

  /** Where the outer loop is: advertising and waiting, or serving a connection. */
  datatype Link = Advertising | Connected

  class RcCar {
    /** The colour library used by the render (lookup, gamma, pack). */
    const shade: Shade
    /** The NeoPixel buffer. */
    const pixels: array<Rgb>

    var throttle: real
    var palette: Palette
    var offset: int
    var increment: int
    var cycling: bool
    var motor4: real
    var motor3: real
    /** Every frame flushed to the strip so far, oldest first. */
    var shown: seq<seq<Rgb>>
    var link: Link

    /** The buffer has one slot per LED. */
    ghost predicate Ready()
      reads this
    {
      pixels.Length == NUM_LEDS
    }

    /**
     * The class invariant: the buffer has NUM_LEDS slots and the state keeps
     * the offset in [0, OFFSET_MAX), the throttle on a preset and both motor
     * channels in [-1, 1].
     */
    ghost predicate Valid()
      reads this, pixels
    {
      Ready() && CarSpec.Valid(State())
    }

    /** The abstract state the specification speaks of. */
    ghost function State(): Car
      reads this, pixels
    {
      Car(throttle, palette, offset, increment, cycling, motor4, motor3, pixels[..], shown)
    }

    /** Power-up: the initial globals, a dark buffer, and the link advertising. */
    constructor (shade: Shade)
      ensures Valid() && fresh(pixels)
      ensures this.shade == shade
      ensures State() == Initial() && link == Advertising
    {
      this.shade := shade;
      pixels := new Rgb[NUM_LEDS](_ => BLACK);
      throttle := HALF_THROTTLE;
      palette := Rainbow;
      offset := 0;
      increment := 1;
      cycling := true;
      motor4, motor3 := 0.0, 0.0;
      shown := [];
      link := Advertising;
    }

    // ----- Motor rules -----

    method MoveForward()
      modifies this`motor4, this`motor3
      ensures State() == Forward(old(State()))
    {
      motor4 := throttle;
      motor3 := -throttle;
    }

    method MoveBackward()
      modifies this`motor4, this`motor3
      ensures State() == Backward(old(State()))
    {
      motor4 := -throttle;
      motor3 := throttle;
    }

    method MoveLeft()
      modifies this`motor4, this`motor3
      ensures State() == TurnLeft(old(State()))
    {
      motor4 := throttle;
      motor3 := -throttle / TURN_DIVISOR;
    }

    method MoveRight()
      modifies this`motor4, this`motor3
      ensures State() == TurnRight(old(State()))
    {
      motor4 := throttle / TURN_DIVISOR;
      motor3 := -throttle;
    }

    method Stop()
      modifies this`motor4, this`motor3
      ensures State() == Halt(old(State()))
    {
      motor4 := 0.0;
      motor3 := 0.0;
    }

    // ----- Strip -----

    /**
     * Render palette p at the current offset: write every slot once, in
     * order, and flush the buffer once, after the last write.
     */
    method SetPalette(p: Palette)
      requires Ready()
      modifies pixels, this`shown
      ensures pixels[..] == Frame(shade, p, offset)
      ensures shown == old(shown) + [Frame(shade, p, offset)]
    {
      for i := 0 to NUM_LEDS
        invariant shown == old(shown)
        invariant forall k | 0 <= k < i :: pixels[k] == shade(p, Position(offset, k))
      {
        pixels[i] := shade(p, Position(offset, i));
      }
      shown := shown + [pixels[..]];
    }

    /** Fill every slot with one colour and flush once. */
    method FillAndShow(color: Rgb)
      requires Ready()
      modifies pixels, this`shown
      ensures pixels[..] == Solid(color)
      ensures shown == old(shown) + [Solid(color)]
    {
      forall i | 0 <= i < pixels.Length {
        pixels[i] := color;
      }
      shown := shown + [pixels[..]];
    }

    // ----- Packet loop -----

    /** Advance the offset by the increment and re-render the current palette. */
    method Tick()
      requires Ready()
      modifies pixels, this`offset, this`shown
      ensures State() == CarSpec.Tick(shade, old(State()))
    {
      offset := (offset + increment) % OFFSET_MAX;
      SetPalette(palette);
    }

    /** One iteration of the connected loop, for what the read produced. */
    method Step(r: Read)
      requires Valid() && link == Connected
      modifies this, pixels
      ensures State() == Dispatch(shade, old(State()), r)
      ensures link == Connected && Valid()
    {
      CarProps.DispatchKeepsValid(shade, State(), r);
      if r.Malformed? {
        return;
      }
      ghost var start := State();

      if r.ButtonPacket? {
        if r.pressed {
          match r.button
          case Up => MoveForward();
          case Down => MoveBackward();
          case Left => MoveLeft();
          case Right => MoveRight();
          case Button1 => throttle := FULL_THROTTLE;
          case Button2 => throttle := THIRD_THROTTLE;
          case Button3 => throttle := HALF_THROTTLE;
          case Button4 => throttle := LOW_THROTTLE;
        } else {
          Stop();
        }
      }
      assert State() == Drive(start, r);

      if r.ColorPacket? {
        cycling := false;
        FillAndShow(r.color);
      } else if r.ButtonPacket? {
        cycling := true;
        if r.pressed {
          match r.button
          case Button1 => palette := Rainbow;
          case Button2 => palette := Gradient;
          case Button3 => palette := Fire;
          case Button4 => palette := Water;
          case Up => increment := increment + 1;
          case Down => increment := increment - 1;
          case Left =>
          case Right =>
        }
      }
      assert State() == Animate(Drive(start, r), r);

      if cycling {
        Tick();
      }
    }

    /** Serve a connection: handle every read in order while the link stays up. */
    method Serve(packets: seq<Read>)
      requires Valid() && link == Connected
      modifies this, pixels
      ensures State() == Run(shade, old(State()), packets)
      ensures link == Connected && Valid()
    {
      for i := 0 to |packets|
        invariant link == Connected && Valid()
        invariant State() == Run(shade, old(State()), packets[..i])
      {
        assert packets[..i + 1][..i] == packets[..i];
        Step(packets[i]);
      }
      assert packets[..|packets|] == packets;
    }

    // ----- Link lifecycle -----

    /** A central connected: stop advertising; no global is reset. */
    method Connect()
      requires link == Advertising
      modifies this`link
      ensures link == Connected && State() == old(State())
    {
      link := Connected;
    }

    /** The link dropped: advertise again; motors, strip and globals keep their values. */
    method Disconnect()
      requires link == Connected
      modifies this`link
      ensures link == Advertising && State() == old(State())
    {
      link := Advertising;
    }

    /**
     * The outer loop: for each connection, stop advertising once connected,
     * serve its reads, then advertise again. No global, motor or pixel is reset
     * between connections, so the result is one run over all the reads.
     */
    method Operate(sessions: seq<seq<Read>>)
      requires Valid() && link == Advertising
      modifies this, pixels
      ensures State() == Run(shade, old(State()), Concat(sessions))
      ensures link == Advertising && Valid()
    {
      for i := 0 to |sessions|
        invariant link == Advertising && Valid()
        invariant State() == Run(shade, old(State()), Concat(sessions[..i]))
      {
        assert sessions[..i + 1][..i] == sessions[..i];
        CarProps.RunSplit(shade, old(State()), Concat(sessions[..i]), sessions[i]);
        Connect();
        Serve(sessions[i]);
        Disconnect();
      }
      assert sessions[..|sessions|] == sessions;
    }
  }
}

/**
 * Properties of the packet loop: the effect of each kind of packet, the
 * invariant every iteration keeps, the animation spin over many iterations,
 * and the solid colour that pins the strip until a button arrives.
 */
module CarProps {
  import opened CarSpec

  // ----- One packet -----

  /** Up drives forward at the current throttle, resumes cycling and speeds the spin up by one. */
  lemma PressUp(shade: Shade, c: Car)
    ensures var t := Dispatch(shade, c, ButtonPacket(Up, true));
      && t.motor4 == c.throttle && t.motor3 == -c.throttle
      && t.cycling && t.increment == c.increment + 1
      && t.offset == (c.offset + c.increment + 1) % OFFSET_MAX
      && t.throttle == c.throttle && t.palette == c.palette
  {
  }

  /** Down drives backward at the current throttle, resumes cycling and slows the spin by one. */
  lemma PressDown(shade: Shade, c: Car)
    ensures var t := Dispatch(shade, c, ButtonPacket(Down, true));
      && t.motor4 == -c.throttle && t.motor3 == c.throttle
      && t.cycling && t.increment == c.increment - 1
      && t.offset == (c.offset + c.increment - 1) % OFFSET_MAX
      && t.throttle == c.throttle && t.palette == c.palette
  {
  }

  /** Left and Right are soft turns; throttle, palette and spin speed stay as they were. */
  lemma PressTurn(shade: Shade, c: Car, b: Button)
    requires b == Left || b == Right
    ensures var t := Dispatch(shade, c, ButtonPacket(b, true));
      && (b == Left ==> t.motor4 == c.throttle && t.motor3 == -c.throttle / 1.2)
      && (b == Right ==> t.motor4 == c.throttle / 1.2 && t.motor3 == -c.throttle)
      && t.cycling
      && t.throttle == c.throttle && t.palette == c.palette && t.increment == c.increment
  {
  }

  /**
   * Button1..4 select both a throttle preset and a palette; the motors are not
   * touched, and the new palette is already the one rendered by the tick of
   * the same iteration.
   */
  lemma PressNumbered(shade: Shade, c: Car, b: Button)
    requires IsNumbered(b)
    ensures var t := Dispatch(shade, c, ButtonPacket(b, true));
      && (b == Button1 ==> t.throttle == 1.0 && t.palette == Rainbow)
      && (b == Button2 ==> t.throttle == 0.70 && t.palette == Gradient)
      && (b == Button3 ==> t.throttle == 0.5 && t.palette == Fire)
      && (b == Button4 ==> t.throttle == 0.3 && t.palette == Water)
      && t.motor4 == c.motor4 && t.motor3 == c.motor3
      && t.cycling && t.increment == c.increment
      && t.pixels == Frame(shade, t.palette, t.offset)
  {
  }

  /** A throttle preset only shows on the motors at the next movement. */
  lemma PresetAppliesAtNextMove(shade: Shade, c: Car, b: Button)
    requires IsNumbered(b)
    ensures var t := Run(shade, c, [ButtonPacket(b, true), ButtonPacket(Up, true)]);
      t.motor4 == PresetThrottle(b) && t.motor3 == -PresetThrottle(b)
  {
    var rs := [ButtonPacket(b, true), ButtonPacket(Up, true)];
    assert rs[..1] == [ButtonPacket(b, true)] && rs[..1][..0] == [];
  }

  /** Releasing any button stops both motors and resumes cycling; nothing else of the drive changes. */
  lemma Release(shade: Shade, c: Car, b: Button)
    ensures var t := Dispatch(shade, c, ButtonPacket(b, false));
      && t.motor4 == 0.0 && t.motor3 == 0.0
      && t.cycling
      && t.throttle == c.throttle && t.palette == c.palette && t.increment == c.increment
  {
  }

  /** Stopping is idempotent. */
  lemma HaltIdempotent(c: Car)
    ensures Halt(Halt(c)) == Halt(c)
    ensures Halt(c).motor4 == 0.0 && Halt(c).motor3 == 0.0
  {
  }

  /**
   * A colour packet stops cycling and fills and flushes the strip with that
   * colour; throttle, palette, offset, increment and motors stay unchanged.
   */
  lemma ColorFill(shade: Shade, c: Car, color: Rgb)
    ensures var t := Dispatch(shade, c, ColorPacket(color));
      && !t.cycling
      && t.pixels == Solid(color)
      && t.shown == c.shown + [Solid(color)]
      && t.(cycling := c.cycling, pixels := c.pixels, shown := c.shown) == c
  {
  }

  /**
   * A packet of any other kind (or none) changes no global and no motor; it
   * ticks exactly when cycling is on.
   */
  lemma OtherRead(shade: Shade, c: Car)
    ensures var t := Dispatch(shade, c, OtherPacket);
      && t.(offset := c.offset, pixels := c.pixels, shown := c.shown) == c
      && (c.cycling ==>
            && t.offset == (c.offset + c.increment) % OFFSET_MAX
            && t.pixels == Frame(shade, c.palette, t.offset)
            && t.shown == c.shown + [t.pixels])
      && (!c.cycling ==> t == c)
  {
  }

  // ----- The state invariant -----

  lemma DriveKeepsValid(c: Car, r: Read)
    requires Valid(c)
    ensures Valid(Drive(c, r))
  {
  }

  lemma AnimateKeepsValid(c: Car, r: Read)
    requires Valid(c)
    ensures Valid(Animate(c, r))
  {
  }

  /**
   * Every iteration keeps the offset in [0, OFFSET_MAX), the throttle on a
   * preset, both motor channels in [-1, 1] and every frame NUM_LEDS long.
   */
  lemma DispatchKeepsValid(shade: Shade, c: Car, r: Read)
    requires Valid(c)
    ensures Valid(Dispatch(shade, c, r))
  {
    if !r.Malformed? {
      DriveKeepsValid(c, r);
      AnimateKeepsValid(Drive(c, r), r);
    }
  }

  // ----- Many packets -----

  /** Handling one more read extends a run by one iteration at its front. */
  lemma {:induction false} RunFront(shade: Shade, c: Car, r: Read, rs: seq<Read>)
    ensures Run(shade, c, [r] + rs) == Run(shade, Dispatch(shade, c, r), rs)
    decreases |rs|
  {
    if rs == [] {
      assert ([r] + rs)[..0] == [];
    } else {
      var front := rs[..|rs| - 1];
      assert ([r] + rs)[..|rs|] == [r] + front;
      RunFront(shade, c, r, front);
    }
  }

  /**
   * Splitting the reads in two, for instance at a disconnect, does not change
   * the outcome: the second part starts from the state the first left.
   */
  lemma {:induction false} RunSplit(shade: Shade, c: Car, a: seq<Read>, b: seq<Read>)
    ensures Run(shade, c, a + b) == Run(shade, Run(shade, c, a), b)
    decreases |b|
  {
    if b == [] {
      assert a + b == a;
    } else {
      var front := b[..|b| - 1];
      assert (a + b)[..|a + b| - 1] == a + front;
      RunSplit(shade, c, a, front);
    }
  }

  /** Every iteration keeps the state invariant, whatever the reads. */
  lemma {:induction false} RunKeepsValid(shade: Shade, c: Car, rs: seq<Read>)
    requires Valid(c)
    ensures Valid(Run(shade, c, rs))
    decreases |rs|
  {
    if rs != [] {
      RunKeepsValid(shade, c, rs[..|rs| - 1]);
      DispatchKeepsValid(shade, Run(shade, c, rs[..|rs| - 1]), rs[|rs| - 1]);
    }
  }

  /** Reads that leave the spin speed and the cycling flag alone. */
  predicate KeepsSpin(r: Read) {
    !r.ColorPacket? && !(r.ButtonPacket? && r.pressed && (r.button == Up || r.button == Down))
  }

  /** The number of reads that reach the dispatch step (all but the malformed ones). */
  function Handled(rs: seq<Read>): nat
    decreases |rs|
  {
    if rs == [] then 0
    else Handled(rs[..|rs| - 1]) + (if rs[|rs| - 1].Malformed? then 0 else 1)
  }

  /** One read that keeps the speed, while cycling: a tick unless it was malformed. */
  lemma SpinStep(shade: Shade, c: Car, r: Read)
    requires c.cycling && KeepsSpin(r)
    ensures var t := Dispatch(shade, c, r);
      && t.cycling && t.increment == c.increment
      && (r.Malformed? ==> t == c)
      && (!r.Malformed? ==>
            t.offset == (c.offset + c.increment) % OFFSET_MAX
            && t.pixels == Frame(shade, t.palette, t.offset))
  {
  }

  /** One more tick on top of n ticks of d from o0 is n + 1 ticks of d. */
  lemma SpinArith(o0: int, n: nat, d: int)
    ensures ((o0 + n * d) % OFFSET_MAX + d) % OFFSET_MAX == (o0 + (n + 1) * d) % OFFSET_MAX
  {
    assert (n + 1) * d == n * d + d;
  }

  /**
   * While cycling, n handled reads that keep the speed advance the offset to
   * (offset + n * increment) mod OFFSET_MAX, for any sign of the increment,
   * and the strip shows the current palette at that offset.
   */
  lemma {:induction false} Spin(shade: Shade, c: Car, rs: seq<Read>)
    requires 0 <= c.offset < OFFSET_MAX && c.cycling
    requires forall k | 0 <= k < |rs| :: KeepsSpin(rs[k])
    ensures var t := Run(shade, c, rs);
      && t.cycling && t.increment == c.increment
      && t.offset == (c.offset + Handled(rs) * c.increment) % OFFSET_MAX
      && 0 <= t.offset < OFFSET_MAX
      && (Handled(rs) > 0 ==> t.pixels == Frame(shade, t.palette, t.offset))
    decreases |rs|
  {
    if rs != [] {
      var front := rs[..|rs| - 1];
      Spin(shade, c, front);
      var last := rs[|rs| - 1];
      SpinStep(shade, Run(shade, c, front), last);
      assert Run(shade, c, rs) == Dispatch(shade, Run(shade, c, front), last);
      var n := Handled(front);
      assert Handled(rs) == n + (if last.Malformed? then 0 else 1);
      if !last.Malformed? {
        SpinArith(c.offset, n, c.increment);
      }
    }
  }

  /**
   * Once cycling is off, reads without a button never tick: offset, speed,
   * palette, throttle and motors are frozen, and without a colour packet
   * the strip is neither rewritten nor flushed.
   */
  lemma {:induction false} Pinned(shade: Shade, c: Car, rs: seq<Read>)
    requires !c.cycling
    requires forall k | 0 <= k < |rs| :: !rs[k].ButtonPacket?
    ensures var t := Run(shade, c, rs);
      && !t.cycling
      && t.offset == c.offset && t.increment == c.increment && t.palette == c.palette
      && t.throttle == c.throttle && t.motor4 == c.motor4 && t.motor3 == c.motor3
      && ((forall k | 0 <= k < |rs| :: !rs[k].ColorPacket?) ==> t.pixels == c.pixels && t.shown == c.shown)
    decreases |rs|
  {
    if rs != [] {
      Pinned(shade, c, rs[..|rs| - 1]);
    }
  }

  /**
   * After a colour packet the strip keeps showing that colour, with exactly
   * one flush, through any number of reads that are neither buttons nor colours.
   */
  lemma ColorHolds(shade: Shade, c: Car, color: Rgb, rs: seq<Read>)
    requires forall k | 0 <= k < |rs| :: !rs[k].ButtonPacket? && !rs[k].ColorPacket?
    ensures var t := Run(shade, c, [ColorPacket(color)] + rs);
      && !t.cycling && t.offset == c.offset
      && t.pixels == Solid(color) && t.shown == c.shown + [Solid(color)]
  {
    RunFront(shade, c, ColorPacket(color), rs);
    Pinned(shade, Dispatch(shade, c, ColorPacket(color)), rs);
  }
}

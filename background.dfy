/** The decorative background: deterministic starting positions of the
    floating elements, their icons and animation durations, and a glow that
    follows the mouse, updated at most once per animation frame. */
module Background {
  import opened Common

  /** JavaScript's `a % b` on integers: the remainder of the division that
      truncates toward zero, so it takes the sign of `a` (Dafny's `%` never
      returns a negative remainder). */
  function JsRem(a: int, b: nat): (r: int)
    requires b > 0
    ensures exists q: int :: a == q * b + r
    ensures a >= 0 ==> 0 <= r < b
    ensures a < 0 ==> -(b as int) < r <= 0
  {
    if a >= 0 then
      assert a == (a / b) * b + a % b;
      a % b
    else
      assert a == (-((-a) / b)) * b + -((-a) % b);
      -((-a) % b)
  }

  const DefaultBase: int := 25
  const Spread: nat := 70
  const Step: int := 15

  /** `getDeterministicPosition(index, base)`: a percentage offset. For the
      element indices the page uses (from 0 up) it lies in `[base, base + 69]`;
      a negative index would fall in `[base - 69, base]`. */
  function Position(index: int, base: int := DefaultBase): (r: int)
    ensures index >= 0 ==> base <= r <= base + 69
    ensures index < 0 ==> base - 69 <= r <= base
  {
    base + JsRem(index * Step, Spread)
  }

  /** Leaving out the base means a base of 25. */
  lemma DefaultPosition(index: int)
    ensures Position(index) == Position(index, 25)
  {
  }

  /** 14 steps of 15 are 210 = 3 * 70, so positions repeat every 14 indices. */
  lemma PositionPeriodic(index: nat, base: int)
    ensures Position(index + 14, base) == Position(index, base)
  {
    assert (index + 14) * Step == index * Step + 3 * Spread;
  }

  /** Within one period the fourteen positions are all different. */
  lemma FirstPeriodDistinct(base: int)
    ensures forall i, j :: 0 <= i < j < 14 ==> Position(i, base) != Position(j, base)
  {
    var offsets := seq(14, i requires 0 <= i < 14 => Position(i, base) - base);
    assert offsets == [0, 15, 30, 45, 60, 5, 20, 35, 50, 65, 10, 25, 40, 55];
    assert forall i :: 0 <= i < 14 ==> Position(i, base) == base + offsets[i];
  }

  // --------------------------------------------------------- icons, timing

  const ServiceIcons: seq<string> := ["⚡", "🔧", "🎯", "💡", "🚀", "⭐"]

  /** The icon of floating service element `i`: the list is cycled. */
  function ServiceIcon(i: nat): (r: string)
    ensures r in ServiceIcons
  {
    ServiceIcons[i % |ServiceIcons|]
  }

  /** The icons cycle with period six, and six consecutive elements show each
      icon once. */
  lemma ServiceIconsCycle(i: nat)
    ensures ServiceIcon(i + 6) == ServiceIcon(i)
    ensures forall k :: 0 <= k < 6 ==> ServiceIcon(k) == ServiceIcons[k]
  {
    assert (i + 6) % 6 == i % 6;
  }

  /** Seconds per loop of a floating service element: 4, 5 or 6. */
  function ServiceDuration(i: nat): (d: nat)
    ensures 4 <= d <= 6
  {
    4 + i % 3
  }

  /** The delay before a service element starts, in seconds. */
  function ServiceDelay(i: nat): (d: real)
    ensures d == 0.0 || d == 0.7 || d == 1.4
  {
    (i % 3) as real * 0.7
  }

  /** Seconds per loop of a particle of the other sections: 2, 3 or 4. */
  function ParticleDuration(i: nat): (d: nat)
    ensures 2 <= d <= 4
  {
    2 + i % 3
  }

  /** The delay before a particle starts: 0 or half a second. */
  function ParticleDelay(i: nat): (d: real)
    ensures d == 0.0 || d == 0.5
  {
    (i % 2) as real * 0.5
  }

  /** The glowing orbs of the home section grow by 50 pixels and loop 2
      seconds slower with each index. */
  function OrbSize(i: nat): (px: nat)
    ensures px >= 100
  {
    100 + i * 50
  }

  function OrbDuration(i: nat): (s: nat)
    ensures s >= 8
  {
    8 + i * 2
  }

  /** Later orbs are larger and slower. */
  lemma OrbsGrow(i: nat, j: nat)
    requires i < j
    ensures OrbSize(i) < OrbSize(j) && OrbDuration(i) < OrbDuration(j)
  {
  }

  /** Durations and delays depend only on the index modulo 3 (modulo 2 for
      particle delays), so they cycle like the icons. */
  lemma TimingCycles(i: nat)
    ensures ServiceDuration(i + 3) == ServiceDuration(i)
    ensures ParticleDuration(i + 3) == ParticleDuration(i)
    ensures ServiceDelay(i + 3) == ServiceDelay(i)
    ensures ParticleDelay(i + 2) == ParticleDelay(i)
  {
    assert (i + 3) % 3 == i % 3;
    assert (i + 2) % 2 == i % 2;
  }

  // ---------------------------------------------------------- mouse glow

  datatype Point = Point(x: real, y: real)

  /** Half the glow's 384-pixel width: it is centred on the mouse. */
  const GlowOffset: real := 192.0

  /** Where the glow is moved for a recorded mouse position. */
  function FollowerTarget(p: Point): (t: Point)
    ensures t.x + GlowOffset == p.x && t.y + GlowOffset == p.y
  {
    Point(p.x - GlowOffset, p.y - GlowOffset)
  }

  class MouseFollower {
    var mousePosition: Point
    var ticking: bool
    /** The frame requested and not yet run, with the position of the event
        whose handler requested it. */
    var scheduled: Option<Point>

    ghost predicate Valid()
      reads this
    {
      ticking <==> scheduled.Some?
    }

    constructor ()
      ensures Valid()
      ensures mousePosition == Point(0.0, 0.0) && !ticking && scheduled.None?
    {
      mousePosition := Point(0.0, 0.0);
      ticking := false;
      scheduled := None;
    }

    /** A mouse move: dropped while a frame is pending, otherwise it requests
        a frame that will record this event's position. */
    method HandleMouseMove(clientX: real, clientY: real)
      requires Valid()
      modifies this
      ensures Valid()
      ensures ticking && mousePosition == old(mousePosition)
      ensures old(ticking) ==> scheduled == old(scheduled)
      ensures !old(ticking) ==> scheduled == Some(Point(clientX, clientY))
    {
      if !ticking {
        scheduled := Some(Point(clientX, clientY));
        ticking := true;
      }
    }

    /** The requested frame runs. */
    method FrameFires()
      requires Valid() && scheduled.Some?
      modifies this
      ensures Valid()
      ensures mousePosition == old(scheduled).value
      ensures !ticking && scheduled.None?
    {
      mousePosition := scheduled.value;
      ticking := false;
      scheduled := None;
    }
  }
}

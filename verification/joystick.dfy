/**
 The pure decision logic of the joystick firmware (joystick.c): turning raw ADC
 readings into centre-relative coordinates, the deadzone gate, the eight-sector
 direction chain and the change predicate `joystick_changed`.

 Floating point is modelled by `real`; `sqrtf` is replaced by a comparison of
 squares and `atan2f` by an angle supplied in units of pi.
 */
module Joystick {

  import opened Wrappers

  /** A 12-bit ADC sample, as returned by `adc_read`. */
  type Adc = r: int | 0 <= r < 4096

  /** Half the ADC range: the raw value of a centred axis. */
  const ADC_HALF: real := 2048.0

  /** Radius of the deadzone around the rest position (`DEADZONE`). */
  const DEADZONE: real := 0.2

  /** Per-axis movement that counts as a change. */
  const CHANGE_THRESHOLD: real := 0.1

  /** The nine labels the firmware assigns, under their own (Portuguese) names. */
  datatype Direction =
    | Centro | Norte | Noroeste | Oeste | Sudoeste | Sul | Sudeste | Leste | Nordeste

  /** The string literal the firmware points `direction` at. */
  function Label(d: Direction): string
  {
    match d
    case Centro => "Centro"
    case Norte => "Norte"
    case Noroeste => "Noroeste"
    case Oeste => "Oeste"
    case Sudoeste => "Sudoeste"
    case Sul => "Sul"
    case Sudeste => "Sudeste"
    case Leste => "Leste"
    case Nordeste => "Nordeste"
  }

  /** The `const char*` field: either NULL or one of the nine literals. */
  datatype DirectionPtr = Null | Points(target: Direction)

  /** The `JoystickData` record. */
  datatype JoystickData = JoystickData(
    x: real,
    y: real,
    buttonPressed: bool,
    direction: DirectionPtr,
    changed: bool)

  /** `last_joystick_state = {0}`: everything zero, including a NULL direction. */
  const Initial: JoystickData := JoystickData(0.0, 0.0, false, Null, false)

  function Abs(r: real): real
  {
    if r < 0.0 then -r else r
  }

  /** Horizontal coordinate of a raw reading, centred on 0. */
  function NormaliseX(raw: Adc): (x: real)
    ensures -1.0 <= x <= 2047.0 / 2048.0
    ensures x == 0.0 <==> raw == 2048
    ensures (x + 1.0) * ADC_HALF == raw as real
  {
    raw as real / ADC_HALF - 1.0
  }

  /** Vertical coordinate of a raw reading: centred like x, then inverted. */
  function NormaliseY(raw: Adc): (y: real)
    ensures -2047.0 / 2048.0 <= y <= 1.0
    ensures y == 0.0 <==> raw == 2048
    ensures y == -NormaliseX(raw)
  {
    -(raw as real / ADC_HALF - 1.0)
  }

  /** Normalisation is strictly increasing on x and strictly decreasing on y. */
  lemma NormaliseMonotone(a: Adc, b: Adc)
    requires a < b
    ensures NormaliseX(a) < NormaliseX(b)
    ensures NormaliseY(a) > NormaliseY(b)
  {
  }

  /** The deadzone test on squares: the firmware's `magnitude < DEADZONE`. */
  predicate InDeadzone(x: real, y: real)
  {
    x * x + y * y < DEADZONE * DEADZONE
  }

  /** Comparing squares is the same as comparing the non-negative square root. */
  lemma DeadzoneBySquares(x: real, y: real, magnitude: real)
    requires magnitude >= 0.0 && magnitude * magnitude == x * x + y * y
    ensures magnitude < DEADZONE <==> InDeadzone(x, y)
  {
    if magnitude < DEADZONE {
      assert magnitude * magnitude <= magnitude * DEADZONE;
      assert magnitude * DEADZONE < DEADZONE * DEADZONE;
    } else {
      assert magnitude * magnitude >= magnitude * DEADZONE;
      assert magnitude * DEADZONE >= DEADZONE * DEADZONE;
    }
  }

  /** A position within the change threshold of the origin on both axes lies
      inside the deadzone; so a position outside the deadzone is a change
      against a reference at the origin. */
  lemma WithinThresholdIsInDeadzone(x: real, y: real)
    requires Abs(x) <= CHANGE_THRESHOLD && Abs(y) <= CHANGE_THRESHOLD
    ensures InDeadzone(x, y)
  {
    var ax, ay := Abs(x), Abs(y);
    assert x * x == ax * ax && y * y == ay * ay;
    assert ax * ax <= 0.1 * ax <= 0.01;
    assert ay * ay <= 0.1 * ay <= 0.01;
    assert DEADZONE * DEADZONE == 0.04;
  }

  /** Brings an `atan2` result in [-1, 1] (units of pi) into [0, 2) by adding a
      full turn to negative angles. */
  function NormaliseAngle(a: real): (r: real)
    requires -1.0 <= a <= 1.0
    ensures 0.0 <= r < 2.0
    ensures r == a || r == a + 2.0
  {
    if a < 0.0 then a + 2.0 else a
  }

  /** The if-chain of half-open pi/4 intervals, for an angle in units of pi. */
  function Sector(a: real): (d: Direction)
    requires 0.0 <= a < 2.0
    ensures d != Centro
  {
    if a < 0.125 || a >= 1.875 then Norte
    else if a < 0.375 then Noroeste
    else if a < 0.625 then Oeste
    else if a < 0.875 then Sudoeste
    else if a < 1.125 then Sul
    else if a < 1.375 then Sudeste
    else if a < 1.625 then Leste
    else Nordeste
  }

  /** The eight non-centre labels in counter-clockwise order from angle 0. */
  const Compass: seq<Direction> :=
    [Norte, Noroeste, Oeste, Sudoeste, Sul, Sudeste, Leste, Nordeste]

  /** Position of a non-centre label in `Compass`; its sector is centred on
      `CompassIndex(d) * pi/4`. */
  function CompassIndex(d: Direction): (k: nat)
    requires d != Centro
    ensures k < |Compass| && Compass[k] == d
  {
    match d
    case Norte => 0
    case Noroeste => 1
    case Oeste => 2
    case Sudoeste => 3
    case Sul => 4
    case Sudeste => 5
    case Leste => 6
    case Nordeste => 7
  }

  /** `a` lies in the pi/4-wide sector of `d`, lower bound included; the sector
      of `Norte` wraps around angle 0. */
  predicate InSector(a: real, d: Direction)
  {
    && d != Centro
    && var centre := CompassIndex(d) as real / 4.0;
       if d == Norte then a < 0.125 || a >= 1.875
       else centre - 0.125 <= a < centre + 0.125
  }

  /** The chain picks exactly the label whose sector holds the angle: it is
      total and the sectors do not overlap. */
  lemma SectorExact(a: real, d: Direction)
    requires 0.0 <= a < 2.0
    ensures Sector(a) == d <==> InSector(a, d)
  {
  }

  /** An independent description of the chain: round `4a` to the nearest
      integer (halves upward) and index `Compass` modulo 8. */
  lemma SectorByRounding(a: real)
    requires 0.0 <= a < 2.0
    ensures Sector(a) == Compass[(4.0 * a + 0.5).Floor % 8]
  {
    var k := (4.0 * a + 0.5).Floor;
    assert k as real <= 4.0 * a + 0.5 < k as real + 1.0;
    assert 0 <= k <= 8;
    if k == 0 || k == 8 {
      assert Sector(a) == Norte;
    } else {
      assert (k as real - 0.5) / 4.0 <= a < (k as real + 0.5) / 4.0;
    }
  }

  /** Result of the deadzone gate and direction choice. */
  datatype Position = Position(x: real, y: real, direction: Direction)

  /** Deadzone gate followed by the sector chain; `atan2Pi` is `atan2f(y, x)`
      divided by pi, used only outside the deadzone. */
  function Classify(x: real, y: real, atan2Pi: real): (p: Position)
    requires -1.0 <= atan2Pi <= 1.0
    ensures p.direction == Centro <==> InDeadzone(x, y)
    ensures InDeadzone(x, y) ==> p.x == 0.0 && p.y == 0.0
    ensures !InDeadzone(x, y) ==>
      p.x == x && p.y == y && InSector(NormaliseAngle(atan2Pi), p.direction)
  {
    if InDeadzone(x, y) then Position(0.0, 0.0, Centro)
    else
      var d := Sector(NormaliseAngle(atan2Pi));
      SectorExact(NormaliseAngle(atan2Pi), d);
      Position(x, y, d)
  }

  /** `joystick_changed` with the NULL direction of the initial slot treated as
      different from every label (see `ChangedAsWritten` for the code as it stands). */
  predicate Changed(sample: JoystickData, last: JoystickData)
    ensures sample.direction != last.direction ==> Changed(sample, last)
    ensures sample.(changed := last.changed) == last ==> !Changed(sample, last)
  {
    || Abs(sample.x - last.x) > CHANGE_THRESHOLD
    || Abs(sample.y - last.y) > CHANGE_THRESHOLD
    || sample.buttonPressed != last.buttonPressed
    || sample.direction != last.direction
  }

  /** `joystick_changed` as written: the clauses are tried in order and the last
      one calls `strcmp`, which is undefined (`None`) when a direction is NULL. */
  function ChangedAsWritten(sample: JoystickData, last: JoystickData): (r: Option<bool>)
    ensures r.Some? ==> (r.value <==> Changed(sample, last))
    ensures r.None? <==>
      && !(Abs(sample.x - last.x) > CHANGE_THRESHOLD)
      && !(Abs(sample.y - last.y) > CHANGE_THRESHOLD)
      && sample.buttonPressed == last.buttonPressed
      && (sample.direction.Null? || last.direction.Null?)
  {
    if || Abs(sample.x - last.x) > CHANGE_THRESHOLD
       || Abs(sample.y - last.y) > CHANGE_THRESHOLD
       || sample.buttonPressed != last.buttonPressed
    then Some(true)
    else if sample.direction.Null? || last.direction.Null? then None
    else Some(Label(sample.direction.target) != Label(last.direction.target))
  }

  /** The nine literals are pairwise distinct, so comparing them with `strcmp`
      is comparing the labels themselves. */
  lemma LabelInjective(a: Direction, b: Direction)
    ensures Label(a) == Label(b) <==> a == b
  {
  }

  /** Swapping the new sample and the reference gives the same verdict. */
  lemma ChangedSymmetric(a: JoystickData, b: JoystickData)
    ensures Changed(a, b) <==> Changed(b, a)
  {
  }

  /** A sample never counts as a change against itself, whatever its flag. */
  lemma NotChangedAgainstItself(a: JoystickData, flag: bool)
    ensures !Changed(a, a.(changed := flag))
  {
  }

  /** The per-axis comparison is strict: moving exactly the threshold on one
      axis alone is no change, moving more is. */
  lemma ThresholdIsStrict(a: JoystickData, b: JoystickData)
    requires a.y == b.y && a.buttonPressed == b.buttonPressed && a.direction == b.direction
    ensures Abs(a.x - b.x) == CHANGE_THRESHOLD ==> !Changed(a, b)
    ensures Abs(a.x - b.x) > CHANGE_THRESHOLD ==> Changed(a, b)
  {
  }
}

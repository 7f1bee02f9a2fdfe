/**
 `read_joystick` (joystick.c) without its hardware reads: one reading becomes a
 `JoystickData` whose `changed` flag is judged against the single reference
 slot, and the slot is overwritten only when the reading counts as a change.
 The slot is threaded explicitly. The polling loop and the HTTP handler both
 call `read_joystick`; lwIP delivers its callbacks from inside
 `cyw43_arch_poll()` in that same loop, so the calls never overlap and any
 interleaving of the two is a sequence of `Read`s.
 */
module Sampler {

  import opened Wrappers
  import opened Joystick

  /** What one call of `read_joystick` consumes: the two ADC channels, the
      button pin level (pulled up, so `true` means released) and `atan2f(y, x)`
      divided by pi, which the caller supplies because trigonometry is outside
      this model. */
  datatype Reading = Reading(rawX: Adc, rawY: Adc, buttonLevel: bool, atan2Pi: Angle)

  /** `atan2f` returns an angle in [-pi, pi]; here in units of pi. */
  type Angle = a: real | -1.0 <= a <= 1.0

  /** The sample `read_joystick` builds before it computes the change flag. */
  function Sample(r: Reading): (d: JoystickData)
    ensures d.direction.Points?
    ensures d.buttonPressed <==> !r.buttonLevel
    ensures var x, y := NormaliseX(r.rawX), NormaliseY(r.rawY);
      if InDeadzone(x, y) then d.x == 0.0 && d.y == 0.0 && d.direction == Points(Centro)
      else
        && d.x == x && d.y == y && d.direction != Points(Centro)
        && InSector(NormaliseAngle(r.atan2Pi), d.direction.target)
  {
    var p := Classify(NormaliseX(r.rawX), NormaliseY(r.rawY), r.atan2Pi);
    JoystickData(p.x, p.y, !r.buttonLevel, Points(p.direction), false)
  }

  /** The value returned by one call and the reference slot after it. */
  datatype Step = Step(data: JoystickData, slot: JoystickData)

  /** One call of `read_joystick`, with the corrected change predicate. */
  function Read(last: JoystickData, r: Reading): (s: Step)
    ensures s.data == Sample(r).(changed := s.data.changed)
    ensures s.data.changed <==> Changed(s.data, last)
    ensures s.slot == if s.data.changed then s.data else last
  {
    var d := Sample(r);
    var c := Changed(d, last);
    Step(d.(changed := c), if c then d.(changed := c) else last)
  }

  /** One call of `read_joystick` as written; `None` when `joystick_changed`
      reaches `strcmp` with the NULL direction of the initial slot. */
  function ReadAsWritten(last: JoystickData, r: Reading): (o: Option<Step>)
    ensures o.Some? ==> o.value == Read(last, r)
    ensures last.direction.Points? ==> o.Some?
  {
    var d := Sample(r);
    match ChangedAsWritten(d, last)
    case None => None
    case Some(c) => Some(Step(d.(changed := c), if c then d.(changed := c) else last))
  }

  /** Reading the same inputs twice in a row: the second call reports no change
      and leaves the slot where the first call put it. */
  lemma ReadAgainIsUnchanged(last: JoystickData, r: Reading)
    ensures var first := Read(last, r);
      var second := Read(first.slot, r);
      !second.data.changed && second.slot == first.slot
  {
    var first := Read(last, r);
    if first.data.changed {
      NotChangedAgainstItself(Sample(r), true);
    }
  }

  /** The boot slot agrees with a centred sample taken with the button released
      on position and button, and differs only in carrying no label: this is
      why the first such reading falls through to the direction comparison. */
  lemma BootSlotDiffersFromRestOnlyInLabel(r: Reading)
    requires InDeadzone(NormaliseX(r.rawX), NormaliseY(r.rawY)) && r.buttonLevel
    ensures Sample(r).x == Initial.x && Sample(r).y == Initial.y
    ensures Sample(r).buttonPressed == Initial.buttonPressed
    ensures Initial.direction.Null? && Sample(r).direction == Points(Centro)
  {
  }

  /** With the corrected predicate, the first reading after boot always counts
      as a change and fills the slot. */
  lemma FirstReadReportsChange(r: Reading)
    ensures Read(Initial, r).data.changed
    ensures Read(Initial, r).slot == Read(Initial, r).data
  {
  }

  /** The code as written reaches `strcmp(…, NULL)` on the first reading exactly
      when the stick rests in the deadzone with the button released; any other
      first reading is already a change on an earlier clause. */
  lemma FirstReadAsWrittenUndefined(r: Reading)
    ensures ReadAsWritten(Initial, r).None? <==>
      InDeadzone(NormaliseX(r.rawX), NormaliseY(r.rawY)) && r.buttonLevel
  {
    var x, y := NormaliseX(r.rawX), NormaliseY(r.rawY);
    if Abs(x) <= CHANGE_THRESHOLD && Abs(y) <= CHANGE_THRESHOLD {
      WithinThresholdIsInDeadzone(x, y);
    }
  }

  /** A concrete instance: the stick at rest, button released, on the first call. */
  lemma RestAtBootIsUndefined()
    ensures ReadAsWritten(Initial, Reading(2048, 2048, true, 0.0)) == None
  {
    assert InDeadzone(NormaliseX(2048), NormaliseY(2048));
  }

  /** Everything `read_joystick` returned over a run, and the final slot. */
  datatype Trace = Trace(slot: JoystickData, outputs: seq<JoystickData>)

  /** Successive calls of `read_joystick` starting from `slot`. */
  function Run(slot: JoystickData, rs: seq<Reading>): (t: Trace)
    ensures |t.outputs| == |rs|
    ensures forall i :: 0 <= i < |t.outputs| ==> t.outputs[i].direction.Points?
    ensures t.slot == slot || t.slot.direction.Points?
    decreases |rs|
  {
    if rs == [] then Trace(slot, [])
    else
      var prev := Run(slot, rs[..|rs| - 1]);
      var s := Read(prev.slot, rs[|rs| - 1]);
      Trace(s.slot, prev.outputs + [s.data])
  }

  /** The outputs that reported a change, i.e. the ones the firmware logs. */
  function Changes(outputs: seq<JoystickData>): (cs: seq<JoystickData>)
    ensures |cs| <= |outputs|
    ensures forall i :: 0 <= i < |cs| ==> cs[i].changed && cs[i] in outputs
    ensures forall i :: 0 <= i < |outputs| && outputs[i].changed ==> outputs[i] in cs
  {
    if outputs == [] then []
    else
      var last := outputs[|outputs| - 1];
      var init := Changes(outputs[..|outputs| - 1]);
      assert outputs == outputs[..|outputs| - 1] + [last];
      if last.changed then init + [last] else init
  }

  /** Extending a run by one reading is one more `Read` on its final slot. */
  lemma RunSnoc(slot: JoystickData, rs: seq<Reading>, k: nat)
    requires k < |rs|
    ensures var prev := Run(slot, rs[..k]);
      var s := Read(prev.slot, rs[k]);
      Run(slot, rs[..k + 1]) == Trace(s.slot, prev.outputs + [s.data])
  {
    assert rs[..k + 1][..k] == rs[..k];
  }

  /** Logging one more output appends it iff it reports a change. */
  lemma ChangesSnoc(outputs: seq<JoystickData>, d: JoystickData)
    ensures Changes(outputs + [d]) == Changes(outputs) + (if d.changed then [d] else [])
  {
    assert (outputs + [d])[..|outputs|] == outputs;
  }

  /** The slot always holds the latest output that reported a change, or its
      starting value if none did. */
  lemma {:induction false} SlotIsLatestChange(slot: JoystickData, rs: seq<Reading>)
    ensures var t := Run(slot, rs);
      var cs := Changes(t.outputs);
      t.slot == if cs == [] then slot else cs[|cs| - 1]
    decreases |rs|
  {
    if rs != [] {
      var k := |rs| - 1;
      assert rs[..k + 1] == rs;
      RunSnoc(slot, rs, k);
      SlotIsLatestChange(slot, rs[..k]);
      var prev := Run(slot, rs[..k]);
      ChangesSnoc(prev.outputs, Read(prev.slot, rs[k]).data);
    }
  }

  /** From boot, a non-empty run always contains a reported change. */
  lemma {:induction false} RunFromBootChanges(rs: seq<Reading>)
    requires |rs| > 0
    ensures |Changes(Run(Initial, rs).outputs)| > 0
    decreases |rs|
  {
    var k := |rs| - 1;
    assert rs[..k + 1] == rs;
    RunSnoc(Initial, rs, k);
    var prev := Run(Initial, rs[..k]);
    ChangesSnoc(prev.outputs, Read(prev.slot, rs[k]).data);
    if k == 0 {
      assert rs[..0] == [];
      FirstReadReportsChange(rs[0]);
    } else {
      RunFromBootChanges(rs[..k]);
    }
  }

  /** After the first call the slot always holds a real label. */
  lemma SlotSettlesAfterFirstRead(rs: seq<Reading>)
    requires |rs| > 0
    ensures Run(Initial, rs).slot.direction.Points?
  {
    SlotIsLatestChange(Initial, rs);
    RunFromBootChanges(rs);
  }

  /** Successive calls as written; `None` once any call is undefined. */
  function RunAsWritten(slot: JoystickData, rs: seq<Reading>): (o: Option<Trace>)
    ensures o.Some? ==> o.value == Run(slot, rs)
    decreases |rs|
  {
    if rs == [] then Some(Trace(slot, []))
    else
      match RunAsWritten(slot, rs[..|rs| - 1])
      case None => None
      case Some(prev) =>
        match ReadAsWritten(prev.slot, rs[|rs| - 1])
        case None => None
        case Some(s) => Some(Trace(s.slot, prev.outputs + [s.data]))
  }

  /** The code as written and the corrected model agree on every run whose
      first call is defined: only that first call can meet the NULL direction. */
  lemma {:induction false} AsWrittenAgreesAfterFirstRead(rs: seq<Reading>)
    requires |rs| > 0
    requires ReadAsWritten(Initial, rs[0]).Some?
    ensures RunAsWritten(Initial, rs) == Some(Run(Initial, rs))
    decreases |rs|
  {
    if |rs| > 1 {
      var init := rs[..|rs| - 1];
      assert init[0] == rs[0];
      AsWrittenAgreesAfterFirstRead(init);
      SlotSettlesAfterFirstRead(init);
    }
  }

  /** The polling loop of `main` together with the HTTP handler it serves from
      `cyw43_arch_poll()`: `rs` is every call of `read_joystick`, from either
      place, in order, and `printed` is what the two log blocks print, each
      logging exactly the samples flagged as changed. */
  method Poll(rs: seq<Reading>) returns (reference: JoystickData, printed: seq<JoystickData>)
    ensures reference == Run(Initial, rs).slot
    ensures printed == Changes(Run(Initial, rs).outputs)
    ensures forall i :: 0 <= i < |printed| ==> printed[i].changed
    ensures rs != [] ==> printed != [] && reference == printed[|printed| - 1]
    ensures rs != [] ==> reference.direction.Points?
  {
    reference, printed := Initial, [];
    ghost var outputs: seq<JoystickData> := [];
    var k := 0;
    assert rs[..0] == [];
    while k < |rs|
      invariant 0 <= k <= |rs|
      invariant Run(Initial, rs[..k]) == Trace(reference, outputs)
      invariant printed == Changes(outputs)
    {
      var s := Read(reference, rs[k]);
      RunSnoc(Initial, rs, k);
      ChangesSnoc(outputs, s.data);
      if s.data.changed {
        printed := printed + [s.data];
      }
      outputs := outputs + [s.data];
      reference := s.slot;
      k := k + 1;
    }
    assert rs[..|rs|] == rs;
    SlotIsLatestChange(Initial, rs);
    if rs != [] {
      RunFromBootChanges(rs);
    }
  }
}

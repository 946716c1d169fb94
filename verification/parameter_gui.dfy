/** The hand-off of tunable simulation parameters from the settings window to
    the simulation configuration. The window (`gui_system`) edits a separate
    `GUIConfig` resource and raises its `applied_changes` flag when any slider
    moved; `apply_gui_updates` copies the nine tunables into the simulation's
    `ParticleConfig` when that flag is up and the resource was touched since
    the last run, then lowers the flag. */
module ParameterGui {
  import opened Types
  import opened Config

  /** The nine values the window edits, in slider order. */
  datatype Tunables = Tunables(
    fixedDeltaTime: real,
    gravity: real,
    dampingFactor: real,
    smoothingRadius: real,
    maxEnergy: real,
    targetDensity: real,
    pressureMultiplier: real,
    viscosityStrength: real,
    nearDensityMultiplier: real)

  /** `GUIConfig`: the tunables plus the pending-changes flag. */
  datatype GuiConfig = GuiConfig(values: Tunables, appliedChanges: bool)

  const SLIDER_COUNT: nat := 9

  /** The value of slider i. */
  function Field(t: Tunables, i: nat): real
    requires i < SLIDER_COUNT
  {
    match i
    case 0 => t.fixedDeltaTime
    case 1 => t.gravity
    case 2 => t.dampingFactor
    case 3 => t.smoothingRadius
    case 4 => t.maxEnergy
    case 5 => t.targetDensity
    case 6 => t.pressureMultiplier
    case 7 => t.viscosityStrength
    case _ => t.nearDensityMultiplier
  }

  /** t with slider i set to v. */
  function SetField(t: Tunables, i: nat, v: real): (r: Tunables)
    requires i < SLIDER_COUNT
    ensures Field(r, i) == v
    ensures forall j :: 0 <= j < SLIDER_COUNT && j != i ==> Field(r, j) == Field(t, j)
  {
    match i
    case 0 => t.(fixedDeltaTime := v)
    case 1 => t.(gravity := v)
    case 2 => t.(dampingFactor := v)
    case 3 => t.(smoothingRadius := v)
    case 4 => t.(maxEnergy := v)
    case 5 => t.(targetDensity := v)
    case 6 => t.(pressureMultiplier := v)
    case 7 => t.(viscosityStrength := v)
    case _ => t.(nearDensityMultiplier := v)
  }

  /** Two tunable blocks with the same nine slider values are the same. */
  lemma FieldsDetermineTunables(a: Tunables, b: Tunables)
    requires forall i :: 0 <= i < SLIDER_COUNT ==> Field(a, i) == Field(b, i)
    ensures a == b
  {
    assert Field(a, 0) == Field(b, 0) && Field(a, 1) == Field(b, 1) && Field(a, 2) == Field(b, 2);
    assert Field(a, 3) == Field(b, 3) && Field(a, 4) == Field(b, 4) && Field(a, 5) == Field(b, 5);
    assert Field(a, 6) == Field(b, 6) && Field(a, 7) == Field(b, 7) && Field(a, 8) == Field(b, 8);
  }

  /** The tunables as the simulation configuration holds them. */
  function TunablesOf(c: ParticleConfig): Tunables
  {
    Tunables(c.fixedDeltaTime, c.gravity, c.dampingFactor, c.smoothingRadius, c.maxEnergy,
             c.targetDensity, c.pressureMultiplier, c.viscosityStrength, c.nearDensityMultiplier)
  }

  /** The fields of the simulation configuration the window never edits. */
  predicate SameUntuned(a: ParticleConfig, b: ParticleConfig)
  {
    && a.particleCount == b.particleCount
    && a.particleSize == b.particleSize
    && a.frameCount == b.frameCount
    && a.deltaTime == b.deltaTime
    && a.screenBounds == b.screenBounds
    && a.viewProj == b.viewProj
  }

  /** The nine assignments of the apply branch. */
  function WithTunables(c: ParticleConfig, t: Tunables): (r: ParticleConfig)
    ensures TunablesOf(r) == t
    ensures SameUntuned(r, c)
  {
    c.(fixedDeltaTime := t.fixedDeltaTime,
       gravity := t.gravity,
       dampingFactor := t.dampingFactor,
       smoothingRadius := t.smoothingRadius,
       maxEnergy := t.maxEnergy,
       targetDensity := t.targetDensity,
       pressureMultiplier := t.pressureMultiplier,
       viscosityStrength := t.viscosityStrength,
       nearDensityMultiplier := t.nearDensityMultiplier)
  }

  /** A configuration is determined by its tunables and its untouched fields,
      so the nine assignments of WithTunables are the whole change. */
  lemma TunablesAndRestDetermineConfig(a: ParticleConfig, b: ParticleConfig)
    requires TunablesOf(a) == TunablesOf(b)
    requires SameUntuned(a, b)
    ensures a == b
  {
  }

  /** `apply_gui_updates`; `guiIsChanged` is the scheduler's change-detection
      answer for the window's resource. */
  function ApplyGuiUpdates(sim: ParticleConfig, gui: GuiConfig, guiIsChanged: bool)
    : (r: (ParticleConfig, GuiConfig))
    ensures gui.appliedChanges && guiIsChanged ==>
              TunablesOf(r.0) == gui.values && !r.1.appliedChanges
    ensures !(gui.appliedChanges && guiIsChanged) ==> r.0 == sim && r.1 == gui
    ensures SameUntuned(r.0, sim)
    ensures r.1.values == gui.values
  {
    if gui.appliedChanges && guiIsChanged then
      (WithTunables(sim, gui.values), gui.(appliedChanges := false))
    else
      (sim, gui)
  }

  /** A second application right after the first, with the same
      change-detection answer, changes nothing; once an application has fired,
      no further one changes anything, whatever the answer is. (When the first
      did not fire because the resource counted as unchanged, a later one may
      still fire: the flag is still up.) */
  lemma ApplyIsIdempotent(sim: ParticleConfig, gui: GuiConfig, changed1: bool, changed2: bool)
    ensures var once := ApplyGuiUpdates(sim, gui, changed1);
            ApplyGuiUpdates(once.0, once.1, changed1) == once
    ensures var once := ApplyGuiUpdates(sim, gui, changed1);
            gui.appliedChanges && changed1 ==> ApplyGuiUpdates(once.0, once.1, changed2) == once
  {
  }

  /** `changed |= a; changed |= b; ...`: the disjunction of all the flags. */
  function OrAll(flags: seq<bool>): (r: bool)
  {
    if |flags| == 0 then false else OrAll(flags[..|flags| - 1]) || flags[|flags| - 1]
  }

  lemma {:induction false} OrAllIsSome(flags: seq<bool>)
    ensures OrAll(flags) <==> exists i :: 0 <= i < |flags| && flags[i]
  {
    if |flags| > 0 {
      var init := flags[..|flags| - 1];
      OrAllIsSome(init);
      if OrAll(init) {
        var i :| 0 <= i < |init| && init[i];
        assert flags[i];
      }
      if exists i :: 0 <= i < |flags| && flags[i] {
        var i :| 0 <= i < |flags| && flags[i];
        if i < |init| {
          assert init[i];
        }
      }
    }
  }

  /** What the user does to slider i this frame: leaves it, or drags it to a
      value. A slider reports a change when its value differs afterwards. */
  function SliderMoved(t: Tunables, edits: seq<Option<real>>, i: nat): bool
    requires i < SLIDER_COUNT && |edits| == SLIDER_COUNT
  {
    edits[i].Some? && edits[i].value != Field(t, i)
  }

  function Edited(t: Tunables, edits: seq<Option<real>>, i: nat): real
    requires i < SLIDER_COUNT && |edits| == SLIDER_COUNT
  {
    if edits[i].Some? then edits[i].value else Field(t, i)
  }

  datatype GuiError = NoEguiContext

  /** `gui_system` for one frame: without an egui context the system returns
      its error before touching the resource; otherwise the nine sliders are
      shown in order, each applying its edit and reporting whether it changed,
      and the pending flag is raised if any did. The flag is never lowered. */
  method GuiSystem(gui: GuiConfig, hasContext: bool, edits: seq<Option<real>>)
    returns (r: Result<GuiConfig, GuiError>)
    requires |edits| == SLIDER_COUNT
    ensures !hasContext <==> r.Err?
    ensures r.Ok? ==> forall i :: 0 <= i < SLIDER_COUNT ==> Field(r.value.values, i) == Edited(gui.values, edits, i)
    ensures r.Ok? ==> (r.value.appliedChanges <==>
                         gui.appliedChanges || exists i :: 0 <= i < SLIDER_COUNT && SliderMoved(gui.values, edits, i))
  {
    if !hasContext {
      return Err(NoEguiContext);
    }
    var values := gui.values;
    var changed := false;
    var i := 0;
    while i < SLIDER_COUNT
      invariant i <= SLIDER_COUNT
      invariant forall j :: 0 <= j < i ==> Field(values, j) == Edited(gui.values, edits, j)
      invariant forall j :: i <= j < SLIDER_COUNT ==> Field(values, j) == Field(gui.values, j)
      invariant changed <==> exists j :: 0 <= j < i && SliderMoved(gui.values, edits, j)
    {
      var sliderChanged := false;
      if edits[i].Some? {
        sliderChanged := edits[i].value != Field(values, i);
        values := SetField(values, i, edits[i].value);
      }
      assert sliderChanged == SliderMoved(gui.values, edits, i);
      assert (exists j :: 0 <= j < i + 1 && SliderMoved(gui.values, edits, j)) <==>
             (exists j :: 0 <= j < i && SliderMoved(gui.values, edits, j)) || SliderMoved(gui.values, edits, i);
      changed := changed || sliderChanged;
      i := i + 1;
    }
    var applied := gui.appliedChanges;
    if changed {
      applied := true;
    }
    return Ok(GuiConfig(values, applied));
  }

  /** The flags the nine sliders report, as a sequence. */
  function SliderReports(t: Tunables, edits: seq<Option<real>>): (r: seq<bool>)
    requires |edits| == SLIDER_COUNT
    // The element-wise view of the comprehension, which GuiSystem's proof and
    // OrAllIsSome index into.
    ensures |r| == SLIDER_COUNT
    ensures forall i :: 0 <= i < SLIDER_COUNT ==> r[i] == SliderMoved(t, edits, i)
  {
    seq(SLIDER_COUNT, i requires 0 <= i < SLIDER_COUNT => SliderMoved(t, edits, i))
  }

  /** A frame of the window followed by the hand-off: when the window raised the
      flag and the resource counts as changed, the simulation ends up with
      exactly the values on the sliders and the flag is lowered again. */
  method WindowThenApply(sim: ParticleConfig, gui: GuiConfig, edits: seq<Option<real>>, guiIsChanged: bool)
    returns (sim': ParticleConfig, gui': GuiConfig)
    requires |edits| == SLIDER_COUNT
    ensures SameUntuned(sim', sim)
    ensures (gui.appliedChanges || OrAll(SliderReports(gui.values, edits))) && guiIsChanged ==>
              && (forall i :: 0 <= i < SLIDER_COUNT ==> Field(TunablesOf(sim'), i) == Edited(gui.values, edits, i))
              && !gui'.appliedChanges
    ensures !(gui.appliedChanges || OrAll(SliderReports(gui.values, edits))) ==> sim' == sim
  {
    var shown := GuiSystem(gui, true, edits);
    var reports := SliderReports(gui.values, edits);
    OrAllIsSome(reports);
    assert OrAll(reports) <==> exists i :: 0 <= i < SLIDER_COUNT && SliderMoved(gui.values, edits, i) by {
      if OrAll(reports) {
        var i :| 0 <= i < |reports| && reports[i];
        assert SliderMoved(gui.values, edits, i);
      }
    }
    var r := ApplyGuiUpdates(sim, shown.value, guiIsChanged);
    sim', gui' := r.0, r.1;
  }
}

/**
 * Persistence of the layout: changes of the interface are saved after a pause, and the settings are
 * to end up agreeing with what is on screen. Widths and ratios are taken as exact numbers.
 */
module Layout {
  import opened Prelude

  datatype Dims = Dims(sidebarWidth: real, editorSplitRatio: real)

  const DEFAULTS := Dims(260.0, 0.55)
  const TOLERANCE := 0.0001

  function Max(a: real, b: real): real { if a < b then b else a }

  function Min(a: real, b: real): real { if a < b then a else b }

  function Abs(a: real): real { if a < 0.0 then -a else a }

  /** To the nearest integer, halves upwards. */
  function Round(a: real): real { (a + 0.5).Floor as real }

  function ClampSidebar(w: real): real { Min(480.0, Max(180.0, Round(w))) }

  function ClampSplit(r: real): real { Min(0.65, Max(0.2, r)) }

  function Clamped(d: Dims): Dims {
    Dims(ClampSidebar(d.sidebarWidth), ClampSplit(d.editorSplitRatio))
  }

  /** The layout part of what the settings store does to anything it is given. */
  function Normalized(raw: Dims): Dims {
    Dims(if raw.sidebarWidth > 0.0 then ClampSidebar(raw.sidebarWidth) else DEFAULTS.sidebarWidth,
         ClampSplit(raw.editorSplitRatio))
  }

  /** The settings need no saving: the same width, and a ratio that differs by less than the tolerance. */
  predicate Agrees(settings: Dims, ui: Dims) {
    && settings.sidebarWidth == ClampSidebar(ui.sidebarWidth)
    && Abs(settings.editorSplitRatio - ClampSplit(ui.editorSplitRatio)) < TOLERANCE
  }

  /**
   * The interface, the settings store, the saver's handle, and what the runtime holds: the armed
   * timers with the layouts their callbacks captured, and the saves awaiting the backend.
   */
  datatype State = State(
    ui: Dims,
    settings: Dims,
    handle: Option<nat>,
    armed: map<nat, Dims>,
    nextHandle: nat,
    saves: seq<Dims>)

  // ---------------------------------------------------------------- steps

  function ClearTimeout(s: State, h: nat): State {
    s.(armed := s.armed - {h})
  }

  function SetTimeout(s: State, dims: Dims): State {
    s.(armed := s.armed[s.nextHandle := dims], nextHandle := s.nextHandle + 1)
  }

  /** The timer of the handle, if there is one, gives way to a new one. */
  function ScheduleSave(s: State, dims: Dims): State {
    var cleared := if s.handle.Some? then ClearTimeout(s, s.handle.value) else s;
    SetTimeout(cleared, dims).(handle := Some(s.nextHandle))
  }

  /** The subscriber: any change of the layout schedules a save of it. */
  function Changed(s: State, ui: Dims): State {
    if ui == s.ui then s else ScheduleSave(s.(ui := ui), ui)
  }

  function SetSidebarWidth(s: State, w: real): State {
    Changed(s, s.ui.(sidebarWidth := w))
  }

  function SetSplitRatio(s: State, r: real): State {
    Changed(s, s.ui.(editorSplitRatio := Max(0.2, Min(0.65, r))))
  }

  /** The interface takes over the stored layout. */
  function Hydrate(s: State): State {
    Changed(s, Clamped(s.settings))
  }

  /** Saving is optimistic: the settings change at once, and again when the backend answers. */
  function Patch(s: State, dims: Dims): State {
    s.(settings := Normalized(dims), saves := s.saves + [Normalized(dims)])
  }

  /** Any armed timer may fire; its callback forgets the handle and looks at the layout it captured. */
  function Fire(s: State, h: nat): State
    requires h in s.armed
  {
    var t := s.(handle := None, armed := s.armed - {h});
    if Agrees(s.settings, s.armed[h]) then t else Patch(t, Clamped(s.armed[h]))
  }

  function Without(saves: seq<Dims>, i: nat): (r: seq<Dims>)
    requires i < |saves|
    ensures |r| == |saves| - 1 && forall x :: x in r ==> x in saves
    ensures forall j :: 0 <= j < |r| ==> r[j] == saves[if j < i then j else j + 1]
  {
    saves[..i] + saves[i + 1..]
  }

  /** Any save in flight may be answered next, with what was saved. */
  function Saved(s: State, i: nat): State
    requires i < |s.saves|
  {
    s.(settings := Normalized(s.saves[i]), saves := Without(s.saves, i))
  }

  /** Or fail; the settings stay. */
  function SaveFailed(s: State, i: nat): State
    requires i < |s.saves|
  {
    s.(saves := Without(s.saves, i))
  }

  datatype Step =
    | SidebarStep(w: real)
    | SplitStep(r: real)
    | HydrateStep
    | FireStep(h: nat)
    | SavedStep(i: nat)
    | FailedStep(i: nat)

  predicate Enabled(s: State, step: Step) {
    match step
    case FireStep(h) => h in s.armed
    case SavedStep(i) => i < |s.saves|
    case FailedStep(i) => i < |s.saves|
    case _ => true
  }

  function Next(s: State, step: Step): State
    requires Enabled(s, step)
  {
    match step
    case SidebarStep(w) => SetSidebarWidth(s, w)
    case SplitStep(r) => SetSplitRatio(s, r)
    case HydrateStep => Hydrate(s)
    case FireStep(h) => Fire(s, h)
    case SavedStep(i) => Saved(s, i)
    case FailedStep(i) => SaveFailed(s, i)
  }

  const INITIAL := State(DEFAULTS, DEFAULTS, None, map[], 1, [])

  ghost predicate IsRun(states: seq<State>, steps: seq<Step>) {
    && |states| == |steps| + 1
    && states[0] == INITIAL
    && forall i :: 0 <= i < |steps| ==> Enabled(states[i], steps[i]) && states[i + 1] == Next(states[i], steps[i])
  }

  // ---------------------------------------------------------------- clamping

  lemma SidebarClampedTwice(w: real)
    ensures ClampSidebar(ClampSidebar(w)) == ClampSidebar(w) && ClampSidebar(w) > 0.0
  {
    var n := (w + 0.5).Floor;
    assert ((n as real) + 0.5).Floor == n;
  }

  lemma SplitClampedTwice(r: real)
    ensures ClampSplit(ClampSplit(r)) == ClampSplit(r)
  {
  }

  lemma ClampedNormal(d: Dims)
    ensures Normalized(Clamped(d)) == Clamped(d)
  {
    SidebarClampedTwice(d.sidebarWidth);
    SplitClampedTwice(d.editorSplitRatio);
  }

  lemma NormalizedClamped(d: Dims)
    requires Normalized(d) == d
    ensures Clamped(d) == d
  {
    DefaultsAgree();
  }

  lemma DefaultsAgree()
    ensures DEFAULTS == Dims(260.0, 0.55) && Clamped(DEFAULTS) == DEFAULTS
  {
    assert Round(260.0) == 260.0;
  }

  lemma ClampedAgrees(d: Dims)
    ensures Agrees(Clamped(d), d)
  {
  }

  /** The bounds: a width between 180 and 480, the nearest integer within; a ratio between 0.2 and 0.65. */
  lemma ClampedRanges(d: Dims)
    ensures var c := Clamped(d);
            && 180.0 <= c.sidebarWidth <= 480.0 && 0.2 <= c.editorSplitRatio <= 0.65
            && (d.sidebarWidth < 180.0 ==> c.sidebarWidth == 180.0)
            && (d.sidebarWidth > 480.0 ==> c.sidebarWidth == 480.0)
            && (180.0 <= d.sidebarWidth <= 480.0 ==>
                  -0.5 < c.sidebarWidth - d.sidebarWidth <= 0.5 && c.sidebarWidth.Floor as real == c.sidebarWidth)
            && (d.editorSplitRatio < 0.2 ==> c.editorSplitRatio == 0.2)
            && (d.editorSplitRatio > 0.65 ==> c.editorSplitRatio == 0.65)
            && (0.2 <= d.editorSplitRatio <= 0.65 ==> c.editorSplitRatio == d.editorSplitRatio)
  {
    SidebarRange(d.sidebarWidth);
  }

  lemma SidebarRange(w: real)
    ensures w < 180.0 ==> ClampSidebar(w) == 180.0
    ensures w > 480.0 ==> ClampSidebar(w) == 480.0
    ensures 180.0 <= w <= 480.0 ==>
              ClampSidebar(w) == (w + 0.5).Floor as real && ClampSidebar(w).Floor as real == ClampSidebar(w)
  {
    var n := (w + 0.5).Floor;
    assert n as real <= w + 0.5 < (n as real) + 1.0;
    if w < 180.0 { assert n <= 180; }
    if w > 480.0 { assert n >= 480; }
    if 180.0 <= w <= 480.0 { assert 180 <= n <= 480; }
  }

  /** A width that is no width falls back to 260; any other is clamped. */
  lemma NormalizedRanges(d: Dims)
    ensures d.sidebarWidth <= 0.0 ==> Normalized(d) == Dims(260.0, Clamped(d).editorSplitRatio)
    ensures d.sidebarWidth > 0.0 ==> Normalized(d) == Clamped(d)
  {
  }

  /** Saved already: the very width, and a ratio less than 0.0001 away. */
  lemma AgreesWithin(settings: Dims, ui: Dims)
    ensures Agrees(settings, ui)
       <==> settings.sidebarWidth == Clamped(ui).sidebarWidth
            && -0.0001 < settings.editorSplitRatio - Clamped(ui).editorSplitRatio < 0.0001
  {
  }

  /** What the user sets is what the screen shows, the ratio kept between 0.2 and 0.65. */
  lemma ShownAsSet(s: State, x: real)
    ensures SetSidebarWidth(s, x).ui == Dims(x, s.ui.editorSplitRatio)
    ensures SetSplitRatio(s, x).ui
         == Dims(s.ui.sidebarWidth, if x < 0.2 then 0.2 else if x > 0.65 then 0.65 else x)
  {
  }

  // ---------------------------------------------------------------- the debounce

  /** What is armed is exactly the timer of the handle, and it carries the layout on screen. */
  ghost predicate OneTimer(s: State) {
    && s.armed.Keys == (if s.handle.Some? then {s.handle.value} else {})
    && (forall h :: h in s.armed ==> s.armed[h] == s.ui && h < s.nextHandle)
  }

  lemma StepKeepsTimer(s: State, step: Step)
    requires OneTimer(s) && Enabled(s, step)
    ensures OneTimer(Next(s, step))
  {
  }

  /** In every run, overlapping saves or not, at most one timer is armed, with the latest layout. */
  lemma {:induction false} EveryStateOneTimer(states: seq<State>, steps: seq<Step>, i: nat)
    requires IsRun(states, steps) && i < |states|
    ensures OneTimer(states[i])
  {
    if i > 0 {
      EveryStateOneTimer(states, steps, i - 1);
      StepKeepsTimer(states[i - 1], steps[i - 1]);
    }
  }

  // ---------------------------------------------------------------- agreement

  /** With no timer armed, the settings agree with the screen. */
  ghost predicate InAgreement(s: State) {
    s.armed == map[] ==> Agrees(s.settings, s.ui)
  }

  /** An answer that brings back another layout when nothing is armed to correct it. */
  predicate Reverts(s: State, step: Step) {
    step.SavedStep? && step.i < |s.saves| && s.armed == map[] && !Agrees(Normalized(s.saves[step.i]), s.ui)
  }

  lemma ChangeKeepsAgreement(s: State, ui: Dims)
    requires InAgreement(s)
    ensures InAgreement(Changed(s, ui))
  {
    if ui != s.ui { assert s.nextHandle in Changed(s, ui).armed; }
  }

  lemma FireAgrees(s: State, h: nat)
    requires OneTimer(s) && h in s.armed
    ensures Agrees(Fire(s, h).settings, s.ui) && Fire(s, h).armed == map[]
  {
    ClampedNormal(s.ui);
    ClampedAgrees(s.ui);
  }

  /** Agreement is lost by such an answer and by nothing else. */
  lemma AgreementLostIff(s: State, step: Step)
    requires OneTimer(s) && InAgreement(s) && Enabled(s, step)
    ensures !InAgreement(Next(s, step)) <==> Reverts(s, step)
  {
    match step {
      case SidebarStep(w) => ChangeKeepsAgreement(s, s.ui.(sidebarWidth := w));
      case SplitStep(r) => ChangeKeepsAgreement(s, s.ui.(editorSplitRatio := Max(0.2, Min(0.65, r))));
      case HydrateStep => ChangeKeepsAgreement(s, Clamped(s.settings));
      case FireStep(h) => FireAgrees(s, h);
      case _ =>
    }
  }

  /** A run is in agreement throughout exactly when it contains no such answer. */
  lemma AlwaysAgreesIff(states: seq<State>, steps: seq<Step>)
    requires IsRun(states, steps)
    ensures (forall i :: 0 <= i < |states| ==> InAgreement(states[i]))
       <==> (forall i :: 0 <= i < |steps| ==> !Reverts(states[i], steps[i]))
  {
    if forall i :: 0 <= i < |states| ==> InAgreement(states[i]) {
      forall i | 0 <= i < |steps| ensures !Reverts(states[i], steps[i]) {
        EveryStateOneTimer(states, steps, i);
        AgreementLostIff(states[i], steps[i]);
        assert InAgreement(states[i]) && InAgreement(states[i + 1]);
      }
    } else if forall i :: 0 <= i < |steps| ==> !Reverts(states[i], steps[i]) {
      var i :| 0 <= i < |states| && !InAgreement(states[i]);
      AgreesSoFar(states, steps, i);
    }
  }

  lemma {:induction false} AgreesSoFar(states: seq<State>, steps: seq<Step>, i: nat)
    requires IsRun(states, steps) && i < |states|
    requires forall j :: 0 <= j < |steps| ==> !Reverts(states[j], steps[j])
    ensures InAgreement(states[i])
  {
    if i == 0 {
      DefaultsAgree();
    } else {
      AgreesSoFar(states, steps, i - 1);
      EveryStateOneTimer(states, steps, i - 1);
      AgreementLostIff(states[i - 1], steps[i - 1]);
    }
  }

  /** Saves do not overlap: none is in flight when a timer fires. */
  predicate NoOverlap(s: State, step: Step) {
    step.FireStep? ==> s.saves == []
  }

  /** The debounce, agreement, and at most one save in flight, of the settings as they are. */
  ghost predicate Inv(s: State) {
    && OneTimer(s) && InAgreement(s)
    && |s.saves| <= 1
    && (s.saves != [] ==> s.saves[0] == s.settings)
    && Normalized(s.settings) == s.settings
  }

  lemma StepKeepsInv(s: State, step: Step)
    requires Inv(s) && Enabled(s, step) && NoOverlap(s, step)
    ensures Inv(Next(s, step))
  {
    StepKeepsTimer(s, step);
    AgreementLostIff(s, step);
    if step.FireStep? { ClampedNormal(s.ui); }
  }

  /**
   * In every run whose saves do not overlap, at most one timer is armed, with the latest layout, and
   * when none is armed the settings agree with the screen, whether saves succeed or fail.
   */
  lemma {:induction false} EveryStateAgrees(states: seq<State>, steps: seq<Step>, i: nat)
    requires IsRun(states, steps) && i < |states|
    requires forall j :: 0 <= j < |steps| ==> NoOverlap(states[j], steps[j])
    ensures Inv(states[i])
  {
    if i == 0 {
      DefaultsAgree();
    } else {
      EveryStateAgrees(states, steps, i - 1);
      StepKeepsInv(states[i - 1], steps[i - 1]);
    }
  }

  /** Taking over stored settings shows them as they are, and the timer it may arm saves nothing. */
  lemma HydrationSavesNothing(s: State)
    requires Inv(s)
    ensures var h := Hydrate(s);
            && h.ui == s.settings && h.settings == s.settings && h.saves == s.saves
            && (forall k :: k in h.armed ==> Fire(h, k) == h.(handle := None, armed := map[]))
  {
    NormalizedClamped(s.settings);
    StepKeepsTimer(s, HydrateStep);
    ClampedAgrees(s.settings);
  }

  // ---------------------------------------------------------------- overlapping saves

  /** One of the saves in flight settles: the `i`-th of those left, answered or failed. */
  datatype Pick = Pick(i: nat, ok: bool)

  /** Picks that can be made in turn from `n` saves in flight. */
  predicate Possible(n: nat, picks: seq<Pick>) {
    |picks| <= n && forall j :: 0 <= j < |picks| ==> picks[j].i < n - j
  }

  function Settle(s: State, p: Pick): State
    requires p.i < |s.saves|
  {
    if p.ok then Saved(s, p.i) else SaveFailed(s, p.i)
  }

  /** What comes of the saves in flight if they settle in this order and in this way. */
  function Outcome(s: State, picks: seq<Pick>): (r: State)
    requires Possible(|s.saves|, picks)
    ensures |r.saves| == |s.saves| - |picks|
    ensures r == s.(settings := r.settings, saves := r.saves)
    decreases |picks|
  {
    if picks == [] then s else Outcome(Settle(s, picks[0]), picks[1..])
  }

  lemma {:induction false} OutcomeSplits(s: State, picks: seq<Pick>, j: nat)
    requires Possible(|s.saves|, picks) && j <= |picks|
    ensures Outcome(s, picks) == Outcome(Outcome(s, picks[..j]), picks[j..])
    decreases j
  {
    if j == 0 {
      assert picks[..0] == [] && picks[0..] == picks;
    } else {
      OutcomeSplits(Settle(s, picks[0]), picks[1..], j - 1);
      assert picks[..j][1..] == picks[1..][..j - 1] && picks[1..][j - 1..] == picks[j..];
    }
  }

  lemma {:induction false} FailuresChangeNothing(s: State, picks: seq<Pick>)
    requires Possible(|s.saves|, picks) && forall j :: 0 <= j < |picks| ==> !picks[j].ok
    ensures Outcome(s, picks).settings == s.settings
    decreases |picks|
  {
    if picks != [] { FailuresChangeNothing(Settle(s, picks[0]), picks[1..]); }
  }

  /** In whatever order the saves settle, the last answer counts. */
  lemma AnswersSettle(s: State, picks: seq<Pick>, j: nat)
    requires Possible(|s.saves|, picks) && j < |picks| && picks[j].ok
    requires forall m :: j < m < |picks| ==> !picks[m].ok
    ensures Outcome(s, picks).settings == Normalized(Outcome(s, picks[..j]).saves[picks[j].i])
  {
    var t, rest := Outcome(s, picks[..j]), picks[j..];
    OutcomeSplits(s, picks, j);
    assert rest[0] == picks[j] && rest[1..] == picks[j + 1..];
    FailuresChangeNothing(Settle(t, picks[j]), rest[1..]);
  }

  /** However, and in whatever order, the saves in flight turn out, the settings end up agreeing. */
  ghost predicate BoundToAgree(s: State) {
    forall picks :: |picks| == |s.saves| && Possible(|s.saves|, picks) ==> Agrees(Outcome(s, picks).settings, s.ui)
  }

  lemma {:induction false} OutcomeAgrees(s: State, picks: seq<Pick>)
    requires Possible(|s.saves|, picks)
    requires Agrees(s.settings, s.ui) && forall x :: x in s.saves ==> Agrees(Normalized(x), s.ui)
    ensures Agrees(Outcome(s, picks).settings, s.ui)
    decreases |picks|
  {
    if picks != [] { OutcomeAgrees(Settle(s, picks[0]), picks[1..]); }
  }

  /** That holds exactly when the settings agree now and so does every layout still being saved. */
  lemma BoundToAgreeIff(s: State)
    ensures BoundToAgree(s)
       <==> Agrees(s.settings, s.ui) && forall x :: x in s.saves ==> Agrees(Normalized(x), s.ui)
  {
    if BoundToAgree(s) {
      NoAnswer(s);
      forall x | x in s.saves ensures Agrees(Normalized(x), s.ui) {
        var i :| 0 <= i < |s.saves| && s.saves[i] == x;
        OneAnswer(s, i);
      }
    } else if Agrees(s.settings, s.ui) && forall x :: x in s.saves ==> Agrees(Normalized(x), s.ui) {
      var picks :| |picks| == |s.saves| && Possible(|s.saves|, picks) && !Agrees(Outcome(s, picks).settings, s.ui);
      OutcomeAgrees(s, picks);
    }
  }

  function Failures(n: nat): (picks: seq<Pick>)
    ensures |picks| == n && Possible(n, picks) && forall j :: 0 <= j < n ==> !picks[j].ok
  {
    seq(n, (j: nat) => Pick(0, false))
  }

  lemma NoAnswer(s: State)
    requires BoundToAgree(s)
    ensures Agrees(s.settings, s.ui)
  {
    FailuresChangeNothing(s, Failures(|s.saves|));
  }

  lemma OneAnswer(s: State, i: nat)
    requires BoundToAgree(s) && i < |s.saves|
    ensures Agrees(Normalized(s.saves[i]), s.ui)
  {
    var picks := [Pick(i, true)] + Failures(|s.saves| - 1);
    assert picks[1..] == Failures(|s.saves| - 1) && picks[..0] == [];
    AnswersSettle(s, picks, 0);
    assert Possible(|s.saves|, picks) && Outcome(s, picks).settings == Normalized(s.saves[i]);
  }

  /**
   * A timer that fires leads to agreement, however and in whatever order the saves in flight turn out,
   * exactly when none of those already in flight is of another layout.
   */
  lemma FireSettlesIff(s: State, h: nat)
    requires OneTimer(s) && h in s.armed
    ensures BoundToAgree(Fire(s, h)) <==> forall x :: x in s.saves ==> Agrees(Normalized(x), s.ui)
  {
    var t := Fire(s, h);
    FireAgrees(s, h);
    BoundToAgreeIff(t);
    ClampedNormal(s.ui);
    ClampedAgrees(s.ui);
    assert forall x :: x in t.saves ==> x in s.saves || x == Clamped(s.ui);
    assert forall x :: x in s.saves ==> x in t.saves;
  }

  // ---------------------------------------------------------------- runs that end in disagreement

  const A := Dims(300.0, 0.55)
  const B := Dims(400.0, 0.55)

  lemma RoundDims()
    ensures Clamped(A) == A && Clamped(B) == B && Clamped(DEFAULTS) == DEFAULTS
    ensures Normalized(A) == A && Normalized(B) == B
  {
    assert Round(300.0) == 300.0 && Round(400.0) == 400.0 && Round(260.0) == 260.0;
  }

  lemma RunExtended(states: seq<State>, steps: seq<Step>, step: Step)
    requires IsRun(states, steps) && Enabled(states[|steps|], step)
    ensures IsRun(states + [Next(states[|steps|], step)], steps + [step])
  {
  }

  ghost predicate NoneFails(steps: seq<Step>) {
    forall j :: 0 <= j < |steps| ==> !steps[j].FailedStep?
  }

  /** The settings and the screen, when everything has come to rest. */
  ghost predicate EndsApart(states: seq<State>) {
    states != [] &&
    var last := states[|states| - 1];
    last.armed == map[] && last.saves == [] && !Agrees(last.settings, last.ui)
  }

  /** Two saves in flight: the layout was changed and saved, and changed and saved again. */
  lemma TwoSaves() returns (states: seq<State>, steps: seq<Step>)
    ensures IsRun(states, steps) && |steps| == 4 && NoneFails(steps)
    ensures states[4] == State(B, B, None, map[], 3, [A, B])
  {
    RoundDims();
    var s1 := State(A, DEFAULTS, Some(1), map[1 := A], 2, []);
    var s2 := State(A, A, None, map[], 2, [A]);
    var s3 := State(B, A, Some(2), map[2 := B], 3, [A]);
    states := [INITIAL, s1, s2, s3, State(B, B, None, map[], 3, [A, B])];
    steps := [SidebarStep(300.0), FireStep(1), SidebarStep(400.0), FireStep(2)];
    assert forall i :: 0 <= i < |steps| ==> states[i + 1] == Next(states[i], steps[i]);
  }

  /** The first save is answered and the second fails: the settings are left on the first layout. */
  lemma FailedSaveDisagrees() returns (states: seq<State>, steps: seq<Step>)
    ensures IsRun(states, steps)
    ensures EndsApart(states)
  {
    RoundDims();
    states, steps := TwoSaves();
    var s4 := states[4];
    RunExtended(states, steps, SavedStep(0));
    var s5 := Next(s4, SavedStep(0));
    states, steps := states + [s5], steps + [SavedStep(0)];
    RunExtended(states, steps, FailedStep(0));
    states, steps := states + [Next(s5, FailedStep(0))], steps + [FailedStep(0)];
  }

  /** Both saves are answered, the first one last. */
  lemma LateAnswerDisagrees() returns (states: seq<State>, steps: seq<Step>)
    ensures IsRun(states, steps) && NoneFails(steps)
    ensures EndsApart(states)
  {
    RoundDims();
    states, steps := TwoSaves();
    var s4 := states[4];
    RunExtended(states, steps, SavedStep(1));
    var s5 := Next(s4, SavedStep(1));
    states, steps := states + [s5], steps + [SavedStep(1)];
    RunExtended(states, steps, SavedStep(0));
    states, steps := states + [Next(s5, SavedStep(0))], steps + [SavedStep(0)];
  }

  /**
   * Every save is answered, and in order, but while the second is in flight the screen goes back to the first
   * layout, which the settings show at that moment, so the timer saves nothing.
   */
  lemma OverlapDisagrees() returns (states: seq<State>, steps: seq<Step>)
    ensures IsRun(states, steps) && NoneFails(steps)
    ensures EndsApart(states)
  {
    RoundDims();
    states, steps := TwoSaves();
    var s4 := states[4];
    RunExtended(states, steps, SavedStep(0));
    var s5 := Next(s4, SavedStep(0));
    states, steps := states + [s5], steps + [SavedStep(0)];
    RunExtended(states, steps, SidebarStep(300.0));
    var s6 := Next(s5, SidebarStep(300.0));
    states, steps := states + [s6], steps + [SidebarStep(300.0)];
    RunExtended(states, steps, FireStep(3));
    var s7 := Next(s6, FireStep(3));
    states, steps := states + [s7], steps + [FireStep(3)];
    RunExtended(states, steps, SavedStep(0));
    states, steps := states + [Next(s7, SavedStep(0))], steps + [SavedStep(0)];
  }

  // ---------------------------------------------------------------- the stores themselves

  /** The saver's handle and the two stores it moves between, as the program holds them. */
  class LayoutPersistence {
    var ui: Dims
    var settings: Dims
    var timer: Option<nat>

    // Held by the runtime.
    var armed: map<nat, Dims>
    var nextHandle: nat
    var saves: seq<Dims>

    function View(): State
      reads this
    {
      State(ui, settings, timer, armed, nextHandle, saves)
    }

    constructor ()
      ensures View() == INITIAL
    {
      ui, settings, timer := DEFAULTS, DEFAULTS, None;
      armed, nextHandle, saves := map[], 1, [];
    }

    method ClearTimer(h: nat)
      modifies this`armed
      ensures View() == ClearTimeout(old(View()), h)
    {
      armed := armed - {h};
    }

    method SetTimer(dims: Dims) returns (h: nat)
      modifies this`armed, this`nextHandle
      ensures View() == SetTimeout(old(View()), dims) && h == old(nextHandle)
    {
      h := nextHandle;
      armed := armed[h := dims];
      nextHandle := nextHandle + 1;
    }

    method Schedule(dims: Dims)
      modifies this`timer, this`armed, this`nextHandle
      ensures View() == ScheduleSave(old(View()), dims)
    {
      if timer.Some? { ClearTimer(timer.value); }
      var h := SetTimer(dims);
      timer := Some(h);
    }

    /** A change of the interface store, and the subscriber it wakes. */
    method SetLayout(next: Dims)
      modifies this
      ensures View() == Changed(old(View()), next)
    {
      var prev := ui;
      ui := next;
      if next.sidebarWidth == prev.sidebarWidth && next.editorSplitRatio == prev.editorSplitRatio { return; }
      Schedule(next);
    }

    method SetSidebar(w: real)
      modifies this
      ensures View() == SetSidebarWidth(old(View()), w)
    {
      SetLayout(ui.(sidebarWidth := w));
    }

    method SetSplit(r: real)
      modifies this
      ensures View() == SetSplitRatio(old(View()), r)
    {
      SetLayout(ui.(editorSplitRatio := Max(0.2, Min(0.65, r))));
    }

    method HydrateLayoutFromSettings()
      modifies this
      ensures View() == Hydrate(old(View()))
    {
      SetLayout(Dims(ClampSidebar(settings.sidebarWidth), ClampSplit(settings.editorSplitRatio)));
    }

    /** The callback of an armed timer, with the layout it captured. */
    method TimerFires(h: nat)
      requires h in armed
      modifies this
      ensures View() == Fire(old(View()), h)
    {
      var payload := armed[h];
      armed := armed - {h};
      timer := None;
      var nextW := ClampSidebar(payload.sidebarWidth);
      var nextR := ClampSplit(payload.editorSplitRatio);
      if settings.sidebarWidth == nextW && Abs(settings.editorSplitRatio - nextR) < TOLERANCE { return; }
      SaveOptimistically(Dims(nextW, nextR));
    }

    /** save up to its await. */
    method SaveOptimistically(next: Dims)
      modifies this
      ensures View() == Patch(old(View()), next)
    {
      var normalized := Normalized(next);
      settings := normalized;
      saves := saves + [normalized];
    }

    /** save after its await: the backend's answer is the truth, a failure changes nothing. */
    method SaveSettles(i: nat, ok: bool)
      requires i < |saves|
      modifies this
      ensures View() == Settle(old(View()), Pick(i, ok))
    {
      if ok { settings := Normalized(saves[i]); }
      saves := Without(saves, i);
    }

    /** One step of the machine, carried out on the stores. */
    method Perform(step: Step)
      requires Enabled(View(), step) && OneTimer(View())
      modifies this
      ensures View() == Next(old(View()), step) && OneTimer(View())
    {
      StepKeepsTimer(View(), step);
      match step {
        case SidebarStep(w) => SetSidebar(w);
        case SplitStep(r) => SetSplit(r);
        case HydrateStep => HydrateLayoutFromSettings();
        case FireStep(h) => TimerFires(h);
        case SavedStep(i) => SaveSettles(i, true);
        case FailedStep(i) => SaveSettles(i, false);
      }
    }
  }
}

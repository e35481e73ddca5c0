/** The rendering options the keyboard toggles and the camera parameter
    tCam that the keyboard and the animation timer move along the camera
    path. The C flags are ints that only ever hold 0 or 1, so they are
    booleans here; tCam, a float, is a real. */
module Options {

  datatype OptionState = OptionState(
    usePainter: bool, useDepth: bool, useBlend: bool, useCull: bool,
    useLight: bool, useChecker: bool, tCam: real, animDir: bool)

  /** The static initial values: every option on, camera at the start of
      its path, animation off. */
  const Initial := OptionState(true, true, true, true, true, true, 0.0, false)

  /** Step of the + and - keys and of one timer tick along the path. */
  const KeyStep: real := 0.02
  const TickStep: real := 0.005

  const Esc: char := 27 as char

  /** The six options a key can toggle. */
  datatype Flag = Painter | Depth | Blend | Cull | Light | CheckerTex

  function FlagValue(s: OptionState, f: Flag): bool {
    match f
    case Painter => s.usePainter
    case Depth => s.useDepth
    case Blend => s.useBlend
    case Cull => s.useCull
    case Light => s.useLight
    case CheckerTex => s.useChecker
  }

  /** What a key does; the upper- and lower-case letter of a binding do
      the same. */
  datatype Action = Toggle(flag: Flag) | CamForward | CamBack | Reset | NoAction

  /** The letters that toggle an option, in either case. */
  predicate IsToggleKey(key: char) {
    key == 'p' || key == 'P' || key == 'z' || key == 'Z' || key == 't' || key == 'T' ||
    key == 'c' || key == 'C' || key == 'l' || key == 'L' || key == 'g' || key == 'G'
  }

  /** The switch of the keyboard callback: which action a key selects. */
  function ActionOf(key: char): (a: Action)
    ensures a.Toggle? <==> IsToggleKey(key)
    ensures a == CamForward <==> key == '+'
    ensures a == CamBack <==> key == '-'
    ensures a == Reset <==> key == 'r' || key == 'R'
    ensures a == Toggle(Painter) <==> key == 'p' || key == 'P'
    ensures a == Toggle(Depth) <==> key == 'z' || key == 'Z'
    ensures a == Toggle(Blend) <==> key == 't' || key == 'T'
    ensures a == Toggle(Cull) <==> key == 'c' || key == 'C'
    ensures a == Toggle(Light) <==> key == 'l' || key == 'L'
    ensures a == Toggle(CheckerTex) <==> key == 'g' || key == 'G'
  {
    if key == 'p' || key == 'P' then Toggle(Painter)
    else if key == 'z' || key == 'Z' then Toggle(Depth)
    else if key == 't' || key == 'T' then Toggle(Blend)
    else if key == 'c' || key == 'C' then Toggle(Cull)
    else if key == 'l' || key == 'L' then Toggle(Light)
    else if key == 'g' || key == 'G' then Toggle(CheckerTex)
    else if key == '+' then CamForward
    else if key == '-' then CamBack
    else if key == 'r' || key == 'R' then Reset
    else NoAction
  }

  /** The state with option f flipped. */
  function Negate(s: OptionState, f: Flag): (r: OptionState)
    ensures FlagValue(r, f) == !FlagValue(s, f)
    ensures forall g :: g != f ==> FlagValue(r, g) == FlagValue(s, g)
    ensures r.tCam == s.tCam && r.animDir == s.animDir
  {
    match f
    case Painter => s.(usePainter := !s.usePainter)
    case Depth => s.(useDepth := !s.useDepth)
    case Blend => s.(useBlend := !s.useBlend)
    case Cull => s.(useCull := !s.useCull)
    case Light => s.(useLight := !s.useLight)
    case CheckerTex => s.(useChecker := !s.useChecker)
  }

  predicate CamInRange(s: OptionState) {
    0.0 <= s.tCam <= 1.0
  }

  /** The state after an action. */
  function Apply(s: OptionState, a: Action): (r: OptionState)
    ensures CamInRange(s) ==> CamInRange(r)
    ensures a == CamForward ==> r.tCam <= 1.0
    ensures a == CamBack ==> r.tCam >= 0.0
    ensures r.animDir == s.animDir
  {
    match a
    case Toggle(f) => Negate(s, f)
    case CamForward =>
      var t := s.tCam + KeyStep; s.(tCam := if t > 1.0 then 1.0 else t)
    case CamBack =>
      var t := s.tCam - KeyStep; s.(tCam := if t < 0.0 then 0.0 else t)
    case Reset =>
      s.(usePainter := true, useDepth := true, useBlend := true, useCull := true,
         useLight := true, tCam := 0.0)
    case NoAction => s
  }

  /** The state after one key press. */
  function Key(s: OptionState, key: char): (r: OptionState)
    ensures CamInRange(s) ==> CamInRange(r)
    ensures r.animDir == s.animDir
    ensures key == Esc ==> r == s
  {
    Apply(s, ActionOf(key))
  }

  /** The state after one timer tick. */
  function Tick(s: OptionState): (r: OptionState)
    ensures CamInRange(s) ==> CamInRange(r)
    ensures s.animDir ==> r.tCam <= 1.0
    ensures !s.animDir ==> r == s
  {
    if s.animDir then
      var t := s.tCam + TickStep; s.(tCam := if t > 1.0 then 0.0 else t)
    else s
  }

  /** A toggle key negates its own flag and changes nothing else. */
  lemma ToggleChangesOneFlag(s: OptionState, key: char, f: Flag)
    requires IsToggleKey(key)
    ensures FlagValue(Key(s, key), f) == (FlagValue(s, f) != (f == ActionOf(key).flag))
    ensures Key(s, key).tCam == s.tCam && Key(s, key).animDir == s.animDir
  {
  }

  /** Which option each letter flips; both cases of a letter do the same. */
  lemma ToggleBindings(s: OptionState)
    ensures Key(s, 'p') == s.(usePainter := !s.usePainter) && Key(s, 'P') == Key(s, 'p')
    ensures Key(s, 'z') == s.(useDepth := !s.useDepth) && Key(s, 'Z') == Key(s, 'z')
    ensures Key(s, 't') == s.(useBlend := !s.useBlend) && Key(s, 'T') == Key(s, 't')
    ensures Key(s, 'c') == s.(useCull := !s.useCull) && Key(s, 'C') == Key(s, 'c')
    ensures Key(s, 'l') == s.(useLight := !s.useLight) && Key(s, 'L') == Key(s, 'l')
    ensures Key(s, 'g') == s.(useChecker := !s.useChecker) && Key(s, 'G') == Key(s, 'g')
  {
  }

  /** Pressing a toggle key twice restores the state. */
  lemma ToggleTwiceRestores(s: OptionState, key: char)
    requires IsToggleKey(key)
    ensures Key(Key(s, key), key) == s
  {
    var f := ActionOf(key).flag;
    assert Key(s, key) == Negate(s, f);
    assert Key(Negate(s, f), key) == Negate(Negate(s, f), f);
  }

  /** + and - move tCam by one step, clamped to the ends of the path, and
      change nothing else. */
  lemma CameraKeys(s: OptionState)
    ensures var up := Key(s, '+');
      up == s.(tCam := up.tCam) && up.tCam <= 1.0 &&
      (s.tCam + KeyStep <= 1.0 ==> up.tCam == s.tCam + KeyStep) &&
      (s.tCam + KeyStep > 1.0 ==> up.tCam == 1.0)
    ensures var down := Key(s, '-');
      down == s.(tCam := down.tCam) && down.tCam >= 0.0 &&
      (s.tCam - KeyStep >= 0.0 ==> down.tCam == s.tCam - KeyStep) &&
      (s.tCam - KeyStep < 0.0 ==> down.tCam == 0.0)
  {
  }

  /** R turns the five rendering options back on and rewinds the camera,
      but keeps the texture flag; pressing it again changes nothing. */
  lemma ResetKeepsChecker(s: OptionState, key: char)
    requires key == 'r' || key == 'R'
    ensures Key(s, key) == Initial.(useChecker := s.useChecker, animDir := s.animDir)
    ensures Key(Key(s, key), key) == Key(s, key)
  {
  }

  /** Esc and every key without a binding leave the state alone. */
  lemma UnboundKeysChangeNothing(s: OptionState, key: char)
    requires !IsToggleKey(key) && key != '+' && key != '-' && key != 'r' && key != 'R'
    ensures Key(s, key) == s
  {
  }

  /** While animating, a tick moves tCam one step forward and wraps it to
      the start of the path once it passes the end; nothing else changes. */
  lemma TickAdvancesCamera(s: OptionState)
    requires s.animDir
    ensures Tick(s) == s.(tCam := Tick(s).tCam)
    ensures s.tCam + TickStep <= 1.0 ==> Tick(s).tCam == s.tCam + TickStep
    ensures s.tCam + TickStep > 1.0 ==> Tick(s).tCam == 0.0
  {
  }

  /** An input event: a key press or a timer tick. */
  datatype Event = Press(key: char) | TimerTick

  function Step(s: OptionState, e: Event): OptionState {
    match e
    case Press(key) => Key(s, key)
    case TimerTick => Tick(s)
  }

  /** The state after a run of events, oldest first. */
  function Run(s: OptionState, events: seq<Event>): OptionState
    decreases |events|
  {
    if events == [] then s else Run(Step(s, events[0]), events[1..])
  }

  /** Every run keeps tCam on the path and never starts the animation. */
  lemma {:induction false} RunKeepsInvariant(s: OptionState, events: seq<Event>)
    requires CamInRange(s)
    ensures CamInRange(Run(s, events))
    ensures Run(s, events).animDir == s.animDir
    decreases |events|
  {
    if events != [] {
      RunKeepsInvariant(Step(s, events[0]), events[1..]);
    }
  }

  /** Nothing in the program sets animDir, so from the initial state a
      timer tick never moves the camera. */
  lemma TimerIdleAfterAnyRun(events: seq<Event>)
    ensures CamInRange(Run(Initial, events))
    ensures Tick(Run(Initial, events)) == Run(Initial, events)
  {
    RunKeepsInvariant(Initial, events);
  }

  /** The option globals, updated in place by the keyboard and timer
      callbacks. */
  class Controls {
    var usePainter: bool
    var useDepth: bool
    var useBlend: bool
    var useCull: bool
    var useLight: bool
    var useChecker: bool
    var tCam: real
    var animDir: bool

    function State(): OptionState
      reads this
    {
      OptionState(usePainter, useDepth, useBlend, useCull, useLight, useChecker, tCam, animDir)
    }

    constructor ()
      ensures State() == Initial
    {
      usePainter, useDepth, useBlend, useCull, useLight, useChecker := true, true, true, true, true, true;
      tCam, animDir := 0.0, false;
    }

    /** The keyboard callback. Esc asks the program to exit and changes
        nothing; every other key updates the options as Key says. */
    method Keyboard(key: char) returns (quit: bool)
      modifies this
      ensures quit <==> key == Esc
      ensures State() == Key(old(State()), key)
    {
      quit := key == Esc;
      Perform(ActionOf(key));
    }

    /** One arm of the keyboard switch. */
    method Perform(action: Action)
      modifies this
      ensures State() == Apply(old(State()), action)
    {
      match action {
        case Toggle(f) => ToggleFlag(f);
        case CamForward =>
          tCam := tCam + KeyStep;
          if tCam > 1.0 { tCam := 1.0; }
        case CamBack =>
          tCam := tCam - KeyStep;
          if tCam < 0.0 { tCam := 0.0; }
        case Reset =>
          usePainter, useDepth, useBlend, useCull, useLight := true, true, true, true, true;
          tCam := 0.0;
        case NoAction =>
      }
    }

    /** The toggle cases of the keyboard switch: flip one option. */
    method ToggleFlag(f: Flag)
      modifies this
      ensures State() == Negate(old(State()), f)
    {
      match f {
        case Painter => usePainter := !usePainter;
        case Depth => useDepth := !useDepth;
        case Blend => useBlend := !useBlend;
        case Cull => useCull := !useCull;
        case Light => useLight := !useLight;
        case CheckerTex => useChecker := !useChecker;
      }
    }

    /** The timer callback: advance the camera when animating, wrapping
        back to the start once past the end. */
    method Timer()
      modifies this
      ensures State() == Tick(old(State()))
    {
      if animDir {
        tCam := tCam + TickStep;
        if tCam > 1.0 { tCam := 0.0; }
      }
    }
  }
}

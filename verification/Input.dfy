/** Press, release and tap candidates (`src/controller/input.rs`). */
module Input {
  import opened Types

  /** 24 hours, in nanoseconds. */
  const MAX_TAP_DURATION: Duration := 86_400_000_000_000

  datatype InputError = NoButtons | TapTooLong

  datatype TapPlan = TapPlan(pressed: InputState, released: InputState, duration: Duration)

  function ButtonSet(buttons: seq<Button>): set<Button> {
    set b | b in buttons
  }

  function Pressed(current: InputState, buttons: seq<Button>): Result<InputState, InputError> {
    if buttons == [] then Err(NoButtons)
    else Ok(current.(buttons := current.buttons + ButtonSet(buttons)))
  }

  function Released(current: InputState, buttons: seq<Button>): Result<InputState, InputError> {
    if buttons == [] then Err(NoButtons)
    else Ok(current.(buttons := current.buttons - ButtonSet(buttons)))
  }

  function Plan(current: InputState, buttons: seq<Button>, duration: Duration): Result<TapPlan, InputError> {
    if buttons == [] then Err(NoButtons)
    else if MAX_TAP_DURATION < duration then Err(TapTooLong)
    else
      var pressed := current.(buttons := current.buttons + ButtonSet(buttons));
      Ok(TapPlan(pressed, pressed.(buttons := pressed.buttons - ButtonSet(buttons)), duration))
  }

  /** Collects an iterator of buttons, inserting one at a time into the set. */
  method Collect(buttons: seq<Button>) returns (collected: set<Button>)
    ensures collected == ButtonSet(buttons)
    ensures collected == {} <==> buttons == []
  {
    collected := {};
    for i := 0 to |buttons|
      invariant collected == ButtonSet(buttons[..i])
      invariant collected == {} <==> i == 0
    {
      collected := collected + {buttons[i]};
      assert buttons[..i + 1] == buttons[..i] + [buttons[i]];
    }
    assert buttons[..|buttons|] == buttons;
  }

  method ValidatedButtons(buttons: seq<Button>) returns (r: Result<set<Button>, InputError>)
    ensures r == if buttons == [] then Err(NoButtons) else Ok(ButtonSet(buttons))
  {
    var collected := Collect(buttons);
    if collected == {} {
      return Err(NoButtons);
    }
    r := Ok(collected);
  }

  /** Inserts each button into the pressed set; the order in which a set is visited does not matter. */
  method PressValidated(current: InputState, buttons: set<Button>) returns (pressed: InputState)
    ensures pressed == current.(buttons := current.buttons + buttons)
  {
    var result := current.buttons;
    var remaining := buttons;
    while remaining != {}
      invariant remaining <= buttons
      invariant result + remaining == current.buttons + buttons
    {
      var b :| b in remaining;
      result := result + {b};
      remaining := remaining - {b};
    }
    pressed := current.(buttons := result);
  }

  function ReleaseValidated(current: InputState, buttons: set<Button>): (released: InputState)
    ensures released == current.(buttons := current.buttons - buttons)
  {
    current.(buttons := set b | b in current.buttons && b !in buttons)
  }

  method PressCandidate(current: InputState, buttons: seq<Button>) returns (r: Result<InputState, InputError>)
    ensures r == Pressed(current, buttons)
  {
    var validated := ValidatedButtons(buttons);
    if validated.Err? {
      return Err(validated.error);
    }
    var pressed := PressValidated(current, validated.value);
    r := Ok(pressed);
  }

  method ReleaseCandidate(current: InputState, buttons: seq<Button>) returns (r: Result<InputState, InputError>)
    ensures r == Released(current, buttons)
  {
    var validated := ValidatedButtons(buttons);
    if validated.Err? {
      return Err(validated.error);
    }
    r := Ok(ReleaseValidated(current, validated.value));
  }

  method PlanTap(current: InputState, buttons: seq<Button>, duration: Duration) returns (r: Result<TapPlan, InputError>)
    ensures r == Plan(current, buttons, duration)
  {
    var validated := ValidatedButtons(buttons);
    if validated.Err? {
      return Err(validated.error);
    }
    if MAX_TAP_DURATION < duration {
      return Err(TapTooLong);
    }
    var pressed := PressValidated(current, validated.value);
    r := Ok(TapPlan(pressed, ReleaseValidated(pressed, validated.value), duration));
  }

  /** A valid tap lets go of exactly its own buttons, keeps every other one, and leaves sticks and IMU alone. */
  lemma TapReleasesItsButtons(current: InputState, buttons: seq<Button>, duration: Duration)
    ensures Plan(current, buttons, duration).Ok? <==> buttons != [] && duration <= MAX_TAP_DURATION
    ensures Plan(current, buttons, duration).Ok? ==>
            var plan := Plan(current, buttons, duration).value;
            && (forall b: Button :: b in plan.pressed.buttons <==> b in current.buttons || b in buttons)
            && Released(plan.pressed, buttons) == Ok(plan.released)
            && Released(current, buttons) == Ok(plan.released)
            && plan.released.(buttons := {}) == plan.pressed.(buttons := {}) == current.(buttons := {})
  {
    if Plan(current, buttons, duration).Ok? {
      var plan := Plan(current, buttons, duration).value;
      assert plan.released.buttons == current.buttons - ButtonSet(buttons);
    }
  }
}

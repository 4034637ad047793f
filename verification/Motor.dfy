/** Small values and facts shared by all modules. */
module Common {
  datatype Option<+T> = None | Some(value: T)

  function Min(a: int, b: int): int { if a <= b then a else b }

  function Max(a: int, b: int): int { if a >= b then a else b }

  function Abs(a: int): int { if a >= 0 then a else -a }

  function Clamp(lo: int, hi: int, x: int): int { Max(lo, Min(hi, x)) }

  predicate Distinct<T(==)>(s: seq<T>) { forall i, j :: 0 <= i < j < |s| ==> s[i] != s[j] }

  lemma SubsetSize<T>(a: set<T>, b: set<T>)
    requires a <= b
    ensures |a| <= |b| && (a != b ==> |a| < |b|)
  {
    var rest := b - a;
    assert b == a + rest && |a + rest| == |a| + |rest|;
    if rest == {} {
      assert a == b;
    }
  }
}

/** One bounded input command, and what replaying commands does to a physical keyboard. */
module Motor {
  import opened Common

  type Token = string

  const MAX_TOKENS := 16
  const MAX_MOTION := 4096
  const MAX_DURATION_MS := 1000

  // Tuples of sorted tokens are sets here; tokens are already normalised.
  datatype MotorAction = MotorAction(
    sequence: int,
    keysDown: set<Token>,
    keysUp: set<Token>,
    buttonsDown: set<Token>,
    buttonsUp: set<Token>,
    dx: int,
    dy: int,
    cursor: Option<(real, real)>,
    world: bool,
    durationMs: int)

  datatype ActionKind = KeyboardInput | ButtonInput | MouseInput

  /** The limits the action constructor enforces; it raises on anything else. */
  predicate Admissible(a: MotorAction) {
    && 0 <= a.sequence
    && |a.keysDown| <= MAX_TOKENS && |a.keysUp| <= MAX_TOKENS
    && |a.buttonsDown| <= MAX_TOKENS && |a.buttonsUp| <= MAX_TOKENS
    && -MAX_MOTION <= a.dx <= MAX_MOTION
    && -MAX_MOTION <= a.dy <= MAX_MOTION
    && 0 <= a.durationMs <= MAX_DURATION_MS
    && (a.cursor.Some? ==>
          && 0.0 <= a.cursor.value.0 <= 1.0 && 0.0 <= a.cursor.value.1 <= 1.0
          && !a.world && a.dx == 0 && a.dy == 0)
  }

  function Neutral(sequence: int): MotorAction {
    MotorAction(sequence, {}, {}, {}, {}, 0, 0, None, true, 0)
  }

  function Kinds(a: MotorAction): set<ActionKind> {
    (if a.keysDown + a.keysUp != {} then {KeyboardInput} else {})
    + (if a.buttonsDown + a.buttonsUp != {} then {ButtonInput} else {})
    + (if a.dx != 0 || a.dy != 0 || a.cursor.Some? then {MouseInput} else {})
  }

  /** Motion of the physical world camera; cursor motion does not turn it. */
  function WorldPitch(a: MotorAction): int { if a.world then a.dy else 0 }

  datatype Keyboard = Keyboard(keys: set<Token>, buttons: set<Token>)

  const RELEASED := Keyboard({}, {})

  /** Downs are added before ups are removed, so an up wins over a down in one action. */
  function Press(k: Keyboard, a: MotorAction): Keyboard {
    Keyboard((k.keys + a.keysDown) - a.keysUp, (k.buttons + a.buttonsDown) - a.buttonsUp)
  }

  /** The action that takes a keyboard showing `before` to one showing `after`. */
  function Toward(sequence: int, before: Keyboard, after: Keyboard): MotorAction {
    MotorAction(sequence, after.keys - before.keys, before.keys - after.keys,
                after.buttons - before.buttons, before.buttons - after.buttons, 0, 0, None, true, 0)
  }

  lemma TowardArrives(sequence: int, before: Keyboard, after: Keyboard)
    ensures var a := Toward(sequence, before, after);
            Press(before, a) == after && a.keysDown !! a.keysUp && a.buttonsDown !! a.buttonsUp
  {
  }

  predicate Fits(k: Keyboard) { |k.keys| <= MAX_TOKENS && |k.buttons| <= MAX_TOKENS }

  lemma TowardFits(sequence: int, before: Keyboard, after: Keyboard)
    requires Fits(before) && Fits(after) && 0 <= sequence
    ensures Admissible(Toward(sequence, before, after))
  {
    SubsetSize(after.keys - before.keys, after.keys);
    SubsetSize(before.keys - after.keys, before.keys);
    SubsetSize(after.buttons - before.buttons, after.buttons);
    SubsetSize(before.buttons - after.buttons, before.buttons);
  }
}

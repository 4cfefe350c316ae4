/**
 * The page's three-flag state as a value, and what each handler does to it.
 * A tracked write returns the new state together with the cues it fired,
 * in firing order.
 */
module SignState {
  import opened Cues
  import opened Proximity

  /** The keys of the state object that the handlers write. */
  datatype Key = Approaching | IsHidden | IsIdle

  datatype State = State(approaching: bool, isHidden: bool, isIdle: bool)
  {
    function Get(key: Key): (v: bool)
    {
      match key
      case Approaching => approaching
      case IsHidden => isHidden
      case IsIdle => isIdle
    }

    /** A plain store into one field, with no side effect. */
    function Put(key: Key, value: bool): (s': State)
      ensures s'.Get(key) == value
      ensures forall k :: k != key ==> s'.Get(k) == Get(k)
    {
      match key
      case Approaching => this.(approaching := value)
      case IsHidden => this.(isHidden := value)
      case IsIdle => this.(isIdle := value)
    }

    /** `isReadyForAnimation`: the write just made to `key` should fire a look-at-me cue. */
    predicate ReadyForAnimation(key: Key)
    {
      key == IsIdle && isIdle && approaching
    }

    /** `shouldBeHidden`: the poll fires `hide`. It excludes `shouldBeVisible`, so the poll's branch order does not matter. */
    predicate ShouldBeHidden()
      ensures ShouldBeHidden() ==> !ShouldBeVisible()
    {
      isIdle && !approaching
    }

    /** `shouldBeVisible`: the poll fires `emerge` when it does not fire `hide`. */
    predicate ShouldBeVisible()
      ensures ShouldBeVisible() && Exclusive() ==> !isIdle
    {
      approaching && isHidden
    }

    /** After every handler has finished, the character is not both idle and hidden. */
    predicate Exclusive()
    {
      !(isIdle && isHidden)
    }
  }

  /** The state object as the script creates it. */
  const Initial: State := State(approaching := false, isHidden := true, isIdle := false)

  /**
   * Readiness after a changing write, in terms of the state before it: only
   * a write of `isIdle := true` while the pointer already approaches is
   * ready, so a write to `approaching` never fires, even while idle.
   */
  lemma ReadyAfterWrite(s: State, key: Key, value: bool)
    requires s.Get(key) != value
    ensures s.Put(key, value).ReadyForAnimation(key) <==> key == IsIdle && value && s.approaching
  {
  }

  datatype Outcome = Outcome(state: State, fired: seq<Cue>)

  /**
   * The proxy's `set` trap. A write of the value already held does nothing.
   * Otherwise the value is stored; if that makes the state ready for
   * animation, a look-at-me cue chosen by `roll` is fired and `isIdle` is
   * put back to false directly.
   */
  function Write(s: State, key: Key, value: bool, roll: Roll): (o: Outcome)
    ensures s.Get(key) == value ==> o == Outcome(s, [])
    ensures o.fired != [] <==> key == IsIdle && value && !s.isIdle && s.approaching
    ensures |o.fired| <= 1
    ensures forall c :: c in o.fired ==> c in LookAtMe
    ensures o.fired != [] ==> o.fired == [RandomAnimation(roll)]
    ensures o.fired != [] ==> o.state == s && !o.state.isIdle
    ensures o.fired == [] ==> o.state == s.Put(key, value)
  {
    if s.Get(key) == value then
      Outcome(s, [])
    else
      var stored := s.Put(key, value);
      if stored.ReadyForAnimation(key) then
        Outcome(stored.(isIdle := false), [RandomAnimation(roll)])
      else
        Outcome(stored, [])
  }

  /**
   * `handleRiveEvent`: "Idle" writes isIdle := true then isHidden := false;
   * "hidden" writes isHidden := true then isIdle := false; any other name is
   * ignored. Only the first write of "Idle" can fire, so one draw serves.
   */
  function OnEvent(s: State, name: string, roll: Roll): (o: Outcome)
    ensures name == "Idle" ==>
              && !o.state.isHidden
              && o.state.approaching == s.approaching
              && o.state.isIdle == (s.isIdle || !s.approaching)
              && (o.fired != [] <==> !s.isIdle && s.approaching)
    ensures name == "hidden" ==>
              o == Outcome(s.(isHidden := true, isIdle := false), [])
    ensures name != "Idle" && name != "hidden" ==> o == Outcome(s, [])
    ensures |o.fired| <= 1
    ensures forall c :: c in o.fired ==> c in LookAtMe
    ensures o.fired != [] ==> o.fired == [RandomAnimation(roll)]
    ensures name == "Idle" || name == "hidden" ==> o.state.Exclusive()
  {
    if name == "Idle" then
      var first := Write(s, IsIdle, true, roll);
      var second := Write(first.state, IsHidden, false, roll);
      Outcome(second.state, first.fired + second.fired)
    else if name == "hidden" then
      var first := Write(s, IsHidden, true, roll);
      var second := Write(first.state, IsIdle, false, roll);
      Outcome(second.state, first.fired + second.fired)
    else
      Outcome(s, [])
  }

  /**
   * The `mousemove` handler: writes whether the pointer approaches the
   * button's corner. A write to `approaching` never fires, so the draw
   * passed to the store is never consulted.
   */
  function OnMove(s: State, mouse: Point, btn: Point): (o: Outcome)
    ensures o.fired == []
    ensures o.state.approaching <==> SquaredDistance(mouse, btn) <= ApproachDistance * ApproachDistance
    ensures o.state.isHidden == s.isHidden && o.state.isIdle == s.isIdle
  {
    Write(s, Approaching, Approaches(mouse, btn), 0.0)
  }

  /** The inputs that reach the state: pointer moves and the animation's named events. */
  datatype Input = MouseMove(mouse: Point) | RiveEvent(name: string, roll: Roll)

  function Step(s: State, btn: Point, input: Input): (o: Outcome)
    ensures s.Exclusive() ==> o.state.Exclusive()
  {
    match input
    case MouseMove(mouse) => OnMove(s, mouse, btn)
    case RiveEvent(name, roll) => OnEvent(s, name, roll)
  }

  /** The state after handling `inputs` in order, the button corner fixed at `btn`. */
  function Run(s: State, btn: Point, inputs: seq<Input>): (t: State)
    decreases |inputs|
  {
    if inputs == [] then s else Run(Step(s, btn, inputs[0]).state, btn, inputs[1..])
  }

  /** Every state the page reaches between handlers has isIdle and isHidden not both true. */
  lemma {:induction false} RunKeepsExclusive(s: State, btn: Point, inputs: seq<Input>)
    requires s.Exclusive()
    ensures Run(s, btn, inputs).Exclusive()
    decreases |inputs|
  {
    if inputs != [] {
      RunKeepsExclusive(Step(s, btn, inputs[0]).state, btn, inputs[1..]);
    }
  }

  /**
   * In a reachable state where the character is idle and the pointer is
   * near, the poll fires neither `hide` nor `emerge`.
   */
  lemma ReachableIdleNearIsQuiet(btn: Point, inputs: seq<Input>)
    ensures var t := Run(Initial, btn, inputs);
            t.isIdle && t.approaching ==> !t.ShouldBeHidden() && !t.ShouldBeVisible()
  {
    RunKeepsExclusive(Initial, btn, inputs);
  }

  /**
   * A firing write leaves the state as it was, so writing `isIdle := true`
   * again fires again: repeated cues are possible while the pointer stays near.
   */
  lemma FiringWriteRepeats(s: State, roll: Roll, again: Roll)
    requires Write(s, IsIdle, true, roll).fired != []
    ensures Write(Write(s, IsIdle, true, roll).state, IsIdle, true, again).fired != []
  {
  }
}

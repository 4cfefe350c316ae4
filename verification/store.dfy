/**
 * The page's live state object behind its `set`-trapping proxy, and the
 * handlers that write to it or read it.
 */
module Page {
  import opened Cues
  import opened Proximity
  import opened SignState

  /** The `state` object; `Set` is the proxy's tracked write. */
  class Store {
    var approaching: bool
    var isHidden: bool
    var isIdle: bool

    constructor ()
      ensures Snapshot() == Initial
    {
      approaching, isHidden, isIdle := false, true, false;
    }

    /** The current field values as a `State`. */
    function Snapshot(): (s: State)
      reads this
    {
      State(approaching, isHidden, isIdle)
    }

    /**
     * Tracked write of `value` to `key`; returns the cues fired (at most
     * one), with `roll` standing for `Math.random()`.
     */
    method Set(key: Key, value: bool, roll: Roll) returns (fired: seq<Cue>)
      modifies this
      ensures Snapshot() == Write(old(Snapshot()), key, value, roll).state
      ensures fired == Write(old(Snapshot()), key, value, roll).fired
    {
      fired := [];
      if Snapshot().Get(key) != value {
        match key {
          case Approaching => approaching := value;
          case IsHidden => isHidden := value;
          case IsIdle => isIdle := value;
        }
        if Snapshot().ReadyForAnimation(key) {
          fired := [RandomAnimation(roll)];
          // direct store, not through the tracked write
          isIdle := false;
        }
      }
    }
  }

  /** `handleRiveEvent`: two ordered tracked writes per recognised event name. */
  method HandleRiveEvent(store: Store, name: string, roll: Roll) returns (fired: seq<Cue>)
    modifies store
    ensures store.Snapshot() == OnEvent(old(store.Snapshot()), name, roll).state
    ensures fired == OnEvent(old(store.Snapshot()), name, roll).fired
    ensures name == "Idle" || name == "hidden" || old(store.Snapshot().Exclusive()) ==>
              store.Snapshot().Exclusive()
  {
    fired := [];
    if name == "Idle" {
      var first := store.Set(IsIdle, true, roll);
      var second := store.Set(IsHidden, false, roll);
      fired := first + second;
    } else if name == "hidden" {
      var first := store.Set(IsHidden, true, roll);
      var second := store.Set(IsIdle, false, roll);
      fired := first + second;
    }
  }

  /** The `mousemove` listener, with the button corner `btn` measured once at start-up. */
  method OnMouseMove(store: Store, mouse: Point, btn: Point) returns (fired: seq<Cue>)
    modifies store
    ensures store.Snapshot() == OnMove(old(store.Snapshot()), mouse, btn).state
    ensures fired == []
  {
    // a write to approaching never fires, so the draw is never consulted
    fired := store.Set(Approaching, Approaches(mouse, btn), 0.0);
  }

  /**
   * One tick of `checkVisibility`: the cue it fires, if any. Reading the
   * state is all it does; it leaves the store unchanged.
   */
  method CheckVisibility(store: Store) returns (cue: Option<Cue>)
    ensures cue == Some(Hide) <==> store.isIdle && !store.approaching
    ensures cue == Some(Emerge) <==> store.approaching && store.isHidden
    ensures cue == None <==> !(store.isIdle && !store.approaching) && !(store.approaching && store.isHidden)
  {
    var s := store.Snapshot();
    if s.ShouldBeHidden() {
      cue := Some(Hide);
    } else if s.ShouldBeVisible() {
      cue := Some(Emerge);
    } else {
      cue := None;
    }
  }
}

/**
 * The animation cues the page can fire and the random choice among the
 * three "look-at-me" cues.
 */
module Cues {

  /** The trigger inputs of the animation's state machine, after camel-casing. */
  datatype Cue = SpinSign | RotateSign | PointSign | Hide | Emerge

  datatype Option<T> = None | Some(value: T)

  /** A value of `Math.random()`: a real number in [0, 1). */
  type Roll = r: real | 0.0 <= r < 1.0 witness 0.0

  /** The cues one of which is fired when the character should look at the pointer. */
  const LookAtMe: seq<Cue> := [SpinSign, RotateSign, PointSign]

  /** `Math.floor(roll * n)`: the index drawn from a list of length `n`. */
  function PickIndex(roll: Roll, n: nat): (i: nat)
    ensures n > 0 ==> i < n
  {
    var p := roll * n as real;
    assert p < n as real || n == 0 by {
      if n > 0 {
        assert roll * n as real < 1.0 * n as real;
      }
    }
    p.Floor
  }

  /** The cue `getRandomAnimation` returns for a given draw. */
  function RandomAnimation(roll: Roll): (c: Cue)
    ensures c in LookAtMe
    ensures c != Hide && c != Emerge
  {
    LookAtMe[PickIndex(roll, |LookAtMe|)]
  }

  /**
   * The draw is uniform: index `i` is chosen exactly for the draws in
   * [i/n, (i+1)/n), an interval of width 1/n.
   */
  lemma PickIndexInterval(roll: Roll, n: nat, i: nat)
    requires i < n
    ensures PickIndex(roll, n) == i <==>
              i as real / n as real <= roll < (i + 1) as real / n as real
  {
    var N := n as real;
    assert N > 0.0;
    var p := roll * N;
    calc {
      i as real / N <= roll;
    <==> { DivLeMul(i as real, N, roll); }
      i as real <= p;
    }
    calc {
      roll < (i + 1) as real / N;
    <==> { DivLeMul((i + 1) as real, N, roll); }
      p < (i + 1) as real;
    }
  }

  /** For a positive divisor, `a / d <= x` exactly when `a <= x * d`. */
  lemma DivLeMul(a: real, d: real, x: real)
    requires d > 0.0
    ensures a / d <= x <==> a <= x * d
  {
  }

  /** Each of the three look-at-me cues is drawn for some value of `Math.random()`. */
  lemma EveryLookAtMeCueReachable(c: Cue)
    requires c in LookAtMe
    ensures exists roll: Roll :: RandomAnimation(roll) == c
  {
    var n := |LookAtMe|;
    var i: nat :| i < n && LookAtMe[i] == c;
    var roll: Roll := i as real / n as real;
    PickIndexInterval(roll, n, i);
    assert RandomAnimation(roll) == c;
  }
}

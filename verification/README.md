# sign-spin: the character overlay's state machine

The script `scripts.mjs` puts an animated character next to a page's
call-to-action button. The character reacts to how close the mouse pointer is.
Its only logic is a small machine over three flags: `approaching`, `isHidden`
and `isIdle`. This project models that machine and proves its behaviour:

- **Cues** (`cues.dfy`): the animation's trigger inputs. `LookAtMe` is the
  three-cue list. `getRandomAnimation` is modelled as `floor(roll * n)`, where
  `roll` stands for `Math.random()` as a real in [0, 1).
- **Proximity** (`proximity.dfy`): the `mousemove` threshold. The rule is
  "the Euclidean distance to the button's top-left corner is at most 400". It is
  decided on integer squared distances and proved to agree with the real
  hypotenuse.
- **SignState** (`state.dfy`): the state as a value. It covers the proxy's
  tracked write (`Write`), the two handlers (`OnEvent`, `OnMove`) and a run over
  any sequence of inputs (`Run`). It also holds the poll conditions and the
  lemmas that relate these operations.
- **Page** (`store.dfy`): the live `state` object as a class whose `Set`
  method is the proxy's `set` trap. The event handlers and the visibility poll
  are methods on a shared `Store`. `Set`, `HandleRiveEvent` and `OnMouseMove`
  are proved to leave the store as `Write`, `OnEvent` and `OnMove` describe.
  `CheckVisibility` is proved to follow `ShouldBeHidden` and `ShouldBeVisible`.

A cue that is fired is modelled as a returned effect: a `Cue` in the result
list, or the poll's `Option<Cue>`. A firing write sets `isIdle` from false to
true and then directly back to false. So it leaves the state exactly as it
found it, which is why the same write can fire again later (`FiringWriteRepeats`).
Every recognised event ends with `isIdle` and `isHidden` not both true. Pointer
moves never touch either flag. Between the two writes of an `'Idle'` event both
flags can be true for a moment. Once each handler has finished, though, the pair
is exclusive again, after any sequence of inputs (`RunKeepsExclusive`). That
exclusion is why the poll stays quiet when the character is idle and the
pointer is near.

## Model

| member | source | states |
|---|---|---|
| Cues.PickIndex | scripts.mjs:130-132 | `Math.floor(Math.random() * n)` is an index in [0, n) whenever the list is non-empty |
| Cues.RandomAnimation | scripts.mjs:130-132 | the drawn cue is one of the three look-at-me cues, never `hide` or `emerge` |
| Cues.PickIndexInterval | scripts.mjs:131 | index i is drawn exactly when the random value lies in [i/n, (i+1)/n): every index gets an equal share |
| Cues.EveryLookAtMeCueReachable | scripts.mjs:103 | each of `spinSign`, `rotateSign`, `pointSign` is drawn for some random value |
| Proximity.SquaredDistance | scripts.mjs:47 | the squared distance between the pointer and the button corner is never negative |
| Proximity.HypotAgreement | scripts.mjs:44-55 | for the real distance h (h >= 0, h*h = squared distance), the integer test holds iff h <= 400 |
| Proximity.Approaches | scripts.mjs:47-49 | the `distance <= APPROACH_DISTANCE` test on squared distances; an approaching pointer is within 400 of the corner on each axis |
| Proximity.BoundaryIncluded | scripts.mjs:49 | a pointer at distance exactly 400 approaches; one at 401 along an axis does not |
| SignState.State.Put | scripts.mjs:30 | a plain store changes the written key to the new value and leaves the other two keys alone |
| SignState.ReadyAfterWrite | scripts.mjs:134-136 | after a changing write, the state is ready iff the key is `isIdle`, the value is true and `approaching` already held, so a write to `approaching` never fires, even while idle |
| SignState.State.ShouldBeHidden | scripts.mjs:156-158 | `hide` is wanted when idle and not approaching; it never holds together with `ShouldBeVisible`, so the poll's branch order does not matter |
| SignState.State.ShouldBeVisible | scripts.mjs:152-154 | `emerge` is wanted when approaching and hidden; in a state where idle and hidden exclude each other, this means the character is not idle |
| SignState.Write | scripts.mjs:27-40 | writing the held value changes nothing and fires nothing; a cue fires iff the key is `isIdle`, the value is true, `isIdle` was false and `approaching` is true; at most one cue fires and it is the `getRandomAnimation` pick for the draw; after a fire `isIdle` is false and the state is as before; a write that does not fire updates only the written key |
| SignState.OnEvent | scripts.mjs:117-128 | `'hidden'` ends with `isHidden` true and `isIdle` false and fires nothing; `'Idle'` ends with `isHidden` false, keeps `approaching`, leaves `isIdle` true unless a cue fired, and fires iff `isIdle` was false and `approaching` true, the fired cue being the pick for the draw; other names change nothing and fire nothing; both recognised events leave `isIdle` and `isHidden` not both true |
| SignState.OnMove | scripts.mjs:44-55 | a pointer move fires nothing, sets `approaching` iff the squared distance is at most 400 squared, and keeps `isHidden` and `isIdle` |
| SignState.Step | scripts.mjs:44-128 | every handled input keeps `isIdle` and `isHidden` from both being true |
| SignState.RunKeepsExclusive | scripts.mjs:44-128 | after any sequence of pointer moves and events, `isIdle` and `isHidden` are not both true |
| SignState.ReachableIdleNearIsQuiet | scripts.mjs:142-158 | in every reachable state that is idle with the pointer near, the poll fires neither `hide` nor `emerge` |
| SignState.FiringWriteRepeats | scripts.mjs:29-35 | after a firing `isIdle := true` write, the same write fires again |
| Page.Store.constructor | scripts.mjs:11-15 | the state starts with `approaching` false, `isHidden` true and `isIdle` false |
| Page.Store.Set | scripts.mjs:27-40 | the in-place tracked write leaves the fields, and returns the fired cues, exactly as `Write` describes |
| Page.HandleRiveEvent | scripts.mjs:117-128 | the two ordered tracked writes leave the store, and return the fired cues, as `OnEvent` describes; the idle/hidden exclusion holds afterwards |
| Page.OnMouseMove | scripts.mjs:44-55 | the in-place pointer move leaves the store as `OnMove` describes: `approaching` holds iff the squared distance is at most 400 squared, and `isHidden` and `isIdle` are unchanged; it fires nothing |
| Page.CheckVisibility | scripts.mjs:142-150 | the poll returns `hide` iff idle and not approaching (`ShouldBeHidden`), `emerge` iff approaching and hidden (`ShouldBeVisible`), nothing otherwise, and changes no field |

## Left out

- The animation engine: `new rive.Rive`, `Layout`, `stateMachineInputs`, `resizeDrawingSurfaceToCanvas`, the resize listener and `.fire()` itself (scripts.mjs:58-111). These are calls into an external library, so a fire is modelled only as a returned cue.
- The `camelCase` normalisation of input names (scripts.mjs:97). It is an external package; cues are named directly by the `Cue` datatype.
- The building of the trigger map at load (scripts.mjs:95-100). `LookAtMe` is the constant three-cue list it yields. Before load the list is empty, so a fire would call `.fire()` on `undefined`. The error escapes the `set` trap: the reset of `isIdle` is skipped, and so is the second write of the `'Idle'` handler, `isHidden := false` (scripts.mjs:121). That failure is an engine-setup fault and is not modelled.
- `createContainer` and `createCanvas` (scripts.mjs:160-180): DOM layout, with floating-point canvas sizes.
- The `requestAnimationFrame` rescheduling (scripts.mjs:149). It is event-loop scheduling, so `CheckVisibility` models a single tick.
- `Math.random` is a parameter of type `Roll` (a real in [0, 1)) rather than a random source, and floating-point rounding of `roll * n` is not modelled.
- `Math.hypot` and fractional coordinates: pointer and button positions are integers, and the comparison is done on squared distances.
- The proxy accepts any property name. The model restricts keys to the three the script writes.

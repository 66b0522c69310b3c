# clController, modelled in Dafny

clController is the input layer of the Unity library clLibrary. One
`Controller` per player turns several kinds of input into a single
`VirtualButton` mask once per tick: key and axis bindings (`ConObj`), up
to three touch or mouse "fingers" with tap buttons and swipes, on-screen
`VirtualButton` widgets, and arrow rules between the sticks and the arrow
keys. Every button of the canonical list (`BTNNUMLIST`) is then judged
against that mask. The result steps two key-repeat timers per button,
and the timer outputs fill the per-mode masks (`Press`, `Repeat`, `Down`,
`Up`, `Delay…`, `Double…`, `Click`). An optional ZL/ZR shoulder swap
follows. The camera helper `FollowCamera` clamps its view angles and its
follow distance.

The model has one module per part of the library:

- **Kinds**: the controller, key, stick-position and vector-component enums.
- **Buttons**: `ButtonType` masks as 32-bit vectors, `JudgeButton`,
  `KeySwap`, and the canonical button list built by `GetListButtonType`.
- **VecComp**: the vector helpers, with floats as `real`.
- **Comp**: the stick calibration tables.
- **Stick**: `StickObj`, the dictionary from stick key to vector.
- **KeyRepeat**: `KeyRepeatClass`, the repeat timer.
- **Touch**: touch-phase counting and one finger's tick.
- **TouchInput**: filling the slots from touches or the mouse, and the
  per-finger loop.
- **Bindings**: `ConObj.UpdateButton` and the `BuildOfType` binding list.
- **Arrows**: the ArrowToMove and MoveToArrow rules.
- **Classify**: the btnlist loop, the timer loop into the mode masks,
  `KeySwapLocal` on the masks and the mode getters.
- **TickState**: what one tick leaves behind, stated on plain values.
- **Controller**: the `Controller` class and `ControllerUpdate`, split
  into the stages the source runs in order.
- **VirtualButton**: the on-screen button widget.
- **FollowCamera**: the camera's angle and distance clamps.

Objects that the source updates in place are classes: `Controller`,
`StickObj`, `KeyRepeatClass`, `CompValue`, `CompPoint`, `VirtualButton`
and `FollowCamera`. The source's loops are methods with loop invariants,
each proved against a specification function. The properties are proved
as lemmas about those functions.

Engine input is a parameter of the tick: the `Frame` value holds the
touches, the mouse, the binding readings and `Time.deltaTime`. Unity's
trigonometry (`magnitude`, `normalized`, `Atan2`) enters as a `Geometry`
value whose functions are unknown. Each result that depends on it is
stated in terms of that value.

## Model

| member | source | states |
|---|---|---|
| Buttons.JudgeButton | Assets/clLibrary/clController/Controller.cs:135-156 | NONE never matches |
| Buttons.JudgeAndLowQuery | Assets/clLibrary/clController/Controller.cs:135-156 | AND mode with a low-only query holds iff every query bit is pressed, whatever the high byte |
| Buttons.JudgeAndHighQuery | Assets/clLibrary/clController/Controller.cs:135-156 | AND mode with a high code holds iff the high bytes are equal and every low query bit is pressed |
| Buttons.JudgeOr | Assets/clLibrary/clController/Controller.cs:135-156 | OR mode holds iff the high bytes are equal (when the query has one) or a low bit is shared |
| Buttons.JudgeAndImpliesOr | Assets/clLibrary/clController/Controller.cs:135-156 | an AND match is also an OR match |
| Buttons.JudgeSelf | Assets/clLibrary/clController/Controller.cs:135-156 | every query but NONE matches itself in both modes |
| Buttons.JudgeHighOnly | Assets/clLibrary/clController/Controller.cs:135-156 | a pure high code (F1..ESC) is an equality test on the high byte in both modes |
| Buttons.JudgeAndMonotone | Assets/clLibrary/clController/Controller.cs:135-156 | pressing more buttons never loses an AND match of a low-only query |
| Buttons.BitIsSingle | Assets/clLibrary/clController/Controller.cs:1061-1070 | `1 << num` is a single bit |
| Buttons.SwapMasksFrame | Assets/clLibrary/clController/Controller.cs:1061-1070 | SwapMasks, the mask form of KeySwap, changes no bit outside the two masks |
| Buttons.SwapMasksFirst | Assets/clLibrary/clController/Controller.cs:1061-1070 | the first mask's bit becomes the old second bit |
| Buttons.SwapMasksSecond | Assets/clLibrary/clController/Controller.cs:1061-1070 | in a two-way swap the second mask's bit becomes the old first bit |
| Buttons.SwapMasksOneWay | Assets/clLibrary/clController/Controller.cs:1061-1070 | a one-way swap keeps the second bit |
| Buttons.SwapMasksTwice | Assets/clLibrary/clController/Controller.cs:1061-1070 | for two distinct single bits, a two-way swap applied twice restores the mask |
| Buttons.KeySwapFrame | Assets/clLibrary/clController/Controller.cs:1061-1070 | KeySwap (SwapMasks of the bits num1 and num2) changes no bit other than num1 and num2 |
| Buttons.KeySwapFirst | Assets/clLibrary/clController/Controller.cs:1061-1070 | bit num1 of the result is the old bit num2 |
| Buttons.KeySwapSecond | Assets/clLibrary/clController/Controller.cs:1061-1070 | without oneway, bit num2 of the result is the old bit num1 |
| Buttons.KeySwapOneWay | Assets/clLibrary/clController/Controller.cs:1061-1070 | with oneway and distinct numbers, bit num2 is kept |
| Buttons.KeySwapTwice | Assets/clLibrary/clController/Controller.cs:1061-1070 | for distinct bit numbers (the shoulder pairs 8/10 and 9/11 among them) a two-way KeySwap is an involution |
| Buttons.Log2Floor | Assets/clLibrary/clController/Controller.cs:1078-1091 | the truncated base-2 logarithm n satisfies 2^n <= v < 2^(n+1) |
| Buttons.Log2Unique | Assets/clLibrary/clController/Controller.cs:1078-1091 | that n is unique |
| Buttons.Log2Below32 | Assets/clLibrary/clController/Controller.cs:1078-1091 | a nonzero 32-bit mask has its logarithm below 32, so it is a valid shift count |
| Buttons.Log2FloorOfShoulders | Assets/clLibrary/clController/Controller.cs:1367-1371 | L, ZL, R and ZR give bit numbers 8, 10, 9 and 11 |
| Buttons.CanonExcludesMeta | Assets/clLibrary/clController/Controller.cs:757-784 | the list never holds BITJADGE or ANY |
| Buttons.CanonHighIncluded | Assets/clLibrary/clController/Controller.cs:757-784 | every listed value is an enum value, and every high enum value but ANY is listed |
| Buttons.CanonOfEnum | Assets/clLibrary/clController/Controller.cs:757-784 | over the enum's declared values the rule yields exactly the 23 single bits then the 15 high codes |
| Buttons.ButtonListLowDisjoint | Assets/clLibrary/clController/Controller.cs:757-784 | the low entries are exactly the first 23, and pairwise share no bit |
| Buttons.ButtonListFacts | Assets/clLibrary/clController/Controller.cs:757-784 | no meta value; only enum values; all high values; no bit listed twice |
| Buttons.CollectButtons | Assets/clLibrary/clController/Controller.cs:757-784 | the loop over the enum values returns the canonical list of those values |
| Buttons.GetListButtonType | Assets/clLibrary/clController/Controller.cs:757-784 | GetListButtonType returns ButtonList |
| VecComp.AbsMax | Assets/clLibrary/clController/VecComp.cs:19-29 | a (near-)zero rhs changes nothing; otherwise each component has the larger magnitude, ties keeping lhs |
| VecComp.AbsMin | Assets/clLibrary/clController/VecComp.cs:33-43 | a (near-)zero lhs is returned; otherwise each component has the smaller magnitude |
| VecComp.AbsMax2 | Assets/clLibrary/clController/VecComp.cs:48-56 | the same as AbsMax, on two components |
| VecComp.AbsMax2IsAbsMax | Assets/clLibrary/clController/VecComp.cs:48-56 | AbsMax2 is AbsMax on vectors widened with zeros |
| VecComp.AbsMaxSelf | Assets/clLibrary/clController/VecComp.cs:19-29 | merging a vector with itself changes nothing |
| VecComp.AbsMaxNeverShrinks | Assets/clLibrary/clController/VecComp.cs:19-29 | no component of the result is smaller in magnitude than lhs |
| VecComp.MaxRadius | Assets/clLibrary/clController/VecComp.cs:60-67 | the result is the largest component magnitude, attained by some component |
| VecComp.AbsCompFloor | Assets/clLibrary/clController/VecComp.cs:71-75 | values below the floor in magnitude become 0, others are kept |
| VecComp.AbsCompFloorIdempotent | Assets/clLibrary/clController/VecComp.cs:71-75 | flooring twice is flooring once |
| VecComp.AbsCompFloor3 | Assets/clLibrary/clController/VecComp.cs:80-86 | the floor applies to each component on its own |
| VecComp.ConvMag | Assets/clLibrary/clController/VecComp.cs:109-120 | a zero vector or a non-positive radius is returned unchanged |
| VecComp.ConvMagBounded | Assets/clLibrary/clController/VecComp.cs:109-120 | with a unit direction the result lies in the unit square |
| VecComp.ConvMagSaturates | Assets/clLibrary/clController/VecComp.cs:109-120 | a vector at least maxRadius long becomes its direction |
| VecComp.SetCurcler | Assets/clLibrary/clController/VecComp.cs:124-127 | merging a zero vector only converts lhs to the unit radius |
| VecComp.FMod | Assets/clLibrary/clController/VecComp.cs:132-138 | C# float `%` stays within (-m, m) and takes the dividend's sign |
| VecComp.AbsDeg | Assets/clLibrary/clController/VecComp.cs:132-138 | the angle is in [0, 360) and a whole number of turns from the input |
| VecComp.AbsDegOfNormal | Assets/clLibrary/clController/VecComp.cs:132-138 | an angle in [0, 360) is kept |
| VecComp.AbsDegUnique | Assets/clLibrary/clController/VecComp.cs:132-138 | AbsDeg is the only such representative |
| VecComp.EulerShortest | Assets/clLibrary/clController/VecComp.cs:171-185 | the target moved by whole turns to within 180 degrees of the normalised source |
| VecComp.EulerShortest3 | Assets/clLibrary/clController/VecComp.cs:189-196 | the same for each axis, after the optional +/-90 clamp of x |
| VecComp.LimitForce | Assets/clLibrary/clController/VecComp.cs:314-319 | a force component is dropped exactly when the speed on that axis exceeds abs(max + bias) |
| Comp.SetExtent | Assets/clLibrary/clController/Comp.cs:15-27 | a positive value sets plus and a negative one sets minus (below 0.0001 becomes 0); zero changes nothing |
| Comp.SetExtentSettled | Assets/clLibrary/clController/Comp.cs:15-27 | extents never become negative |
| Comp.ScaleRange | Assets/clLibrary/clController/Comp.cs:28-41 | Scale, the body of CompValue.DoComp, lands in [-1, 1], keeps the sign and maps 0 to 0 |
| Comp.ScaleUnset | Assets/clLibrary/clController/Comp.cs:28-41 | an unset extent only clamps |
| Comp.ScaleInside | Assets/clLibrary/clController/Comp.cs:28-41 | a value within the calibrated extent is divided by it |
| Comp.CompValue.constructor | Assets/clLibrary/clController/Comp.cs:14 | both extents start at 0 |
| Comp.CompValue.Set | Assets/clLibrary/clController/Comp.cs:15-27 | the new extents are SetExtent of the old ones |
| Comp.CompValue.DoComp | Assets/clLibrary/clController/Comp.cs:28-41 | returns Scale of the stored extents |
| Comp.DoCompLookup | Assets/clLibrary/clController/Comp.cs:59-66 | DoCompCon, through the three levels: a missing key passes the value through and a present one scales it |
| Comp.LookupSetPoint | Assets/clLibrary/clController/Comp.cs:45-58 | CompPNT.Set updates exactly one axis, creating it when missing |
| Comp.LookupSetPos | Assets/clLibrary/clController/Comp.cs:70-83 | CompPOS.Set updates exactly one (stick, axis) entry |
| Comp.LookupSetCon | Assets/clLibrary/clController/Comp.cs:95-108 | SetCon, the table form of CompPoint.Set, updates exactly one (controller, stick, axis) entry |
| Comp.DoCompRange | Assets/clLibrary/clController/Comp.cs:120-127 | over a settled table, a calibrated axis gives a result in [-1, 1] with the input's sign |
| Comp.SetConSettled | Assets/clLibrary/clController/Comp.cs:95-108 | Set keeps the table settled |
| Comp.SeededTableContents | Assets/clLibrary/clController/Comp.cs:109-119 | the constructor's eight calls leave exactly the seeded Switch extents |
| Comp.SeededTableExamples | Assets/clLibrary/clController/Comp.cs:109-127 | full deflection of a seeded Switch axis maps to +/-1; other controllers pass through |
| Comp.CompPoint.constructor | Assets/clLibrary/clController/Comp.cs:109-119 | the table is the seeded table |
| Comp.CompPoint.Set | Assets/clLibrary/clController/Comp.cs:95-108 | the table becomes SetCon of the old table |
| Comp.CompPoint.DoComp | Assets/clLibrary/clController/Comp.cs:120-127 | a missing entry passes the value through; a present one scales it |
| Stick.SetMostMap | Assets/clLibrary/clController/Controller.cs:219-225 | only a present key changes, to AbsMax of old and added vector times magnitude; the key set is kept |
| Stick.CombinedKeysAbsent | Assets/clLibrary/clController/Controller.cs:249-256 | Left\|Move and Right\|Rot are not stick keys, and no key but Move (Rot) carries the Move (Rot) flag |
| Stick.MergedNeverShrinks | Assets/clLibrary/clController/Controller.cs:219-225 | with magnitude 1 no component shrinks, and a near-zero vector changes nothing |
| Stick.MergedTwice | Assets/clLibrary/clController/Controller.cs:219-225 | two merges keep the largest magnitude of the three vectors per component |
| Stick.StickObj.constructor | Assets/clLibrary/clController/Controller.cs:249-256 | the five keys, each at zero |
| Stick.StickObj.SetMost | Assets/clLibrary/clController/Controller.cs:219-225 | the dictionary becomes SetMostMap of the old one |
| Stick.StickObj.PosClear | Assets/clLibrary/clController/Controller.cs:240-248 | same keys, every vector zero |
| Stick.StickObj.Assign | Assets/clLibrary/clController/Controller.cs:1279 | the indexer's setter replaces one present key's vector |
| Stick.StickObj.ScaleKey | Assets/clLibrary/clController/Controller.cs:1372 | one key is multiplied component-wise by a factor |
| KeyRepeat.Initial | Assets/clLibrary/clController/Controller.cs:427-432 | a fresh timer is disabled, with no edge flags and the double-press clock past its latency |
| KeyRepeat.Step | Assets/clLibrary/clController/Controller.cs:433-505 | first iff a press reaches lock_start from disabled; last iff a release while enabled; never both; first pulses; no pulse on release; enabled iff pressed and (already enabled or first) |
| KeyRepeat.ReleaseBeforeLock | Assets/clLibrary/clController/Controller.cs:487-503 | a release while disabled clears double_press and the one-tick flags and advances the double clock; lock_enable and pushing are kept |
| KeyRepeat.DownKeepsPushing | Assets/clLibrary/clController/Controller.cs:461-484 | Down does not reset `pushing` |
| KeyRepeat.PulseKinds | Assets/clLibrary/clController/Controller.cs:438-484 | a pulse is a Down, the first repeat after `start` or a repeat after `interval` |
| KeyRepeat.NoSteadyRepeat | Assets/clLibrary/clController/Controller.cs:443-450 | with interval <= 0 a started timer pulses only on Down |
| KeyRepeat.NoRepeatWithoutStart | Assets/clLibrary/clController/Controller.cs:451-459 | with start <= 0 an unstarted timer never starts, so over any Run of Checks every pulse is a Down |
| KeyRepeat.DownNeedsDisabled | Assets/clLibrary/clController/Controller.cs:438-503 | an enabled timer stays enabled until a released tick |
| KeyRepeat.KeyRepeatClass.constructor | Assets/clLibrary/clController/Controller.cs:427-432 | the settings are stored and the state is Initial |
| KeyRepeat.KeyRepeatClass.Check | Assets/clLibrary/clController/Controller.cs:433-505 | the new state and return value are Step of the old state |
| KeyRepeat.KeyRepeatClass.CheckPressed | Assets/clLibrary/clController/Controller.cs:438-486 | the pressed branch |
| KeyRepeat.KeyRepeatClass.CheckReleased | Assets/clLibrary/clController/Controller.cs:487-503 | the released branch |
| Touch.Count | Assets/clLibrary/clController/Controller.cs:522-530 | the count never exceeds the number of touches |
| Touch.CountComplement | Assets/clLibrary/clController/Controller.cs:522-530 | the equal and not-equal counts add up to the number of touches |
| Touch.CountPartition | Assets/clLibrary/clController/Controller.cs:538-545 | the counts of the five phases add up to the number of touches |
| Touch.PhaseCount | Assets/clLibrary/clController/Controller.cs:522-530 | the loop returns Count |
| Touch.GetNotEndedCount | Assets/clLibrary/clController/Controller.cs:531-536 | the result is the number of Began, Moved and Stationary touches |
| Touch.PhaseCounts | Assets/clLibrary/clController/Controller.cs:538-545 | one entry per phase, holding that phase's count |
| Touch.PhaseFlags | Assets/clLibrary/clController/Controller.cs:1137-1152 | every phase presses; Down iff Began; Up iff Ended or Canceled |
| Touch.FingerStep | Assets/clLibrary/clController/Controller.cs:1187-1261 | Up resets swipe, time and vector; otherwise swipe follows the press rule; the finger injects nothing or its button, nothing when tap buttons are off; a stick request needs a press and a swipe |
| Touch.SwipeLatches | Assets/clLibrary/clController/Controller.cs:1222-1224 | a swiping finger keeps swiping while held |
| Touch.ClickNeedsNoSwipe | Assets/clLibrary/clController/Controller.cs:1242-1253 | in Click mode the button is injected exactly on a release that never swiped |
| Touch.PressModeFollowsPress | Assets/clLibrary/clController/Controller.cs:1205-1215 | in Press mode the button is injected exactly while pressed |
| Touch.SwipeStarts | Assets/clLibrary/clController/Controller.cs:1190-1224 | on the Down tick a swipe starts iff the zero vector exceeds SwipeDead, that is, iff SwipeDead is negative |
| TouchInput.Unlocked | Assets/clLibrary/clController/Controller.cs:1130-1155 | the kept touches are touches whose finger is not locked |
| TouchInput.UnlockedAppend | Assets/clLibrary/clController/Controller.cs:1130-1155 | the filter distributes over concatenation |
| TouchInput.UnlockedComplete | Assets/clLibrary/clController/Controller.cs:1130-1155 | every touch of an unlocked finger is kept |
| TouchInput.ReadTouches | Assets/clLibrary/clController/Controller.cs:1127-1155 | slot k takes the k-th unlocked touch (position and phase flags) while there are at most three; other slots keep their position and get no flags |
| TouchInput.UnlockedPrefix | Assets/clLibrary/clController/Controller.cs:1130-1155 | the filter of a prefix is a prefix of the filter |
| TouchInput.ReadMouse | Assets/clLibrary/clController/Controller.cs:1162-1177 | every slot takes the mouse position and its mouse button's state; TouchedDown is the OR of the Down flags |
| TouchInput.TouchedAny | Assets/clLibrary/clController/Controller.cs:1178-1182 | TouchedPress (TouchedUp) iff some slot is pressed (released) |
| TouchInput.TouchedIffUnlocked | Assets/clLibrary/clController/Controller.cs:1127-1182 | with touches present, TouchedPress holds iff some touch's finger is unlocked |
| TouchInput.InjectOnly | Assets/clLibrary/clController/Controller.cs:1185-1262 | InjectMask over Results: slots injecting only one button give a mask of that button or NONE |
| TouchInput.SwipeStick | Assets/clLibrary/clController/Controller.cs:1235-1240 | the swipe requests of the slots, in slot order, keep the stick keys |
| TouchInput.NoSwipeNoStick | Assets/clLibrary/clController/Controller.cs:1235-1240 | without swipe requests the sticks are untouched |
| TouchInput.StepFingers | Assets/clLibrary/clController/Controller.cs:1185-1262 | each finger becomes its FingerStep; the mask is the OR of the slots' injections; the sticks take every swipe request in slot order |
| Bindings.LocalPos | Assets/clLibrary/clController/Controller.cs:348-360 | Left if flagged, else Right if flagged, else Center |
| Bindings.ButtonOf | Assets/clLibrary/clController/Controller.cs:335-407 | the result is NONE or the binding's button; per key type, exactly when it fires (axis beyond dead zone, key held, joystick usable, keyboard allowed) |
| Bindings.WithComponent | Assets/clLibrary/clController/Controller.cs:365-376 | the axis value replaces x or y; a Z axis leaves the Vector2 unchanged |
| Bindings.StickAfter | Assets/clLibrary/clController/Controller.cs:343-381 | the stick keys are kept, and no stick changes unless an axis binding has a usable joystick |
| Bindings.CombinedBindingReachesOnlyMove | Assets/clLibrary/clController/Controller.cs:378-380 | a Left\|Move binding changes only Move, since SetMost skips the absent combined key |
| Bindings.PlainBindingReachesItsKey | Assets/clLibrary/clController/Controller.cs:378 | a Left or Right binding merges into that key only |
| Bindings.ReverseAndDeadZone | Assets/clLibrary/clController/Controller.cs:346-363 | without calibration the value is the raw one, negated when reversed; a value equal to the dead zone does not fire |
| Bindings.UpdateButton | Assets/clLibrary/clController/Controller.cs:335-407 | the return is ButtonOf and the sticks become StickAfter |
| Bindings.UpdateAxis | Assets/clLibrary/clController/Controller.cs:343-381 | the axis branch, with the same specification |
| Bindings.ResolveDefault | Assets/clLibrary/clController/Controller.cs:1386-1398 | Default resolves to Xinput, Android or Switch, and to Xinput iff no pattern matched |
| Bindings.BuildList | Assets/clLibrary/clController/Controller.cs:1403-1424 | Other gets no bindings; otherwise the templates in source order |
| Bindings.BuildListOrder | Assets/clLibrary/clController/Controller.cs:1403-1424 | user-first bindings come first, user-last bindings last, and the length is the sum of the parts |
| Arrows.AxisOf | Assets/clLibrary/clController/Controller.cs:1273-1278 | +v for plus only, -v for minus only, 0 for both or neither |
| Arrows.MoveArrowVector | Assets/clLibrary/clController/Controller.cs:1270-1279 | ArrowVector for the Move arrows is AxisOf per axis (Up positive when Yreverse); the pair guard is redundant |
| Arrows.RotArrowVector | Assets/clLibrary/clController/Controller.cs:1281-1288 | the same for the Rot arrows |
| Arrows.HeadingOf | Assets/clLibrary/clController/Controller.cs:1294-1300 | every angle sets a heading, and never opposite ones |
| Arrows.HeadingDiagonals | Assets/clLibrary/clController/Controller.cs:1297-1300 | two headings at once only in the overlaps between sectors |
| Arrows.MoveHeadingBits | Assets/clLibrary/clController/Controller.cs:1297-1300 | each Move arrow bit is its sector's heading, Up and Down swapping without Yreverse |
| Arrows.RotHeadingBits | Assets/clLibrary/clController/Controller.cs:1307-1310 | the same for the Rot arrows |
| Arrows.MoveStickArrows | Assets/clLibrary/clController/Controller.cs:1293-1301 | ArrowsFromStick (HeadingMask of the stick's heading): never opposite arrows; at least one beyond the dead zone, none within it |
| Arrows.RotStickArrows | Assets/clLibrary/clController/Controller.cs:1303-1311 | the same for the Rot stick |
| Classify.ButtonFlags | Assets/clLibrary/clController/Controller.cs:1326-1364 | Press is the sample and Delay is the long timer's prior enable; Double iff pressed with double_press; Down implies press and Repeat; Up implies release; Click iff Up; DelayDown implies press; DelayUp implies release |
| Classify.TickFlags | Assets/clLibrary/clController/Controller.cs:1324-1365 | one ButtonFlags per button |
| Classify.Stepped | Assets/clLibrary/clController/Controller.cs:1333-1353 | each timer takes one Check with its button's sample |
| Classify.ClassifiedAt | Assets/clLibrary/clController/Controller.cs:1324-1365 | each mode's mask is the OR of the buttons whose flag for it is set |
| Classify.ModeMaskSet | Assets/clLibrary/clController/Controller.cs:1324-1365 | a set flag puts the button's bit in its mode's mask |
| Classify.ModeMaskOnly | Assets/clLibrary/clController/Controller.cs:1324-1365 | a low button's bit is there only if its own flag is set |
| Classify.LowBit | Assets/clLibrary/clController/Controller.cs:1324-1365 | a low button's bit in a mode's mask equals its flag for that mode |
| Classify.RepeatModeBits | Assets/clLibrary/clController/Controller.cs:1326-1347 | Press iff held; Repeat iff the Repeat timer pulses; Down iff its first; Up and Click iff its last |
| Classify.LongModeBits | Assets/clLibrary/clController/Controller.cs:1348-1364 | Delay iff the LongRepeat timer was enabled before Check; DelayRepeat iff it pulses; DelayDown and DelayUp iff its first and last |
| Classify.DownUpExclusive | Assets/clLibrary/clController/Controller.cs:1337-1347 | Down and Up never both carry a button in one tick |
| Classify.AddIf | Assets/clLibrary/clController/Controller.cs:1330 | `mask \|= b` when the condition holds |
| Classify.CheckTimers | Assets/clLibrary/clController/Controller.cs:1326-1364 | one button's flags and both timers' new states |
| Classify.IncludeButton | Assets/clLibrary/clController/Controller.cs:1328-1364 | the button is ORed into exactly the modes whose flag is set |
| Classify.ClassifyAll | Assets/clLibrary/clController/Controller.cs:1324-1365 | the timer loop leaves the classified masks and every timer Stepped |
| Classify.Judged | Assets/clLibrary/clController/Controller.cs:1315-1321 | one held flag per listed button |
| Classify.JudgedBits | Assets/clLibrary/clController/Controller.cs:1315-1321 | a single-bit button is held iff its bit is in the mask; a high code iff it equals the mask's high byte |
| Classify.JudgeAll | Assets/clLibrary/clController/Controller.cs:1315-1321 | the btnlist loop returns Judged |
| Classify.PressFollowsMask | Assets/clLibrary/clController/Controller.cs:1315-1332 | a low button's Press bit after the tick is its bit in the tick's VirtualButton |
| Classify.SwapLocal | Assets/clLibrary/clController/Controller.cs:1078-1091 | Press, Repeat, Down and Up are swapped; each Delay mask is the swapped non-Delay mask swapped again; the Double and Click masks are kept |
| Classify.ShoulderSwapDelay | Assets/clLibrary/clController/Controller.cs:1367-1371 | after ShoulderSwap (KeySwapLocal of L/ZL, then R/ZR), Press has both pairs swapped while each Delay mask is the non-Delay mask with only L/ZL swapped |
| Classify.GetterMode | Assets/clLibrary/clController/Controller.cs:167-187 | every getter reads a declared mode, and never a Delay mode |
| Classify.DelayGetterIsPress | Assets/clLibrary/clController/Controller.cs:167-187 | the Delay getter reports a low button exactly when it is held |
| Controller.DefaultTapIsClick | Assets/clLibrary/clController/Controller.cs:898-910 | with the default properties the fingers inject A exactly when finger 0 is released without swiping |
| Controller.BindingsStick | Assets/clLibrary/clController/Controller.cs:1265-1266 | the bindings keep the stick keys |
| Controller.BindingFires | Assets/clLibrary/clController/Controller.cs:1265-1266 | every bit of every firing binding is in the ORed mask |
| Controller.ApplyBinding | Assets/clLibrary/clController/Controller.cs:1266 | one pass extends the mask and the sticks by binding i |
| Controller.ApplyBindings | Assets/clLibrary/clController/Controller.cs:1265-1266 | the loop returns the OR of all bindings and applies their stick updates in list order |
| Controller.ArrowRules | Assets/clLibrary/clController/Controller.cs:1267-1312 | the stick keys are kept; VirtualButton only gains bits, none when MoveToArrow is off; the sticks change only when an arrow is held and ArrowToMove is on |
| Controller.Remembered | Assets/clLibrary/clController/Controller.cs:1123-1124 | every finger's before vector becomes its vector, and nothing else changes |
| Controller.FingersAfter | Assets/clLibrary/clController/Controller.cs:1185-1262 | three fingers; unchanged unless some slot is pressed |
| Controller.FingerInput | Assets/clLibrary/clController/Controller.cs:1185-1262 | the stick keys are kept; VirtualButton only gains bits; nothing changes unless some slot is pressed |
| Controller.BindingInput | Assets/clLibrary/clController/Controller.cs:1265-1266 | the stick keys are kept; VirtualButton keeps its bits and gains every firing binding's bits |
| Controller.TickInput | Assets/clLibrary/clController/Controller.cs:1123-1312 | fingers, then bindings in list order, then the arrow rules: the stick keys are kept, and the result keeps every earlier and every binding bit |
| Controller.InjectedIsPressed | Assets/clLibrary/clController/Controller.cs:1103-1106 | a low button injected before the tick is held and has its Press bit (without the shoulder swap) |
| Controller.BitNumber | Assets/clLibrary/clController/Controller.cs:1081-1082 | the shift count is the highest set bit of a positive code |
| Controller.BitNumberOfShoulders | Assets/clLibrary/clController/Controller.cs:1367-1371 | the shoulder codes give 8, 10, 9, 11 |
| Controller.Controller.SetJoystickID | Assets/clLibrary/clController/Controller.cs:1004-1020 | the id is taken only when below the five axis prefixes and at most the joystick-name count; otherwise the old id stays |
| Controller.Controller.constructor | Assets/clLibrary/clController/Controller.cs:1004-1039 | active; default properties; the given joystick id if the JoystickID setter accepts it, else 0; the resolved type and its bindings; nothing held or injected; no lock; fresh timers |
| Controller.Controller.BuildOfType | Assets/clLibrary/clController/Controller.cs:1383-1425 | Default resolves and is remembered as the type; the bindings are the resolved type's list |
| Controller.Controller.SetVirtualButton | Assets/clLibrary/clController/Controller.cs:1103-1106 | the button is ORed in, keeping every old bit; NONE changes nothing |
| Controller.Controller.SetFingerLock | Assets/clLibrary/clController/Controller.cs:1093-1096 | the finger joins the lock set |
| Controller.Controller.SetFingerUnLock | Assets/clLibrary/clController/Controller.cs:1097-1100 | the finger leaves the lock set |
| Controller.Controller.KeySwapLocal | Assets/clLibrary/clController/Controller.cs:1078-1091 | the masks become SwapLocal at the two codes' bit numbers |
| Controller.Controller.Clear | Assets/clLibrary/clController/Controller.cs:1111-1120 | every output is at rest; timers, VirtualButton and fingers are unchanged |
| Controller.Controller.ReadSlots | Assets/clLibrary/clController/Controller.cs:1127-1177 | the touch branch when touches exist, else the mouse branch unless finger -1 is locked, else nothing |
| Controller.Controller.Remember | Assets/clLibrary/clController/Controller.cs:1123-1124 | the before positions and vectors are last tick's |
| Controller.Controller.Summarise | Assets/clLibrary/clController/Controller.cs:1178-1182 | TouchedPress and TouchedUp are the ORs over the slots |
| Controller.Controller.ReadStage | Assets/clLibrary/clController/Controller.cs:1123-1182 | remembered values, read slots and their summary |
| Controller.Controller.FingerStage | Assets/clLibrary/clController/Controller.cs:1185-1262 | the fingers become FingersAfter and VirtualButton with the sticks become FingerInput of the state before the stage |
| Controller.Controller.BindingStage | Assets/clLibrary/clController/Controller.cs:1265-1266 | VirtualButton with the sticks become BindingInput of the state before the stage |
| Controller.Controller.MoveToArrow | Assets/clLibrary/clController/Controller.cs:1290-1312 | VirtualButton gains the arrows of the Move and Rot headings when enabled |
| Controller.Controller.ArrowToMove | Assets/clLibrary/clController/Controller.cs:1267-1289 | Move and Rot become SetCurcler of themselves with the arrow vectors |
| Controller.Controller.ArrowStage | Assets/clLibrary/clController/Controller.cs:1267-1312 | VirtualButton and the sticks become ArrowRules of the state before the stage |
| Controller.Controller.JudgeStage | Assets/clLibrary/clController/Controller.cs:1315-1321 | btnlist judges VirtualButton |
| Controller.Controller.ClassifyStage | Assets/clLibrary/clController/Controller.cs:1324-1365 | timers stepped, masks classified |
| Controller.Controller.ShoulderStage | Assets/clLibrary/clController/Controller.cs:1367-1371 | the masks are shoulder-swapped iff ButtonZLR_Reverse |
| Controller.Controller.InputStage | Assets/clLibrary/clController/Controller.cs:1123-1312 | the fingers become FingersAfter of the remembered fingers, and VirtualButton with the sticks become TickInput of the state before the tick and the slots it read |
| Controller.Controller.Finish | Assets/clLibrary/clController/Controller.cs:1372-1373 | Rot is scaled by RotReverseComp and VirtualButton is reset |
| Controller.Controller.OutputStage | Assets/clLibrary/clController/Controller.cs:1315-1373 | the judgement of the tick's VirtualButton; Rot is scaled by RotReverseComp and nothing else in the stick changes |
| Controller.Controller.ActiveTick | Assets/clLibrary/clController/Controller.cs:1123-1373 | the judged mask keeps the injected and binding bits, and the timers and masks follow from it |
| Controller.Controller.ControllerUpdate | Assets/clLibrary/clController/Controller.cs:1108-1380 | inactive: outputs at rest, nothing else changed; active: the judged mask keeps every injected and binding bit, timers stepped, masks classified, VirtualButton reset |
| VirtualButton.Emission | Assets/clLibrary/clController/VirtualButton.cs:163-177 | nothing iff released and unlocked; the button with its lock iff pressed without the click latch; NONE otherwise |
| VirtualButton.Downs | Assets/clLibrary/clController/VirtualButton.cs:82-93 | at most one Down per event |
| VirtualButton.ToggleParity | Assets/clLibrary/clController/VirtualButton.cs:82-108 | in Toggle mode, over any Run of the handlers' Steps, PressFlag flips once per Down |
| VirtualButton.ToggleTwoCycles | Assets/clLibrary/clController/VirtualButton.cs:82-108 | two Toggle cycles restore PressFlag |
| VirtualButton.ToggleCycleFlips | Assets/clLibrary/clController/VirtualButton.cs:82-108 | one Toggle cycle flips PressFlag and releases the lock |
| VirtualButton.ClickLatchOnlyInClickMode | Assets/clLibrary/clController/VirtualButton.cs:82-142 | outside Click mode the click latch stays clear |
| VirtualButton.ClickModeNeverHolds | Assets/clLibrary/clController/VirtualButton.cs:82-177 | in Click mode pressing implies the latch, so Update never injects the button itself |
| VirtualButton.NormalPressAndRelease | Assets/clLibrary/clController/VirtualButton.cs:82-108 | a press injects the button with the lock; in Normal mode a release leaves nothing |
| VirtualButton.VirtualButton.constructor | Assets/clLibrary/clController/VirtualButton.cs:19 | all three flags start false |
| VirtualButton.VirtualButton.OnDown | Assets/clLibrary/clController/VirtualButton.cs:82-93 | PressFlag flips, the lock is set, and Click mode latches |
| VirtualButton.VirtualButton.OnUp | Assets/clLibrary/clController/VirtualButton.cs:95-108 | the lock is released; outside Toggle the press and latch are too |
| VirtualButton.VirtualButton.OnEnter | Assets/clLibrary/clController/VirtualButton.cs:110-119 | in Click mode with the latch the button is pressed again |
| VirtualButton.VirtualButton.OnExit | Assets/clLibrary/clController/VirtualButton.cs:121-130 | in Click mode with the latch the button is released |
| VirtualButton.VirtualButton.OnClick | Assets/clLibrary/clController/VirtualButton.cs:132-142 | in Click mode the button is ORed into the controller and PressFlag is cleared; otherwise nothing changes |
| VirtualButton.VirtualButton.Update | Assets/clLibrary/clController/VirtualButton.cs:163-177 | the injection is Emission of the flags, present iff pressed or locked |
| FollowCamera.NormalBound | Assets/clLibrary/clController/FollowCamera.cs:204-205 | a negative bound becomes its angle in [0, 360); others are kept |
| FollowCamera.Limited | Assets/clLibrary/clController/FollowCamera.cs:206-224 | ordered bounds clamp; inverted bounds keep the value out of the gap; the result is the value or a bound |
| FollowCamera.LimitedKeepsAllowed | Assets/clLibrary/clController/FollowCamera.cs:206-224 | the value is kept iff it is allowed |
| FollowCamera.LimitedIdempotent | Assets/clLibrary/clController/FollowCamera.cs:206-224 | limiting twice is limiting once |
| FollowCamera.LimitedSnapsToNearer | Assets/clLibrary/clController/FollowCamera.cs:206-219 | a gap value snaps to the nearer bound, to max on a tie |
| FollowCamera.NormalBoundIdempotent | Assets/clLibrary/clController/FollowCamera.cs:204-205 | normalising again changes nothing |
| FollowCamera.SeeLimit | Assets/clLibrary/clController/FollowCamera.cs:201-226 | both bounds zero: no limit; else the bounds are normalised and written back and the value is limited |
| FollowCamera.CappedDistance | Assets/clLibrary/clController/FollowCamera.cs:75-83 | the cap wins over the floor; ordered bounds give a result in range; the value is kept iff it is in range |
| FollowCamera.CappedDistanceIdempotent | Assets/clLibrary/clController/FollowCamera.cs:75-83 | with ordered bounds storing the stored distance again changes nothing |
| FollowCamera.CappedDistanceInverted | Assets/clLibrary/clController/FollowCamera.cs:75-83 | with inverted bounds the setter is not idempotent |
| FollowCamera.FollowCamera.constructor | Assets/clLibrary/clController/FollowCamera.cs:54-58 | distance 10, MaxDistance 20, MinDistance 3 |
| FollowCamera.FollowCamera.SetDistance | Assets/clLibrary/clController/FollowCamera.cs:75-83 | the stored distance is capped, and DoUpdate says whether it changed |

## Left out

- Floats are `real`. IEEE rounding, NaN and infinities are not modelled.
- `Mathf.Pow(10, minpow)` in AbsCompFloor is a given positive constant.
- `magnitude`, `normalized`, `Atan2` and `ToAbsDeg` are unknown functions of the `Geometry` value, so VecComp.ConvMag, VecComp.SetCurcler and the arrow headings are stated relative to them.
- `Time.deltaTime`, `Input.*` (keys, axes, touches, mouse) and the joystick names are inputs carried by the `Frame` value and by the tick's parameters.
- The regular-expression auto-detection of BuildOfType is replaced by its two outcomes, passed in as booleans.
- The template tables of `ConTempSet` are an abstract `Catalog` of binding lists; the individual template entries are not modelled.
- The controller-event dispatch (Controller.cs:1375-1379), `clEvents` and the UnityEvent callbacks are not modelled.
- The pinch `Scroll` value (Controller.cs:1156-1160) and the mouse scroll wheel are not modelled.
- `TouchesDouble` is only ever cleared, so it is not modelled. The `SwipeToMove` property is never read.
- `Controller.Yreverse` is a static in the source; the model keeps it as a field of the controller.
- The dictionaries keyed by ButtonType (`btnlist`, `Repeat`, `LongRepeat`) are sequences indexed in the order of ButtonList.
- The `Button` dictionary is the `Masks` record and has no entry for `ModeNone`, which the source only ever clears.
- Controller.Controller.ActiveTick: states the judged VirtualButton only as covering the injected and the bound bits, together with TickJudged; the exact composition is TickInput on InputStage and the Rot scaling is on OutputStage. Relaying both exactly across the judging half exceeds the verifier's resource limit.
- Controller.Controller.ControllerUpdate: for an active tick, the same weaker statement as ActiveTick, for the same reason.
- The `JoystickName` string the JoystickID setter maintains is not modelled.
- Controller.Controller.KeySwapLocal: requires positive codes below 2^31. For zero or negative ints, `Math.Log` yields NaN or negative infinity, and that path is not modelled.
- VirtualButton.VirtualButton.Update: the two-argument `SetVirtualButton(button, lock)` overload it calls is not part of this model. Update therefore returns its decision as an `Injection` value.
- VirtualButton's `_onExit` trigger entry is built but never added to the triggers (VirtualButton.cs:61-63). The model keeps the handler as written.
- UpdateDisplay, SetUp and the sprite and colour handling of VirtualButton are not modelled.
- FollowCamera's `SeeLimit()` wrapper over `EulerAngle` is left out, and so are the `Distance` getter (0 without a follow target) and the camera motion.
- String output (`ResultButton`, the button-name dictionaries) and the editor UI are not modelled.
- ControllerMaster.cs, ControllerPlayer.cs, FollowController.cs, MainController.cs, Master.cs, RigidPlayerController.cs and TemplateVirtualButton.cs are not part of this model.

# Arm-form classifier of the camera screen, in Dafny

The camera screen of BeepBloopBoop shows a live feed. A pose estimator
delivers body landmarks for it, one frame at a time. For each frame,
`updateOverlays(pts:size:)` does the following:

- It picks the shoulder, elbow and wrist landmarks (indices 11 to 16). Handedness decides which arm is the dominant (playing) one.
- It gives up on the frame if there are fewer than 17 landmarks.
- It also gives up if either shoulder, the dominant elbow or the dominant wrist is seen with a visibility below 0.6. A missing visibility counts as 1.
- Otherwise it measures four angles:
  - the dominant elbow `C` and the dominant shoulder `D`;
  - the non-dominant shoulder `ndD` and the non-dominant elbow `ndC`.
- Each shoulder angle gets a sign from a comparison of slopes.
- It then sets four overlay dots. Each dot sits at the landmark's mirrored screen position and carries a good/bad flag from fixed degree ranges:
  - the non-dominant elbow's range depends on `ndC + C`;
  - the two shoulder ranges trade places with handedness.

The model has four modules:

- `PoseTypes` (`pose_types.dfy`) holds the landmark record `PosePoint` and Swift's `Optional`.
- `PoseGeometry` (`pose_geometry.dfy`) holds the nested helpers of `updateOverlays`: `vis`, `screen`, `vec`, `dot`, `mag` and `angleDeg`. It also holds the floating-point outcome of the slope divisions (`Slope`, with plus and minus infinity and NaN) and the two comparisons `<` and `>=` on those slopes.
- `CameraPose` (`camera_pose_view.dfy`) holds the classifier.
  - The functions `Select`, `PassesGate`, `MeasureAngles`, `Classify` and `Assess` state what one frame decides.
  - The class `CameraPoseView` holds the screen's state: `isLeftyMode` and the four optional dots.
  - `ToggleHandedness` is the handedness button.
  - `UpdateOverlays` is the imperative procedure. It has the same early returns and the same order of assignments as the source, and its contract ties the new dots to `Assess`.
- `FormScenarios` (`form_scenarios.dfy`) works concrete frames through the classifier:
  - the 400 x 800 frame with both arms hanging straight down;
  - a frame where every dot is good;
  - the same hanging frame played left-handed;
  - a wrist below the visibility threshold;
  - a session on a new screen.

`sqrt` and `acos` are a parameter of type `Libm`. The predicate `Lawful` states what the model relies on:

- `sqrt` gives the non-negative root;
- `acos` maps [-1, 1] into [0, pi];
- `acos` is exact at -1, 0 and 1.

Every angle result is proved under `Lawful`. `Pi` is the exact value of Swift's `Double.pi`.

Four places where the code does something other than what one might
expect; the model follows the code:

- **Stale dots.** One might expect a rejected frame to clear the previous dots. The code returns early (BeepBloopBoop/CameraPoseView.swift:128 and :155) and keeps them. `UpdateOverlays` states that the dots are `unchanged`, and `Session` shows a short frame leaving the previous dots on screen.
- **Vertical pairs.** The code does not guard the slope divisions (BeepBloopBoop/CameraPoseView.swift:179-180 and :208-209). One might expect a vertical pair to give an undefined slope. In double arithmetic `dy / 0` is plus or minus infinity when `dy` is non-zero, and NaN only for `0 / 0`. `SlopeOf` models exactly that, and `ShoulderFlipsVerticalArm` and `NdShoulderFlipsVerticalArm` state the consequence.
- **Sign of `D` near the vertical.** Away from vertical pairs, `ShoulderFlipsCross` shows that the flip depends on the sign of the product of the two runs `dx1 * dx2`, not only on the geometry of the angle. So `D` changes sign as the dominant elbow crosses the vertical below its shoulder. With level shoulders, `ShoulderFlipsLevelShoulders` shows that `D` flips exactly when the elbow lies at a smaller x than the shoulder. `ShoulderFlipsAcrossVertical` works through a case with the other shoulder to the right. An elbow a hundredth to the left, on the far side, gives `D` of about -90. On the vertical and a hundredth to the right, on the near side, it gives about +90. This is an observation about the source, which was not executed; the model reproduces it.
- **Order of evaluation.** One might compute all angles first and then all flags. The code interleaves them, and the non-dominant elbow's flag waits for `C`. `Classify` is the two-stage form and `UpdateOverlays` is the interleaved one, and the contract of `UpdateOverlays` proves the two agree.

## Model

| member | source | states |
|---|---|---|
| PoseGeometry.Vis | BeepBloopBoop/CameraPoseView.swift:154 | `vis`: the landmark's visibility, or 1 when it is missing |
| PoseGeometry.Screen | BeepBloopBoop/CameraPoseView.swift:158-161 | `screen`: x mirrored as `W - x*W`, y scaled as `y*H` |
| PoseGeometry.Vector | BeepBloopBoop/CameraPoseView.swift:164 | `vec(a, b)`: the componentwise difference `a - b` |
| PoseGeometry.Dot | BeepBloopBoop/CameraPoseView.swift:165 | `dot`: the scalar product of two vectors |
| PoseGeometry.Mag | BeepBloopBoop/CameraPoseView.swift:166 | `mag`: the library `sqrt` of the squared length |
| PoseGeometry.AngleDeg | BeepBloopBoop/CameraPoseView.swift:167-172 | `angleDeg`: 0 when the product of the lengths is 0, otherwise `acos` of the clamped cosine in degrees |
| PoseGeometry.SlopeOf | BeepBloopBoop/CameraPoseView.swift:179-180 | the double result of `dy / dx`: the quotient, or plus or minus infinity, or NaN for 0 / 0 |
| PoseGeometry.Less | BeepBloopBoop/CameraPoseView.swift:208-210 | the double comparison `<` on slopes, false whenever a side is NaN |
| PoseGeometry.AtLeast | BeepBloopBoop/CameraPoseView.swift:179-181 | the double comparison `>=` on slopes, false whenever a side is NaN |
| CameraPose.Select | BeepBloopBoop/CameraPoseView.swift:138-152 | the six arm landmarks: indices 11 to 16 in order left-handed, each left/right pair swapped right-handed |
| CameraPose.PassesGate | BeepBloopBoop/CameraPoseView.swift:154-155 | both shoulders, the dominant elbow and the dominant wrist have `vis >= 0.6` |
| CameraPose.NdShoulderAngle | BeepBloopBoop/CameraPoseView.swift:175-181 | `ndD`: the angle between `rs - ls` and `ls - le`, negated when the elbow slope is at least the shoulder slope |
| CameraPose.ElbowAngle | BeepBloopBoop/CameraPoseView.swift:190-199 | `ndC` and `C`: the angle between wrist-minus-elbow and shoulder-minus-elbow |
| CameraPose.ShoulderAngle | BeepBloopBoop/CameraPoseView.swift:205-210 | `D`: the angle between `ls - rs` and `rs - re`, negated when the elbow slope is below the shoulder slope |
| CameraPose.Shoulder2Good | BeepBloopBoop/CameraPoseView.swift:184-186 | `ndD` in [-31.3, 16.7] left-handed, in [-10, 30] right-handed |
| CameraPose.ElbowGood | BeepBloopBoop/CameraPoseView.swift:201 | `C` in [35, 98.1] |
| CameraPose.ShoulderGood | BeepBloopBoop/CameraPoseView.swift:213-215 | `D` in [-10, 30] left-handed, in [-31.3, 16.7] right-handed |
| CameraPose.Elbow2Good | BeepBloopBoop/CameraPoseView.swift:219 | `ndC` in [90, 180] and `ndC + C` in [120, 240] |
| CameraPose.Classify | BeepBloopBoop/CameraPoseView.swift:174-220 | the four dots of an accepted frame: each at the screen position of its landmark, flagged by its range on the measured angles |
| CameraPose.Assess | BeepBloopBoop/CameraPoseView.swift:127-221 | no dots for a short frame or one failing the gate, otherwise the classification of the selected arm |
| PoseGeometry.Clamp | BeepBloopBoop/CameraPoseView.swift:170 | the clamped cosine lies in [-1, 1]; it is the input itself inside that interval and the nearer end outside it |
| PoseGeometry.MagSquare | BeepBloopBoop/CameraPoseView.swift:166 | `mag` is non-negative and its square is `dot(u, u)` |
| PoseGeometry.MagUnique | BeepBloopBoop/CameraPoseView.swift:166 | `mag` is the only non-negative root of the squared length |
| PoseGeometry.MagZeroIff | BeepBloopBoop/CameraPoseView.swift:166 | a length is zero exactly for the zero vector |
| PoseGeometry.MagPositive | BeepBloopBoop/CameraPoseView.swift:166 | a non-zero vector has a positive length |
| PoseGeometry.MagScale | BeepBloopBoop/CameraPoseView.swift:164-166 | scaling a vector by k scales its length by abs(k) |
| PoseGeometry.DegenerateIff | BeepBloopBoop/CameraPoseView.swift:168-169 | `denom == 0` holds exactly when one of the two vectors is zero |
| PoseGeometry.AngleDegDegenerate | BeepBloopBoop/CameraPoseView.swift:168-169 | a zero vector on either side gives the angle 0 |
| PoseGeometry.AngleDegSymmetric | BeepBloopBoop/CameraPoseView.swift:167-172 | `angleDeg(u, v) == angleDeg(v, u)` for all vectors |
| PoseGeometry.AngleDegBounds | BeepBloopBoop/CameraPoseView.swift:167-172 | every angle lies in [0, 180] degrees |
| PoseGeometry.DotSquareBound | BeepBloopBoop/CameraPoseView.swift:165 | Lagrange's identity in the plane: dot(u,v)^2 <= dot(u,u) dot(v,v) |
| PoseGeometry.CosineWithinUnit | BeepBloopBoop/CameraPoseView.swift:170 | given the lengths and the Cauchy-Schwarz bound, `dot(u, v) / denom` lies in [-1, 1] |
| PoseGeometry.ClampInactive | BeepBloopBoop/CameraPoseView.swift:168-170 | for two non-zero vectors the cosine already lies in [-1, 1], so the clamp returns it unchanged |
| PoseGeometry.ScaledCosine | BeepBloopBoop/CameraPoseView.swift:168-170 | a vector and a non-zero multiple k of it have cosine 1 for k > 0 and -1 for k < 0 |
| PoseGeometry.AngleDegParallel | BeepBloopBoop/CameraPoseView.swift:167-172 | two vectors pointing the same way make 0 degrees |
| PoseGeometry.AngleDegOpposite | BeepBloopBoop/CameraPoseView.swift:167-172 | two vectors pointing opposite ways make 180 degrees |
| PoseGeometry.AngleDegPerpendicular | BeepBloopBoop/CameraPoseView.swift:167-172 | two non-zero perpendicular vectors make 90 degrees |
| PoseGeometry.ScreenInViewport | BeepBloopBoop/CameraPoseView.swift:158-161 | a landmark in the unit square lands inside the viewport; x is mirrored, so screen x plus scaled x is the width |
| PoseGeometry.ScreenMirrorInjective | BeepBloopBoop/CameraPoseView.swift:158-161 | on a viewport of non-zero width, two landmarks share a screen x exactly when they share x |
| PoseGeometry.SlopeOrder | BeepBloopBoop/CameraPoseView.swift:179-181 | with a NaN slope both `<` and `>=` are false; otherwise `>=` is the negation of `<`, and `<` is asymmetric |
| PoseGeometry.SlopeLessIffCross | BeepBloopBoop/CameraPoseView.swift:208-210 | for non-zero runs the slope comparison `<` is the sign of a cross product, free of division |
| CameraPose.CameraPoseView.constructor | BeepBloopBoop/CameraPoseView.swift:6-13 | a new screen is right-handed and shows no dots |
| CameraPose.CameraPoseView.ToggleHandedness | BeepBloopBoop/CameraPoseView.swift:55 | the button negates `isLeftyMode` and changes nothing else |
| CameraPose.CameraPoseView.UpdateOverlays | BeepBloopBoop/CameraPoseView.swift:127-221 | a frame of at most 16 landmarks or one failing the gate leaves all four dots as they were; otherwise each dot becomes the classification of the selected arm |
| CameraPose.CameraPoseView.SetShoulder2 | BeepBloopBoop/CameraPoseView.swift:174-187 | the non-dominant shoulder dot sits at the screen position of `ls`; its flag tests the signed `ndD` against the handedness range |
| CameraPose.CameraPoseView.SetElbow | BeepBloopBoop/CameraPoseView.swift:196-202 | the dominant elbow dot sits at `re` with flag `35 <= C <= 98.1`, and `C` is handed on to the non-dominant elbow |
| CameraPose.CameraPoseView.SetShoulder | BeepBloopBoop/CameraPoseView.swift:204-216 | the dominant shoulder dot sits at `rs`; its flag tests the signed `D` against the handedness range |
| CameraPose.SwappedInvolutive | BeepBloopBoop/CameraPoseView.swift:138-152 | swapping the arms twice is the identity; one swap changes the roles exactly when some left/right pair differs |
| CameraPose.SelectPairs | BeepBloopBoop/CameraPoseView.swift:138-152 | whatever the handedness, the shoulders are landmarks 11 and 12, the elbows 13 and 14 and the wrists 15 and 16 |
| CameraPose.SelectToggle | BeepBloopBoop/CameraPoseView.swift:138-152 | selecting with the other handedness gives the same landmarks with the two arms swapped |
| CameraPose.GateIndices | BeepBloopBoop/CameraPoseView.swift:154-155 | the gate passes exactly when landmarks 11 and 12 and the dominant elbow and wrist (13 and 15 left-handed, 14 and 16 right-handed) have visibility >= 0.6, missing counting as 1 |
| CameraPose.GateIgnoresNonDominantArm | BeepBloopBoop/CameraPoseView.swift:155 | the non-dominant elbow and wrist never affect the gate |
| CameraPose.AssessNoneIff | BeepBloopBoop/CameraPoseView.swift:128-155 | a frame produces no dots exactly when it has at most 16 landmarks or a gated landmark is below 0.6 |
| CameraPose.AssessGated | BeepBloopBoop/CameraPoseView.swift:128-155 | a frame past both guards is assessed as the classification of its selected arm |
| CameraPose.DotPlacement | BeepBloopBoop/CameraPoseView.swift:138-212 | the dominant shoulder and elbow dots are at landmarks 12 and 14 right-handed (11 and 13 left-handed) and the others at the remaining pair, each mapped by `screen` |
| CameraPose.TogglePlacement | BeepBloopBoop/CameraPoseView.swift:138-212 | toggling handedness swaps the positions of the dominant and the non-dominant dots |
| CameraPose.WithinIff | BeepBloopBoop/CameraPoseView.swift:185-186 | each negated "below lo or above hi" test is membership of the closed interval [lo, hi] |
| CameraPose.FlagsIff | BeepBloopBoop/CameraPoseView.swift:184-219 | the four flags as closed intervals on the four angles, the shoulder ranges chosen by handedness and the non-dominant elbow needing both `ndC` in [90, 180] and `ndC + C` in [120, 240] |
| CameraPose.ShoulderRangesSwap | BeepBloopBoop/CameraPoseView.swift:184-186 | the non-dominant shoulder range is the dominant range of the other handedness |
| CameraPose.ElbowBoundaries | BeepBloopBoop/CameraPoseView.swift:201 | 35 and 98.1 pass the dominant elbow test; 34.99 and 98.11 fail it |
| CameraPose.Elbow2NeedsSum | BeepBloopBoop/CameraPoseView.swift:219 | `ndC = 150` with `C = 100` fails although 150 is in [90, 180]; with `C = 60` it passes |
| CameraPose.Elbow2FailsForStraightArm | BeepBloopBoop/CameraPoseView.swift:219 | a dominant elbow above 150 degrees always fails the non-dominant elbow |
| CameraPose.AngleRanges | BeepBloopBoop/CameraPoseView.swift:177-206 | both elbow angles lie in [0, 180] and both signed shoulder angles in [-180, 180] |
| CameraPose.ShoulderFlipsVerticalArm | BeepBloopBoop/CameraPoseView.swift:208-210 | with a vertical dominant upper arm and a non-vertical shoulder line, `D` flips exactly when the elbow is above the shoulder |
| CameraPose.NdShoulderFlipsVerticalArm | BeepBloopBoop/CameraPoseView.swift:179-181 | with a vertical non-dominant upper arm, `ndD` flips exactly when the elbow is below the shoulder |
| CameraPose.ShoulderFlipsCross | BeepBloopBoop/CameraPoseView.swift:208-210 | with no vertical pair, the `D` flip is a cross-product sign test |
| CameraPose.ShoulderFlipsLevelShoulders | BeepBloopBoop/CameraPoseView.swift:208-210 | with level shoulders and the elbow below the shoulder, `D` flips exactly when the elbow lies at a smaller x than the shoulder |
| CameraPose.ShoulderFlipsAcrossVertical | BeepBloopBoop/CameraPoseView.swift:208-210 | an elbow a hundredth left of the vertical flips `D`; on the vertical or a hundredth right it does not |
| CameraPose.NdShoulderFlipsCross | BeepBloopBoop/CameraPoseView.swift:179-181 | with no vertical pair, the `ndD` flip is the complement of the same cross-product test |
| FormScenarios.HangingShoulderLines | BeepBloopBoop/CameraPoseView.swift:175-177 | in the hanging frame each shoulder line meets its upper arm at 90 degrees |
| FormScenarios.HangingElbows | BeepBloopBoop/CameraPoseView.swift:189-199 | in the hanging frame both elbows measure 180 degrees |
| FormScenarios.HangingAngles | BeepBloopBoop/CameraPoseView.swift:174-210 | right-handed, the hanging frame measures ndD = -90, ndC = 180, C = 180, D = 90 |
| FormScenarios.HangingAssessment | BeepBloopBoop/CameraPoseView.swift:127-221 | on 400 x 800 the hanging frame gives four bad dots at (160, 240), (160, 400), (240, 400) and (240, 240) |
| FormScenarios.LeftyHangingAssessment | BeepBloopBoop/CameraPoseView.swift:127-221 | played left-handed, the same frame gives four bad dots with the dominant and non-dominant positions exchanged |
| FormScenarios.BentAngles | BeepBloopBoop/CameraPoseView.swift:174-210 | arms level with bent forearms measure ndD = 0, ndC = 90, C = 90, D = 0 |
| FormScenarios.BentAssessment | BeepBloopBoop/CameraPoseView.swift:127-221 | that frame gives four good dots |
| FormScenarios.WristVisibility | BeepBloopBoop/CameraPoseView.swift:154-155 | a dominant wrist at visibility 0.5 rejects the frame; a non-dominant wrist at 0.5 does not |
| FormScenarios.Session | BeepBloopBoop/CameraPoseView.swift:55-221 | on a new screen the dots follow a good frame; a short frame keeps them; after the toggle the hanging frame replaces them with four bad dots |

## Left out

- Floating-point rounding: coordinates and angles are reals. The clamp in `angleDeg` matters only under rounding, and `ClampInactive` shows that it never changes the cosine over the reals.
- `sqrt` and `acos` are a parameter (`Libm`) constrained by `Lawful`, not definitions. Results beyond the exact values at -1, 0 and 1 and the range [0, pi] are not modelled.
- Negative zero: a run `a.x - b.x` of zero is taken to be +0, which is what subtracting equal doubles gives. The sign of a zero that reaches the flipped angle (`-0` versus `0`) is not modelled.
- `CGFloat` conversions are the identity, as on 64-bit platforms.
- The visibility gate's `allSatisfy` closure is the predicate `AllVisible`.
- `UpdateOverlays` delegates its three flag sections to `SetShoulder2`, `SetElbow` and `SetShoulder`. These run the same statements in the same order as the source.
- `openProb` and the probability label, `isPoseReady` and the loading text, the `body` layout, `DotView`'s colours and `makePoseURL` are display and transport code, outside the classifier.
- The pose estimator, the web view and its message channel deliver the landmarks. They are outside the model, and the frame and viewport arrive as parameters.
- The dismiss button is outside the model too.
- SwiftUI's `@State` re-rendering is not modelled, and neither is the main-thread delivery of frames.

# Tag platformer: a verified model of the game rules

This project models the rules of a browser game of tag on platforms. Players run, jump and use one
skill each: dash, teleport or double jump. One player is "it" and passes the role on by touching
another player. Computer-controlled players ("bots") come in three difficulties.

The model covers:

- **the player** (`Actors`, `Movement`, `Collision`): the constructor's skill flags and the
  per-tick integrator `update`:
  - skill key, horizontal input and damping, gravity;
  - the jump on the press edge of `up`;
  - the pass over the platforms with the rotated-frame collision test and its response;
  - the view clamps;
- **the skills** (`DashSkill`, `TeleportSkill`, `DoubleJumpSkill`): each is guarded by its own
  cooldown;
- **the platforms** (`Platforms`): the level's data and its visibility test against the camera;
- **the three bots** (`EasyBotEngine`, `MediumBotEngine`, `HardBotEngine`, with their shared
  parts in `BotKit`): each has its timers, its memories of the target, its strategy choice, its
  steering, jump and dash rules, and its stuck detection;
- **the game** (`Match`):
  - tag detection over all pairs (`checkCollisions`), with one shared immunity window;
  - the camera's easing;
  - the player list `init` builds, with exactly one player "it";
  - the choice of the target each bot chases or flees.

**Modelling choices**

- **Classes.** Objects whose fields the source updates in place are Dafny classes:
  - `Player`, `EasyBot`, `MediumBot`, `HardBot`, `Game`;
  - their methods are proved equal to pure specification functions of the old state, such as
    `DashSpec`, `Tick`, `EasyTick`, `MediumTick`, `HardTick` and `CheckCollisionsSpec`;
  - lemmas about those functions state what the game promises.
- **Clocks and randomness as parameters.** `Date.now()` is a parameter `now`: one reading per
  modelled call. `Math.random()` is an explicit draw:
  - a stream `rand` for the teleport;
  - a record with one field per call site for the easy and medium bots;
  - a single `toggle` for the hard bot.
- **Maths as parameters.** `Math.sqrt`, `Math.cos`, `Math.sin` and `Math.PI` arrive as a `MathLib`
  record. Lemmas that need the square root to be lawful say so with `SqrtLawful`.
- **Numbers.** Coordinates and speeds are `real`; times are `int` milliseconds.

**Observation: the hard bot's path finding.** `lineIntersectsRectangle` (hardBot.js:463-481)
reports a hit for every segment that is not wholly beyond one side of the rectangle. Every
platform corner lies on its own platform's rectangle. So on platforms of non-negative size no
corner is ever reachable, and `findBestPath` yields only the goal or nothing. This is
`CornersUnreachable` and `BestPathIsAtMostTheGoal`. The model keeps that behaviour.

## Model

| member | source | states |
|---|---|---|
| Common.DistBelow | hardBot.js:414-418 | under a lawful square root, a threshold `distance < t` is the squared comparison `dx² + dy² < t²` |
| Common.DistAbove | hardBot.js:414-418 | under a lawful square root, a threshold `t < distance` is `t² < dx² + dy²` |
| Common.DistOrder | hardBot.js:431-437 | distances compare exactly as their squares, so sorting by distance is sorting by squared distance |
| Platforms.IsVisible | platform.js:10-19 | definition of `isVisible`; characterised by `VisibleIffPaddedOverlap`, `OffscreenNotVisible` and `VisibilityIgnoresAngle` |
| Platforms.ConstructorDefaults | platform.js:2-8 | a platform built without an angle lies flat and keeps its corner and size as given |
| Platforms.OpenIntervalsMeetIff | platform.js:13-18 | the four strict comparisons of the visibility test hold exactly when the two open intervals share a point |
| Platforms.VisibleIffPaddedOverlap | platform.js:10-19 | for a viewport of positive size, a platform is visible exactly when its box and the viewport widened by 100 on every side share an interior point |
| Platforms.OffscreenNotVisible | platform.js:13-18 | a platform wholly left or wholly right of the padded viewport is not visible |
| Platforms.VisibilityIgnoresAngle | platform.js:10-19 | rotation never changes visibility |
| Actors.AbilitiesFor | player.js:29-37 | the double-jump skill, and only it, allows two jumps; each skill flag is set exactly for its skill; no player can both dash and teleport |
| Actors.Player.constructor | player.js:17-44 | a new player stands at its spawn with zero velocity, airborne, not "it", has used no jumps, has never used a skill, and has the profile of its skill |
| Collision.LocalX | player.js:205-212 | definition: the prospective corner rotated by minus the platform angle about its centre; `FlatFrameIsIdentity` states the flat case |
| Collision.WouldCollideWith | player.js:204-220 | definition of `wouldCollideWith`; `FlatCollisionIsBoxOverlap` states that on a flat platform it is strict box overlap |
| Collision.OverlapX | player.js:232-235 | definition of the signed X penetration; its effect is stated by `FlatSideHit` |
| Collision.OverlapY | player.js:236-239 | definition of the signed Y penetration; its effect is stated by `FlatLandingOnTop` |
| Collision.ResolvesOnX | player.js:241 | definition of the axis choice; `FlatTieResolvesOnY` states that ties go to Y |
| Collision.CollisionResponse | player.js:222-262 | resolving on X stops horizontal motion, keeps vertical motion and never grounds; resolving on Y stops vertical motion, keeps horizontal motion and grounds exactly when pushed up |
| Collision.ResponsePositionIgnoresVelocity | player.js:241-261 | the resolved position depends only on the target point and the platform, never on the velocity |
| Collision.FlatFrameIsIdentity | player.js:205-212 | for a flat platform, rotating into its frame leaves the point where it is |
| Collision.FlatCollisionIsBoxOverlap | player.js:204-220 | on a flat platform, `wouldCollideWith` is the strict overlap of the two axis-aligned boxes |
| Collision.FlatLandingOnTop | player.js:236-261 | a Y resolution of a box above a flat platform's centre puts its bottom on the platform's top, stops vertical motion and grounds the player |
| Collision.FlatSideHit | player.js:232-250 | an X resolution on a flat platform moves the box only sideways, flush with the face it hit, stops horizontal motion and leaves the player airborne |
| Collision.FlatTieResolvesOnY | player.js:241-261 | equal penetrations resolve vertically |
| Collision.FlatResolutionSeparates | player.js:232-261 | the resolved box no longer overlaps the flat platform it was pushed out of |
| DashSkill.Accepted | src/skills/dash.js:4-9 | definition of the guard; `RejectedDashChangesNothing` and `AtMostOneDashPerCooldown` state its consequences |
| DashSkill.EffectiveSpeed | src/skills/dash.js:14 | definition of `player.dashSpeed \|\| 15` |
| DashSkill.DashSpec | src/skills/dash.js:3-30 | definition of the state `handleDash` leaves; stated by `RejectedDashChangesNothing`, `AcceptedDash` and `DashTimestampOnlyOnActivation` |
| DashSkill.HandleDash | src/skills/dash.js:3-30 | the player's new state is the dash specification of its old state: unchanged when refused; otherwise dashing, stamped with `now`, at dash speed in the chosen direction |
| DashSkill.ClearDash | src/skills/dash.js:31-33 | the deferred clear ends the dash and changes nothing else |
| DashSkill.RejectedDashChangesNothing | src/skills/dash.js:4-9 | without the skill, while dashing, or during the cooldown, nothing changes |
| DashSkill.AcceptedDash | src/skills/dash.js:11-29 | an accepted dash starts dashing, stamps the time and sets the velocity for its direction; position, jumps and the other skills' timestamps are kept |
| DashSkill.DashTimestampOnlyOnActivation | src/skills/dash.js:11-12 | the dash timestamp changes exactly when a dash is accepted |
| DashSkill.AtMostOneDashPerCooldown | src/skills/dash.js:7-12 | after a dash at `t1`, no attempt before `t1 + 1000` is accepted while the stamp is still that dash's |
| DashSkill.EarlierClearDueBeforeNextDash | src/skills/dash.js:31-33 | when a dash is accepted, the previous dash's clear is already due, so a stale clear cannot cut the new dash short |
| DoubleJumpSkill.AirJumpAllowed | src/skills/doubleJump.js:9-13 | definition of the airborne guard |
| DoubleJumpSkill.DoubleJumpSpec | src/skills/doubleJump.js:3-18 | definition of the state `handleDoubleJump` leaves; stated by `GroundPressJumps`, `AirPressOutcome`, `DoubleJumpKeepsJumpInvariant` and `OneAirJumpAfterGroundJump` |
| DoubleJumpSkill.HandleDoubleJump | src/skills/doubleJump.js:3-18 | the player's new state is the double-jump specification of its old state |
| DoubleJumpSkill.GroundPressJumps | src/skills/doubleJump.js:5-8 | a grounded press jumps with the strong impulse and counts one jump, with no cooldown check and no new stamp |
| DoubleJumpSkill.AirPressOutcome | src/skills/doubleJump.js:9-17 | an airborne press succeeds exactly when the skill, a remaining jump and the 800 ms cooldown allow it; success adds one jump and stamps the time; failure changes nothing |
| DoubleJumpSkill.DoubleJumpKeepsJumpInvariant | src/skills/doubleJump.js:5-17 | the jump count stays within the allowance, and a grounded player has used none |
| DoubleJumpSkill.OneAirJumpAfterGroundJump | src/skills/doubleJump.js:5-17 | with two jumps, after a ground jump at most one of two airborne presses succeeds, whatever their times |
| TeleportSkill.RestsOn | src/skills/teleport.js:30-34 | definition of one platform supporting a candidate |
| TeleportSkill.IsSafePosition | src/skills/teleport.js:28-36 | definition of `isSafePosition`; `TeleportOutcome` states that a committed teleport lands on a spot it accepts |
| TeleportSkill.Candidate | src/skills/teleport.js:11-12 | definition of the k-th candidate; bounded by `CandidateInBounds` |
| TeleportSkill.Destination | src/skills/teleport.js:10-19 | definition of where the teleport commits; `Search` is proved equal to it and `SafeOnlyOnLastDrawIsDiscarded` states its edge case |
| TeleportSkill.TeleportSpec | src/skills/teleport.js:3-26 | definition of the state `handleTeleport` leaves; stated by `TeleportOnCooldownChangesNothing` and `TeleportOutcome` |
| TeleportSkill.FirstSafeFrom | src/skills/teleport.js:10-17 | it yields the first safe candidate index at or after `k` below the attempt budget, and none when there is no such index |
| TeleportSkill.Search | src/skills/teleport.js:6-19 | the do-while loop returns the first safe candidate among the first 49 draws, and nothing when the loop ran the full budget |
| TeleportSkill.HandleTeleport | src/skills/teleport.js:3-26 | the player's new state is the teleport specification of its old state |
| TeleportSkill.TeleportOnCooldownChangesNothing | src/skills/teleport.js:4 | within 2000 ms of the last teleport nothing changes, timestamp included |
| TeleportSkill.TeleportOutcome | src/skills/teleport.js:10-25 | a committed teleport lands on a safe candidate drawn among the first 49, with zero velocity and a new stamp; otherwise nothing changes |
| TeleportSkill.SafeOnlyOnLastDrawIsDiscarded | src/skills/teleport.js:13-19 | when only the 50th candidate is safe, the player stays where it is |
| TeleportSkill.CandidateInBounds | src/skills/teleport.js:11-12 | every candidate lies in the camera's horizontal span less one player width, and at least 100 above the floor |
| Movement.DashDirection | player.js:50-55 | definition of the dash direction the skill key picks |
| Movement.SkillStep | player.js:48-60 | definition of the skill phase; stated by `SkillKeyDispatch` and `DashOverridesInput` |
| Movement.InputStep | player.js:62-73 | definition of the input phase; stated by `Damping` and `DashOverridesInput` |
| Movement.GravityStep | player.js:75 | definition of the gravity phase; stated by `GravityAccelerates` |
| Movement.JumpStep | player.js:77-86 | definition of the jump phase; stated by `HeldUpDoesNotJump`, `PlainJump` and `TickLatchesUp` |
| Movement.ApplyPlatform | player.js:92-106 | definition of one `forEach` callback |
| Movement.Resolve | player.js:91-107 | definition of the pass over the platforms; stated by `MissedPassChangesNothing`, `NoHitNoChange`, `CollidedIffSomeHit`, `LastHitDecidesPosition`, `ResolveKeepsJumpInvariant` and `ResolveKeepsControls` |
| Movement.CollideStep | player.js:88-112 | definition of the collision phase; stated by `FreeMove` and `LastHitDecidesPosition` |
| Movement.ClampStep | player.js:114-123 | definition of the view clamps; stated by `TickStaysInView` and `FloorGrounds` |
| Movement.Tick | player.js:46-124 | definition of one `update`; stated by `TickKeepsJumpInvariant`, `TickStaysInView`, `TickLatchesUp` and `SecondTickOfHeldUpDoesNotJump` |
| Movement.UseSkill | player.js:48-60 | the skill phase's new state is the skill step: dash for a dash player, teleport for a teleport player, nothing otherwise |
| Movement.ApplyInput | player.js:62-75 | the input and gravity phases' new state is the gravity step after the input step |
| Movement.Jump | player.js:77-86 | the jump phase's new state is the jump step: a jump on a fresh press, then the latch |
| Movement.Steer | player.js:62-86 | input, gravity and jump phases in order |
| Movement.HitPlatform | player.js:93-106 | one platform's callback: the state is that platform's response exactly when it is hit, and the hit is reported |
| Movement.Collide | player.js:88-112 | the state after the platform pass and the free move is the collision step of the old state |
| Movement.Clamp | player.js:114-123 | the new state is the clamp step: inside the camera's span horizontally, and grounded on the floor from below |
| Movement.Update | player.js:46-124 | one `update` leaves exactly the state of the tick function |
| Movement.MissedPassChangesNothing | player.js:91-107 | a pass that hits no platform leaves the state and the hit flag as they were |
| Movement.NoHitNoChange | player.js:91-112 | a pass reporting no hit has changed nothing |
| Movement.CollidedIffSomeHit | player.js:91-107 | the pass reports a hit exactly when some platform collides with the target point |
| Movement.FreeMove | player.js:88-112 | without a hit the player moves by exactly one velocity step |
| Movement.LastHitDecidesPosition | player.js:92-107 | when several platforms are hit, the last one in list order decides the position |
| Movement.ResolveKeepsJumpInvariant | player.js:100-103 | the platform pass keeps the jump bookkeeping: a landing resets the count, any other hit keeps it |
| Movement.TickKeepsJumpInvariant | player.js:46-124 | every tick keeps the jump count within the allowance and zero on the ground, for every profile the constructor builds |
| Movement.TickStaysInView | player.js:114-123 | after a tick the player is within the camera's span and not below the floor, when the view is at least one player wide |
| Movement.FloorGrounds | player.js:118-123 | reaching the floor lands the player on it, grounded, with no vertical speed and no jumps used |
| Movement.TickLatchesUp | player.js:86 | a tick copies `up` into the latch and changes no other control |
| Movement.ResolveKeepsControls | player.js:92-107 | the platform pass never touches the controls |
| Movement.HeldUpDoesNotJump | player.js:77-86 | holding `up` without a fresh press only latches |
| Movement.SecondTickOfHeldUpDoesNotJump | player.js:77-86 | of two consecutive ticks with `up` held, the second does not jump |
| Movement.PlainJump | player.js:80-83 | without the double-jump skill a press jumps only from the ground, with the plain impulse, and never counts a jump |
| Movement.Damping | player.js:62-73 | with no usable direction and no dash, horizontal speed decays to 80% |
| Movement.DashOverridesInput | player.js:48-73 | the velocity of a dash accepted this tick survives the input phase |
| Movement.SkillKeyDispatch | player.js:48-60 | the dash key never teleports a dash player and does nothing to a player with neither skill |
| Movement.GravityAccelerates | player.js:75 | the gravity step adds 0.5 to the vertical speed (a later collision or the floor may still stop it in the same tick) |
| BotKit.Pushed | mediumBot.js:47-60 | definition of the bounded history push; stated by `PushedIsBoundedFifo` |
| BotKit.StuckStep | mediumBot.js:34-41 | definition of the stuck-timer update; stated by `StuckCountsStillDecisions` |
| BotKit.Cleared | easyBot.js:53-56 | all four intents are released and the integrator's latch is kept |
| BotKit.PushedIsBoundedFifo | mediumBot.js:47-60 | a push keeps the history within its bound, ends with the new sample, and drops only the oldest entry when full |
| BotKit.StuckCountsStillDecisions | mediumBot.js:34-43 | the stuck timer grows by one interval on a near-still decision and drops to zero on a move of 5 or more |
| BotKit.Last | hardBot.js:233-252 | `slice(-n)` is the last `min(n, length)` entries |
| BotKit.SteadySums | hardBot.js:240-245 | samples sharing one velocity sum to that velocity times their number |
| BotKit.Unstick | mediumBot.js:252-259 | unsticking presses `up`, flips both sides exactly when told to toggle, and keeps `dash` and the latch |
| BotKit.FirstMin | mediumBot.js:228-242 | the reduce settles on the first index of least key, and on none for an empty list |
| BotKit.FirstMax | hardBot.js:305-322 | a stable descending sort's head is the first index of greatest key, none for an empty list |
| BotKit.AnyPlatform | easyBot.js:132-141 | `some` holds exactly when some platform satisfies the test |
| EasyBotEngine.EasyWeights | easyBot.js:31-32 | definition of the role weights |
| EasyBotEngine.PickedState | easyBot.js:30-44 | definition of the weighted pick; stated by `PickRespectsRole` |
| EasyBotEngine.AtPlatformEdge | easyBot.js:135-139 | definition of one platform of `isNearPlatformEdge` |
| EasyBotEngine.EasyShouldJump | easyBot.js:117-130 | definition of `shouldJump`; `JumpAndDashExactlyWhenDue` states that a decision jumps exactly when it holds after the cooldown |
| EasyBotEngine.EasyDecide | easyBot.js:46-115 | definition of `makeDecision`; stated by `DecisionPressesOneSide`, `WanderPressesOldDirection`, `ChaseAndRetreatAim`, `JumpAndDashExactlyWhenDue` and `OnlyDashPlayersDash` |
| EasyBotEngine.EasyReroll | easyBot.js:19-22 | definition of the state re-roll timer; stated by `RerollTimerGates` |
| EasyBotEngine.EasyTick | easyBot.js:24-27 | definition of the decision timer; stated by `DecisionTimerGates` |
| EasyBotEngine.PickFrom | easyBot.js:34-43 | the running-sum loop breaks at the first index whose running sum reaches the draw, and picks none when no sum does |
| EasyBotEngine.PickRespectsRole | easyBot.js:31-43 | a draw in [0, 1) always picks a state, never 'retreat' while "it" and never 'chase' otherwise |
| EasyBotEngine.NearPlatformEdge | easyBot.js:132-141 | the bot is near an edge exactly when it stands on some platform within 20 of one of its ends |
| EasyBotEngine.EasySteer | easyBot.js:58-98 | steering changes only the side intents, never presses both sides on cleared controls |
| EasyBotEngine.EasyBot.constructor | easyBot.js:2-13 | a new bot idles with all timers at zero and the preferred side of its coin |
| EasyBotEngine.EasyBot.UpdateMovementState | easyBot.js:30-44 | the new movement state is the weighted pick for the player's role, and the preferred side is the coin |
| EasyBotEngine.EasyBot.SteerByState | easyBot.js:58-98 | the controls and preferred side become those of the steering function for the state |
| EasyBotEngine.EasyBot.MakeDecision | easyBot.js:46-115 | the controls, preferred side and timestamps become those of the decision function |
| EasyBotEngine.EasyBot.Update | easyBot.js:15-28 | the bot's memory and the controls become those of one tick of the re-roll and decision timers |
| EasyBotEngine.PickSkipsMisses | easyBot.js:36-43 | a scan from a later index that passes only misses ends where the full scan does |
| EasyBotEngine.DecisionTimerGates | easyBot.js:24-27 | within 800 ms of the last decision nothing a decision writes changes; a decision stamps its time |
| EasyBotEngine.RerollTimerGates | easyBot.js:19-22 | the state is re-rolled only after 2000 ms, and then the timer restarts |
| EasyBotEngine.DecisionPressesOneSide | easyBot.js:53-98 | a decision never presses both sides and keeps the integrator's latch |
| EasyBotEngine.WanderPressesOldDirection | easyBot.js:66-72 | 'wander' presses the old preferred side and flips it exactly near a platform edge |
| EasyBotEngine.ChaseAndRetreatAim | easyBot.js:74-97 | an accurate 'chase' heads toward the target, an accurate 'retreat' away from it |
| EasyBotEngine.JumpAndDashExactlyWhenDue | easyBot.js:100-114 | `up` is set, and the jump stamped, exactly when the jump cooldown has passed and the jump test holds; `dash` likewise needs the skill, range, cooldown and draw |
| EasyBotEngine.OnlyDashPlayersDash | easyBot.js:108-114 | a player without the dash skill never gets the dash intent |
| MediumBotEngine.Predict | mediumBot.js:170-190 | definition of `predictTargetMovement`; stated by `FewSamplesPredictTarget` and `SteadyTargetPrediction` |
| MediumBotEngine.SafetyScore | mediumBot.js:230-235 | definition of the score `findSafePlatform` minimises |
| MediumBotEngine.Chasing | mediumBot.js:137-147 | definition of `handleChasing`; stated by `ChaserPressesOnlyInRange` |
| MediumBotEngine.Escaping | mediumBot.js:149-168 | definition of `handleEscaping`; stated by `EscaperHeadsForSafety` |
| MediumBotEngine.JumpForPlatform | mediumBot.js:207-218 | definition of `shouldJumpForPlatform` |
| MediumBotEngine.MediumShouldJump | mediumBot.js:192-205 | definition of `shouldJump`; `JumpAndDashExactlyWhenDue` states that a decision jumps exactly when it holds on the steered controls after the cooldown |
| MediumBotEngine.MediumShouldDash | mediumBot.js:244-250 | definition of `shouldUseDash`; `JumpAndDashExactlyWhenDue` states that a decision dashes exactly when it holds after the cooldown |
| MediumBotEngine.MediumDecide | mediumBot.js:92-135 | definition of `makeDecision`; stated by `StuckBotJumpsOut` and `JumpAndDashExactlyWhenDue` |
| MediumBotEngine.Recorded | mediumBot.js:22-28 | definition of the record and strategy-timer steps |
| MediumBotEngine.MediumTick | mediumBot.js:18-45 | definition of one `update`; stated by `TickRecordsAndReselects` and `TickWaitsBetweenDecisions` |
| MediumBotEngine.SelectStrategy | mediumBot.js:62-90 | below 0.7 the role's own set (aggressive when "it", defensive otherwise), else the balanced set |
| MediumBotEngine.InCorner | mediumBot.js:220-226 | the bot is in a corner exactly when some platform end is within 30 of it horizontally |
| MediumBotEngine.SafetyScores | mediumBot.js:229-235 | one score per platform: distance to its top centre, 50 less above the bot and 50 more otherwise |
| MediumBotEngine.FindSafePlatform | mediumBot.js:228-242 | none exactly for no platforms, else the first platform of least safety score |
| MediumBotEngine.MediumSteer | mediumBot.js:110-118 | role steering changes only the side intents |
| MediumBotEngine.MediumBot.constructor | mediumBot.js:2-16 | a new bot has empty history, zero timers and the strategy of its draw |
| MediumBotEngine.MediumBot.UpdateMovementHistory | mediumBot.js:47-60 | the history becomes the bounded push of the target's sample |
| MediumBotEngine.MediumBot.HandleStuckSituation | mediumBot.js:252-259 | the controls are unstuck (flipping exactly in a corner) and the stuck timer is zero |
| MediumBotEngine.MediumBot.SteerByRole | mediumBot.js:137-168 | the controls become the role steering of the old ones |
| MediumBotEngine.MediumBot.Pursue | mediumBot.js:110-134 | the controls and timestamps become those of steering, jump and dash for the current strategy |
| MediumBotEngine.MediumBot.MakeDecision | mediumBot.js:92-135 | the controls, stuck timer and timestamps become those of the decision function |
| MediumBotEngine.MediumBot.Update | mediumBot.js:18-45 | the bot's memory and controls become those of one medium tick |
| MediumBotEngine.FewSamplesPredictTarget | mediumBot.js:170-173 | with fewer than five samples the prediction is the target's position |
| MediumBotEngine.SteadyTargetPrediction | mediumBot.js:174-189 | a target with one steady velocity over its last five samples is predicted ten steps ahead |
| MediumBotEngine.StuckBotJumpsOut | mediumBot.js:104-108 | a stuck bot only jumps, pressing both sides exactly in a corner, resets the stuck timer and skips the jump and dash steps |
| MediumBotEngine.ChaserPressesOnlyInRange | mediumBot.js:137-147 | a chaser presses a side only within its chase range, toward the prediction |
| MediumBotEngine.EscaperHeadsForSafety | mediumBot.js:149-168 | an escaper presses a side exactly within its retreat range: toward the safest platform, or away from the target with no platforms |
| MediumBotEngine.JumpAndDashExactlyWhenDue | mediumBot.js:121-134 | outside the stuck case `up` is set, and the jump stamped, exactly when the jump cooldown has passed and `shouldJump` holds on the steered controls; `dash` is set, and stamped, exactly when the skill cooldown has passed and `shouldUseDash` holds |
| MediumBotEngine.TickRecordsAndReselects | mediumBot.js:18-28 | every call records one sample, keeping at most 20; the strategy changes only after three seconds, and then to one fitting the role |
| MediumBotEngine.TickWaitsBetweenDecisions | mediumBot.js:30-32 | within 500 ms of the last decision the controls and stuck timer are kept |
| HardBotEngine.PredictPosition | hardBot.js:233-252 | definition of `predictTargetPosition`; stated by `FewSamplesPredictTarget` and `SteadyTargetPrediction` |
| HardBotEngine.InterceptionPoint | hardBot.js:254-271 | definition of `calculateInterceptionPoint`; stated by `InterceptionLeadsPrediction` and `StillTargetInterceptedInPlace` |
| HardBotEngine.ProbeX | hardBot.js:289-292 | definition of the probe positions; stated by `ProbeXAt` |
| HardBotEngine.Supports | hardBot.js:293-296 | definition of one platform near a probe |
| HardBotEngine.SpaceOver | hardBot.js:291-300 | definition of the space the first k probes count; stated by `SpaceOverInSteps` |
| HardBotEngine.EscapeSpace | hardBot.js:285-303 | definition of `evaluateEscapeSpace`; stated by `EscapeSpaceBounds` |
| HardBotEngine.EscapeDirection | hardBot.js:273-283 | definition of the escape-direction rule; stated by `EscapeDirectionPrefersRoomAway` |
| HardBotEngine.EscapeScore | hardBot.js:308-319 | definition of `findSafestPlatform`'s score |
| HardBotEngine.PositionScore | hardBot.js:334-344 | definition of `evaluatePosition` |
| HardBotEngine.Blocks | hardBot.js:449-460 | definition of one platform blocking a segment; stated by `OwnCornersBlocked` and `SeparatedSegmentMissesRectangle` |
| HardBotEngine.IsReachable | hardBot.js:440-461 | definition of `isReachable`; stated by `CornersUnreachable` and `InterceptionHeadsForReachableGoal` |
| HardBotEngine.PathKey | hardBot.js:433-437 | definition of the sort key of `findBestPath` |
| HardBotEngine.ObstacleAt | hardBot.js:394-400 | definition of one platform of `isObstacleAhead` |
| HardBotEngine.HardShouldJump | hardBot.js:355-370 | definition of `shouldJump`; `JumpAndDashExactlyWhenDue` states that the jump stamp moves exactly when it holds on the steered controls after the cooldown |
| HardBotEngine.HardShouldDash | hardBot.js:403-412 | definition of `shouldUseDash`; `JumpAndDashExactlyWhenDue` states that a decision dashes exactly when it holds after the cooldown |
| HardBotEngine.HardPursuit | hardBot.js:105-145 | definition of `makeDecision` past the stuck check |
| HardBotEngine.HardDecide | hardBot.js:90-146 | definition of `makeDecision`; stated by `StuckBotJumpsOut` and `JumpAndDashExactlyWhenDue` |
| HardBotEngine.HardRecorded | hardBot.js:23-26 | definition of the record and strategy steps of a decision |
| HardBotEngine.HardTick | hardBot.js:19-44 | definition of one `update`; stated by `TickWaitsBetweenDecisions` and `DecisionRecordsAndRepicks` |
| HardBotEngine.ChooseStrategy | hardBot.js:61-88 | "it" chases by distance (direct below 100, predictive to 300, intercepting beyond); others escape (emergency below 150, platform below 300, positioning beyond) |
| HardBotEngine.HasPlatformAt | hardBot.js:293-296 | a probe finds a platform exactly when some platform spans it within 100 vertically |
| HardBotEngine.FindSafestPlatform | hardBot.js:305-322 | none exactly for no platforms, else the first platform of greatest escape score |
| HardBotEngine.FindStrategicPosition | hardBot.js:324-332 | none exactly for no platforms, else the top centre of the first platform of greatest position score |
| HardBotEngine.LineIntersectsRectangle | hardBot.js:463-481 | no intersection exactly when both endpoints lie strictly beyond the same side |
| HardBotEngine.Corners | hardBot.js:422-427 | two points per platform, each a top corner of some platform |
| HardBotEngine.ReachableFrom | hardBot.js:432 | the filter keeps exactly the reachable points |
| HardBotEngine.InsertBy | hardBot.js:433-437 | an insertion adds exactly the new point |
| HardBotEngine.SortBy | hardBot.js:433-437 | the sort is a permutation |
| HardBotEngine.FindBestPath | hardBot.js:420-438 | the path holds exactly the reachable corners and goal |
| HardBotEngine.HardInCorner | hardBot.js:372-388 | in a corner exactly when some platform's edge lies within 50 on either side at about the bot's height |
| HardBotEngine.IsObstacleAhead | hardBot.js:390-401 | an obstacle exactly when some platform top below the bot spans the point 100 ahead |
| HardBotEngine.ChaseSteer | hardBot.js:148-185 | the chases change only the side intents |
| HardBotEngine.EmergencySteer | hardBot.js:187-205 | the emergency escape changes only the sides and `up` |
| HardBotEngine.EscapeSteer | hardBot.js:187-231 | the escapes change only the sides and `up`, and only the emergency escape changes `up` |
| HardBotEngine.HardSteer | hardBot.js:105-129 | only an escaping bot in emergency escape may change `up` |
| HardBotEngine.HardBot.constructor | hardBot.js:2-17 | a new bot has no predictions, zero timers and the direct strategy |
| HardBotEngine.HardBot.UpdateTargetPredictions | hardBot.js:46-59 | the history becomes the bounded push (ten entries) of the target's sample |
| HardBotEngine.HardBot.UpdateStrategy | hardBot.js:61-88 | the strategy is re-picked by role and distance only after two seconds |
| HardBotEngine.HardBot.EvaluateEscapeSpace | hardBot.js:285-303 | the loop returns the escape space: 50 per probe that finds a platform |
| HardBotEngine.HardBot.FindEmergencyEscapeDirection | hardBot.js:273-283 | the side is the escape direction for the two measured spaces |
| HardBotEngine.HardBot.ExecuteEmergencyEscape | hardBot.js:187-205 | the controls become the emergency steering of the old ones |
| HardBotEngine.HardBot.ExecuteChase | hardBot.js:148-185 | the controls become the chase steering for the strategy |
| HardBotEngine.HardBot.ExecuteEscape | hardBot.js:187-231 | the controls become the escape steering for the strategy |
| HardBotEngine.HardBot.SteerByStrategy | hardBot.js:105-129 | the controls become the strategy steering by role |
| HardBotEngine.HardBot.HandleStuckSituation | hardBot.js:346-353 | the controls are unstuck, flipping exactly when the draw exceeds 0.5, and the stuck timer is zero |
| HardBotEngine.HardBot.Pursue | hardBot.js:105-145 | the controls and timestamps become those of steering, jump and dash |
| HardBotEngine.HardBot.MakeDecision | hardBot.js:90-146 | the controls, stuck timer and timestamps become those of the decision function |
| HardBotEngine.HardBot.Update | hardBot.js:19-44 | the bot's memory and controls become those of one hard tick |
| HardBotEngine.OffRoleLabelSteersNothing | hardBot.js:105-129 | a strategy of the other role steers nothing |
| HardBotEngine.FewSamplesPredictTarget | hardBot.js:233-237 | with fewer than two samples the prediction is the target's position |
| HardBotEngine.SteadyTargetPrediction | hardBot.js:238-251 | a target with one steady velocity is predicted five steps ahead |
| HardBotEngine.StillTargetInterceptedInPlace | hardBot.js:254-271 | a target with zero velocity is intercepted at its prediction whatever the history, and where it stands when seen for the first time |
| HardBotEngine.InterceptionLeadsPrediction | hardBot.js:254-271 | under a lawful square root the interception point leads the prediction along the target's velocity, in its direction, by the target's speed times the time the bot needs at `MOVE_SPEED` to reach the prediction |
| HardBotEngine.ProbeXAt | hardBot.js:289-292 | the k-th probe lies k steps from the start |
| HardBotEngine.SpaceOverInSteps | hardBot.js:291-300 | space counts whole steps, at most one per probe, none without platforms |
| HardBotEngine.EscapeSpaceBounds | hardBot.js:285-303 | the escape space is a multiple of 50 in [0, 300], and 0 without platforms |
| HardBotEngine.EscapeDirectionPrefersRoomAway | hardBot.js:273-283 | the escape runs away when that side has at least the other's space and some room, toward the target when the far side has none |
| HardBotEngine.BetweenEnds | hardBot.js:463-481 | a point of a segment lies between its ends on each axis |
| HardBotEngine.SeparatedSegmentMissesRectangle | hardBot.js:470-474 | a segment reported clear touches no point of the closed rectangle |
| HardBotEngine.OwnCornersBlocked | hardBot.js:463-481 | every segment to a top corner is blocked by that corner's platform |
| HardBotEngine.NoneReachable | hardBot.js:440-461 | when every point is blocked, the filter keeps nothing |
| HardBotEngine.ReachableFromAppend | hardBot.js:431-432 | filtering a concatenation concatenates the filtered parts |
| HardBotEngine.CornersUnreachable | hardBot.js:420-461 | on sized platforms no corner is reachable |
| HardBotEngine.BestPathIsAtMostTheGoal | hardBot.js:420-461 | on sized platforms the path is the goal alone when reachable and empty otherwise |
| HardBotEngine.InsertStaysAbove | hardBot.js:433-437 | inserting into points of key at least `b` a point of key at least `b` keeps every key at least `b` |
| HardBotEngine.InsertKeepsSorted | hardBot.js:433-437 | insertion into a sorted list keeps it sorted |
| HardBotEngine.SortKeepsSorted | hardBot.js:433-437 | the sort's result is sorted by ascending key |
| HardBotEngine.BestPathNearestFirst | hardBot.js:420-438 | the path is sorted nearest first and is a permutation of the reachable candidates |
| HardBotEngine.DirectChasesAim | hardBot.js:148-166 | the direct and predictive chases press exactly one side, toward the target or its prediction, never `up` |
| HardBotEngine.InterceptionHeadsForReachableGoal | hardBot.js:168-185 | on sized platforms the interception presses a side exactly when the intercept point is reachable, toward it, never `up` |
| HardBotEngine.EscaperSteers | hardBot.js:187-231 | the emergency escape presses one side and jumps only toward a platform more than 50 above; the other escapes press a side exactly when there are platforms and never jump |
| HardBotEngine.StuckBotJumpsOut | hardBot.js:99-103 | a stuck bot only jumps, pressing both sides or neither by its draw, resets the stuck timer and skips the jump and dash steps |
| HardBotEngine.JumpAndDashExactlyWhenDue | hardBot.js:131-145 | outside the stuck case `dash` is set, and stamped, exactly when due; the jump stamp moves exactly when the jump cooldown has passed and `shouldJump` holds on the steered controls, and `up` is set exactly when that jump is due or the steering pressed it (only the emergency escape does) |
| HardBotEngine.TickWaitsBetweenDecisions | hardBot.js:19-21 | between decisions `update` changes nothing, not even the history |
| HardBotEngine.DecisionRecordsAndRepicks | hardBot.js:19-44 | a decision records one sample (at most ten kept), stamps time and position, and re-picks the strategy only after two seconds, fitting the role |
| Match.Touching | game.js:226-231 | definition of the strict box overlap of two players |
| Match.PairStep | game.js:226-245 | definition of the inner loop body; stated by `PairStepIsOneTag`, `TagTransfers` and `UntaggedTouchStillScores` |
| Match.Row | game.js:222-248 | definition of the inner loop; stated by `RowIsOneTag`, `RowUnchangedIffUntouched` and `RowFirstTag` |
| Match.Rows | game.js:221-249 | definition of the outer loop so far; stated by `RowsAreOneTag`, `RowsUnchangedIffUntouched` and `RowsFirstTag` |
| Match.CheckCollisionsSpec | game.js:220-250 | definition of one `checkCollisions`; stated by `CheckCollisionsOutcome`, `CheckCollisionsPassesTag` and `CheckCollisionsKeepsOneIt` |
| Match.CameraX | game.js:158-169 | definition of the new `camera.x`; stated by `CameraStaysInWorld` and `CameraEasesTowardPlayer` |
| Match.SpawnX | game.js:99-105 | definition of a slot's spawn position |
| Match.SpawnsUpTo | game.js:101-129 | definition of the spawns of the first k slots; stated by `SpawnCount` |
| Match.CountItUpdate | game.js:234-242 | replacing one player changes the "it" count by that player's change of flag |
| Match.CountItAtLeastTwo | game.js:234-242 | two distinct "it" players make the count at least two |
| Match.PairStepIsOneTag | game.js:226-244 | a pair either changes nothing or is one tag event: the score rises by one, stamps `now`, nobody moves, the "it" count does not grow |
| Match.StampedRowChangesNothing | game.js:233 | once `now` is stamped, the immunity window makes every later pair a no-op |
| Match.RowIsOneTag | game.js:224-247 | a row is at most one tag event |
| Match.RowsAreOneTag | game.js:221-248 | all rows together are at most one tag event |
| Match.RowUnchangedIffUntouched | game.js:224-247 | outside the window a row changes nothing exactly when none of its pairs touches |
| Match.RowsTouchSplit | game.js:221-248 | a touching pair among the first rows lies in the earlier rows or the last one |
| Match.RowsUnchangedIffUntouched | game.js:221-248 | outside the window the rows change nothing exactly when no pair among them touches |
| Match.ImmuneRowsChangeNothing | game.js:233 | within the window all rows change nothing |
| Match.ImmuneRowChangesNothing | game.js:233 | within the window a row changes nothing |
| Match.CheckCollisionsOutcome | game.js:220-250 | within the window nothing changes; outside it something changes exactly when some pair touches, and then the whole call is the pair step of the first touching pair in loop order: one tag, no one moves, the "it" count never grows |
| Match.FirstTouchUnique | game.js:221-222 | the first touching pair in loop order is unique |
| Match.RowFirstTag | game.js:222-248 | outside the window a row that changes anything is the pair step of its first touching partner |
| Match.RowsFirstTag | game.js:221-249 | outside the window the rows so far, if they change anything, are the pair step of the first touching pair |
| Match.CheckCollisionsPassesTag | game.js:220-250 | when the first touching pair holds exactly one "it", the call moves the role from the holder to the other, stamps the other's `lastTagged` and `lastTagTime`, counts one tag and changes no other player |
| Match.CheckCollisionsKeepsOneIt | game.js:220-250 | with exactly one player "it", a call leaves exactly one "it" |
| Match.TagTransfers | game.js:234-244 | a tag between the "it" player and another moves the role to the other and stamps it; nobody else changes |
| Match.UntaggedTouchStillScores | game.js:233-244 | two touching players neither "it" still score a tag and restart the window |
| Match.CameraStaysInWorld | game.js:158-169 | the camera stays within the world when it is at least as wide as the view, and sits at 0 otherwise |
| Match.CameraEasesTowardPlayer | game.js:158-169 | away from the clamps the camera closes a tenth of its distance to the centring position without overshooting |
| Match.SpawnCount | game.js:101-151 | one spawn per configured slot |
| Match.FirstOnlyIt | game.js:153-155 | when only the first player is "it", exactly one is |
| Match.RosterHasOneIt | game.js:153-155 | the list `init` builds has exactly one "it" |
| Match.FindTarget | game.js:205-210 | the target is the first other player who is "it", and none when there is none |
| Match.OnlyTheItIsTargeted | game.js:205-210 | with one "it", that player's bot gets no target and every other bot gets that player |
| Match.Game.TagPair | game.js:225-245 | the tag state becomes the pair step of the old one |
| Match.Game.TagRow | game.js:224-247 | the tag state becomes the row of the old one |
| Match.Game.CheckCollisions | game.js:220-250 | the tag state becomes that of one `checkCollisions` of the old one |
| Match.Game.UpdateCamera | game.js:158-169 | the camera eases toward the active player, and is kept when no player is active |
| Match.Game.Init | game.js:69-156 | the platforms are the layout, the tag count is zero, and the players are fresh, one per configured slot at its spawn with released controls, the first alone "it" |
| Match.CrownFirst | game.js:153-155 | the first spawned player, and only it, becomes "it"; spawns are kept |
| Match.SpawnPlayers | game.js:101-155 | distinct fresh players, one per configured slot at its spawn, the first alone "it" |

## Left out

- Rendering, menus, the DOM and the map editor: all drawing (`draw`, colours, sprites, visibility culling in the draw loop), cooldown display, menu screens, the map editor and the bundled map file are not part of the game rules modelled here.
- The frame loop: the animation-frame loop, the countdown timer (`timeLeft`) and the end-of-game screen are left out. Of `game.update`, only bot-target selection (`FindTarget`) and the call to tag detection are modelled. The bots' `update` is modelled per bot and not driven by a modelled frame loop.
- Keyboard listeners: the handlers that set `controls` from key events are input I/O. Controls are a value field that keyboards and bots write.
- In `init`:
  - the DOM queries for each slot's type and skill are the parameter `slots`;
  - platform loading (the selected map or saved data) is the parameter `layout`;
  - bot construction by difficulty is left out;
  - `Init` says nothing about `lastTagTime`, the camera or the active player, which `init` does not set.
- Clocks: each modelled call reads the clock once (`now`). The source re-reads `Date.now()` inside a call, for instance once per pair in `checkCollisions` and in each skill; the model assumes those readings agree.
- Randomness: `Math.random()` calls are explicit draws, so nothing is claimed about their distribution.
- Maths: `Math.sqrt`, `Math.cos`, `Math.sin` and `Math.PI` are the `MathLib` parameters. Facts about them are hypotheses (`SqrtLawful`, `TrigAtZero`), so results for rotated platforms hold for whatever functions are supplied.
- Floating point: numbers are exact reals, so rounding, NaN and infinities are not modelled. `player.dashSpeed || 15` treats only zero as missing.
- MediumBotEngine.MediumBot.Pursue: requires `up` and `dash` released. Its only caller, `makeDecision`, has just cleared them.
- MediumBotEngine.Predict: a zero time step between the last two samples gives a non-finite acceleration in the source. The model returns the supplied `degenerate` point instead.
- HardBotEngine.HardBot.Pursue: assigns `dash` rather than or-ing into it. It matches the source only on cleared controls, which is how `MakeDecision` calls it.
- Unused fields: the medium bot's `platformMemory` and the hard bot's `pathMemory` and `lastPlatform` are never read or written after construction, and are left out.
- Match.Game.CheckCollisions, Match.Game.TagRow and Match.Game.TagPair: require the player list to hold distinct objects, which `init` guarantees (`SpawnPlayers`).
- The dash's `setTimeout`: it is the separate method `ClearDash`, to be run by the environment 200 ms after an activation. The model does not schedule it.
- Match.Game.UpdateCamera: the source's test that an active player exists is modelled as `activePlayerId` indexing the list.

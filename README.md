# Fumikiri: a verified model of the level-crossing simulation

This project models the simulation core of "fumikiri", a browser game set at a Japanese level
crossing. Road vehicles drive along a road, and commuter and high-speed trains run on two tracks.
A barrier goes through the phases OPEN, WARNING, CLOSING, CLOSED and OPENING, driven by the first
commuter train. The sky has a day/night cycle, weather with rain or snow, and drifting clouds.
A tap either honks a vehicle or, in tap mode, spawns one.

The model is written in imperative Dafny, in the same shape as the source:

- `FumikiriGame` is a class. Its vehicles, callouts, clouds and weather particles are sequence fields
  that its methods reassign.
- `Vehicle`, `Cloud`, `Particle` and `WeatherParticle` are classes whose `Update` methods change
  their fields in place.
- The engine's `forEach` loops are `while` loops, each proved against a specification: the
  vehicles' loop (`MoveFleet`) against `Traffic.StepAll`, one frame of all vehicles in array order;
  the cloud, weather-particle and callout loops against the per-element updates that `Cloud.Update`,
  `WeatherParticle.Update` and `Particle.Update` state.
- The single steps of a frame are stated against functions too: the crossing controller is
  `Crossing.Next`, the environment step is `Environment.EnvNext`, the spawn trials are
  `TrialPlan`, and the filters and the depth sort are the functions in `Compaction`.

Every value drawn from `Math.random()` is a parameter in [0, 1): the `Unit` predicate, collected per
frame in `Engine.FrameDraws`. Every trigonometric value is a parameter too: the automatic night curve,
the wheel bob and the snow sway. Positions, speeds and angles are `real`. The raised barrier angle
`-Math.PI / 2` is the constant `OPEN_ANGLE`.

Files:

- `types.dfy`: the enumerations and records shared by the engine and the entities.
- `entities.dfy`: the entities.
- `traffic.dfy`: the sequential vehicle frame.
- `crossing.dfy`: the barrier state machine and runs of many frames.
- `environment.dfy`: time of day and weather.
- `spawner.dfy`: the kind tables and the auto-mode cap.
- `compaction.dfy`: the per-frame filters and the depth sort.
- `engine.dfy`: the engine class.

## Model

| member | source | states |
|---|---|---|
| Entities.WidthOf | game/entities.ts:117-121 | The width given at construction is always one of 800, 600, 130 or 100. |
| Entities.WidthByClass | game/entities.ts:119-121 | The width is 800 exactly for the shinkansen kinds and 600 exactly for rapit/kuroshio/special_rapid/medetai/local*. It is 130 exactly for truck/mixer/bus and 100 exactly for the other road kinds. A kind is a train exactly when its width is at least 600. |
| Entities.ClassifiersAgree | game/entities.ts:127 | The vehicles' `isTrain` test and the engine's road list split the kinds the same way. The gate train's kind test (not a shinkansen, not a road kind) holds exactly for the commuter trains. |
| Entities.IsTrain | game/entities.ts:127 | Reference definition of the vehicles' train test: a shinkansen kind, a `local*` kind, or rapit, kuroshio, special_rapid or medetai. `Entities.ClassifiersAgree` relates it to the engine's road list. |
| Entities.AtStopLine | game/entities.ts:129-130 | Reference definition of the stop-line test: the crossing is not OPEN and the vehicle is strictly between 0 and 100 before `crossing.x - 80`. `Traffic.RoadStopRule` uses it. |
| Entities.Cloud.constructor | game/entities.ts:49-54 | A cloud starts at the drawn x and height, with speed 0.2 + 0.3 r, so in [0.2, 0.5), and size 0.5 + 0.8 r. |
| Entities.Cloud.Update | game/entities.ts:55-58 | x advances by the speed and wraps to -150 once past width + 150. So x ends at most width + 150. |
| Entities.WeatherParticle.constructor | game/entities.ts:70-79 | A particle starts at y = -10 and at x = r times the width. Rain falls at 15 + 5 r with slant -2 + 4 r and length 20 + 20 r. Snow falls at 2 + 3 r with the given swirl and size 3 + 4 r. |
| Entities.WeatherParticle.Update | game/entities.ts:80-83 | y grows by vy and x by the old vx. Only snow adds the frame's sway to vx. |
| Entities.Particle.constructor | game/entities.ts:97-99 | A callout starts at the given point with the given text, life 1.0 and vy -2. |
| Entities.Particle.Update | game/entities.ts:100-102 | y drops by 2 and life by exactly 0.02, so life strictly decreases. |
| Entities.HonkText | game/entities.ts:148-149 | The callout text picked is one of the five texts. |
| Entities.Advance | game/entities.ts:138-142 | A stopped vehicle keeps x, wheel angle and bounce. A moving one adds speed to x, speed times 0.1 to the wheel angle, and takes the frame's bob. Kind, depth, speed and width never change. The mark is set exactly when it was already set or x > width + 1000, so it is never cleared. |
| Entities.Vehicle.constructor | game/entities.ts:113-122 | A new vehicle has the width of its kind. It starts unmarked, not stopped, with bounce and wheel angle 0. |
| Entities.Vehicle.Update | game/entities.ts:124-143 | `isStopped` is recomputed from scratch each frame. It holds exactly for a road vehicle in auto mode that is at a stop line before a crossing that is not OPEN, or that has another road vehicle less than width + 30 ahead. The rest of the new state is that decision applied by `Advance`. |
| Entities.Vehicle.CarAhead | game/entities.ts:131-134 | Reference definition of the object-level search: some other road vehicle, not this one, is ahead by less than this width + 30. `Traffic.CarAheadAgrees` ties it to `Traffic.CarAheadIn`. |
| Entities.Vehicle.Honk | game/entities.ts:145-151 | Honking sets bounce to -20 and changes nothing else in the vehicle. It returns exactly one fresh callout at (x + 50, y - 20) with life 1 and vy -2, and with the picked text. |
| Entities.Snapshot | game/entities.ts:112-114 | The snapshot has one entry per vehicle, holding that vehicle's field values. |
| Traffic.StepFrom | game/engine.ts:188 | Updating the vehicles from index i on keeps the fleet size. |
| Traffic.CarAheadIn | game/entities.ts:131-134 | Reference definition of the value-level "car ahead": another index j holds a road vehicle ahead of vehicle i by less than its width + 30. |
| Traffic.MustStop | game/entities.ts:125-135 | Reference definition of `isStopped`: auto mode, not a train, and at the stop line or behind a car. `Traffic.RoadStopRule`, `Traffic.TrainsNeverStop` and `Traffic.TapModeNothingStops` state its cases. |
| Traffic.StepOne | game/entities.ts:124-143 | Reference definition of one vehicle's update within the frame: `Advance` with the stop flag computed against the current fleet. `Traffic.StoppedIsFrozen` and `Traffic.MarkRule` state its effect. |
| Traffic.StepAll | game/engine.ts:188 | One frame keeps the fleet size. |
| Traffic.StepFromKeepsPrefix | game/engine.ts:188 | The sequential update from index i leaves the vehicles before i alone. |
| Traffic.StepFromInOrder | game/engine.ts:188 | Along the sequential update, vehicle k is updated against vehicles 0..k-1 that have already moved and vehicles k.. that have not. |
| Traffic.StepAllInOrder | game/engine.ts:188 | For the whole frame, vehicle k is updated against vehicles 0..k-1 that have already moved and vehicles k.. that have not. |
| Traffic.StepAllKeepsShape | game/entities.ts:124-143 | A frame changes no kind, depth, speed or width, so no update method assigns the width. |
| Traffic.TrainsNeverStop | game/entities.ts:126-128 | A train is never stopped and always advances by its full speed. |
| Traffic.TapModeNothingStops | game/entities.ts:126 | In tap mode no vehicle is stopped, and every vehicle advances by its speed. |
| Traffic.RoadStopRule | game/entities.ts:129-135 | An auto-mode road vehicle is stopped if and only if it is at the stop line of a crossing that is not open, or another road vehicle is less than width + 30 ahead of it. The vehicle ahead is taken at its position at that point of the frame. |
| Traffic.StoppedIsFrozen | game/entities.ts:138-141 | After the frame, a stopped vehicle has kept x, wheel angle and bounce. A moving one has advanced by its speed. |
| Traffic.MarkRule | game/entities.ts:142 | After the frame, a vehicle is marked if and only if it already was or it is now past width + 1000. A mark is never taken back. |
| Traffic.CarAheadAgrees | game/entities.ts:131-134 | The object-level "car ahead" search agrees with the value-level one on a fleet without duplicates. |
| Traffic.FleetFarRightMarked | game/entities.ts:142 | After a frame of the real fleet, every vehicle past width + 1000 is marked for deletion. |
| Crossing.NextKeepsInv | game/engine.ts:180-185 | The crossing invariant survives every frame. The angle stays in [OPEN_ANGLE, 0]. It is fully raised in OPEN and WARNING and fully lowered in CLOSED. The lamp is dark in OPEN and OPENING. The WARNING countdown is in (0, 80]. |
| Crossing.Detect | game/engine.ts:174-179 | Reference definition of the detection step: OPEN arms WARNING with timer 80 when the gate train is 800 to 850 before the crossing; CLOSING or CLOSED turn OPENING once it is more than 800 past. `Crossing.OpenTriggersWarning` and `Crossing.DepartureOpens` state it. |
| Crossing.Drive | game/engine.ts:180-185 | Reference definition of the state-machine step of the crossing. `Crossing.WarningCountsDown`, `Crossing.ClosingLowers`, `Crossing.OpeningRaises` and `Crossing.AlarmCadence` state its cases. |
| Crossing.Next | game/engine.ts:173-186 | Reference definition of one frame of the controller: detection, then the state machine. `Crossing.NextKeepsInv` and `Crossing.PhaseCycle` state what it keeps. |
| Crossing.NextKeepsPosition | game/engine.ts:172-186 | The controller never moves the crossing. |
| Crossing.OpenTriggersWarning | game/engine.ts:174-177 | OPEN becomes WARNING if and only if the gate train is between 850 and 800 before the crossing. The countdown is then set to 80 and already counted down to 79 in that frame. Otherwise OPEN stays exactly as it was. |
| Crossing.WarningCountsDown | game/engine.ts:181 | WARNING lowers the countdown by exactly one a frame and becomes CLOSING when it reaches 0. |
| Crossing.TimerOnlyInWarning | game/engine.ts:177-181 | Only WARNING changes the countdown, apart from OPEN arming it for a new warning. |
| Crossing.ClosingLowers | game/engine.ts:182 | CLOSING lowers the barrier by 0.05 and clamps it to 0. It becomes CLOSED exactly when that clamp applies. |
| Crossing.DepartureOpens | game/engine.ts:178 | With the gate train more than 800 past, CLOSING or CLOSED starts opening in that frame. |
| Crossing.OpeningOnlyOnDeparture | game/engine.ts:178 | OPENING is entered only from CLOSING or CLOSED, and only with the gate train more than 800 past. So this is the only way CLOSED is skipped. |
| Crossing.OpeningRaises | game/engine.ts:184 | OPENING raises the barrier by 0.05, forces the lamp dark, and clamps the barrier to OPEN_ANGLE. It becomes OPEN exactly when that clamp applies. |
| Crossing.AlarmCadence | game/engine.ts:181-184 | The lamp flips on frames divisible by 15 in WARNING, CLOSING and CLOSED. It is dark in OPENING and untouched in OPEN. |
| Crossing.PhaseCycle | game/engine.ts:180-185 | A frame moves the phase at most one step forward around the cycle. The one exception is CLOSING going to OPENING, or through OPENING on to OPEN. |
| Crossing.RunAppend | game/engine.ts:172-186 | Running frames xs and then ys is the same as running xs + ys. |
| Crossing.WarningRun | game/engine.ts:181 | A WARNING with countdown t is CLOSING after exactly t frames, whatever the trains do. |
| Crossing.ClosedRun | game/engine.ts:178-183 | CLOSED stays CLOSED, with the barrier down, until the train departs. |
| Crossing.ClosingRun | game/engine.ts:182 | After n frames of CLOSING without a departure, the angle is min(angle + 0.05 n, 0). The crossing is CLOSED exactly when that reaches 0. |
| Crossing.TriggerToClosed | game/engine.ts:177-183 | A train triggering an open crossing closes it exactly 111 frames after the trigger frame, not one frame earlier. |
| Environment.Initial | game/engine.ts:18 | The initial environment satisfies the environment invariant and is clear day. |
| Environment.EnvNextKeepsInv | game/engine.ts:125-148 | Every frame keeps the environment invariant: time in [0, 1), intensity in [0, 1], night exactly above 0.3, an actual weather and the timer in [0, 1200]. |
| Environment.NightStep | game/engine.ts:127-133 | Reference definition of the intensity update: the auto curve, or a ramp of 0.02 down to 0 or up to 1. `Environment.ManualNightRamp` states the ramps. |
| Environment.TimeStep | game/engine.ts:126-134 | Reference definition of the time-of-day part: the time follows the frame count only in auto, and `isNight` is intensity > 0.3. |
| Environment.RollWeather | game/engine.ts:140-143 | Reference definition of the weather roll. `Environment.RollThresholds` states its thresholds. |
| Environment.WeatherStep | game/engine.ts:136-148 | Reference definition of the weather part: the auto timer and reroll, or the pinned manual weather. `Environment.AutoWeatherTimer` and `Environment.ManualWeatherPinned` state it. |
| Environment.EnvNext | game/engine.ts:125-148 | Reference definition of the whole environment step: time of day, then weather. `Environment.EnvNextKeepsInv` states the invariant it keeps. |
| Environment.ManualNightRamp | game/engine.ts:129-134 | Manual day lowers the intensity by 0.02 with floor 0. Manual night raises it with cap 1. The time stays put. isNight holds if and only if the intensity is above 0.3. |
| Environment.DayRampAfter | game/engine.ts:130 | After n frames of manual day the intensity is max(0, start - 0.02 n). |
| Environment.NightRampAfter | game/engine.ts:132 | After n frames of manual night the intensity is min(1, start + 0.02 n). |
| Environment.FiftyFramesSuffice | game/engine.ts:129-133 | Fifty frames of a manual mode reach full day or full night from anywhere. |
| Environment.ManualWeatherPinned | game/engine.ts:146-147 | A manual weather mode is the weather every frame, and the timer is left alone. |
| Environment.AutoWeatherTimer | game/engine.ts:136-145 | Auto weather rerolls if and only if the timer was 1200. It then resets the timer to 0 and sets the rolled weather. Otherwise it counts up by one and keeps the weather. |
| Environment.RollThresholds | game/engine.ts:140-143 | The roll gives clear below 0.5, rain in [0.5, 0.8) and snow from 0.8. |
| Environment.ParticlesPerFrame | game/engine.ts:150-151 | A frame adds 5 particles for rain, 2 for snow and none when clear. |
| Spawner.PickIndex | game/engine.ts:99 | `Math.floor(r * n)` is a valid index and the floor of r n. |
| Spawner.RoadKindAt | game/engine.ts:98-99 | The road spawner picks a road kind from its table, never a train. |
| Spawner.RoadSpeed | game/engine.ts:100 | A road vehicle's speed is in [3, 5.5). |
| Spawner.CommuterKindAt | game/engine.ts:105-109 | The commuter spawner picks a commuter kind from its table. |
| Spawner.CommuterSpeed | game/engine.ts:110-113 | The speed is 7 exactly for rapit and special_rapid, 6 exactly for kuroshio, 3.5 exactly for medetai, and 4 exactly for every other kind. |
| Spawner.LiveryAt | game/engine.ts:121 | The livery is always a shinkansen, and it is yellow exactly for draws below 0.3. |
| Spawner.CountOf | game/engine.ts:107-119 | The count of a category is 0 exactly when no entity of it is alive. |
| Spawner.CapKeepsAtMostOne | game/engine.ts:104-120 | In auto mode a capped spawner never takes its category above one. It leaves exactly one when it could spawn. In tap mode it always appends, adding one to the count. The two train spawners use it for their count bound. |
| Compaction.SurvivorsUnmarked | game/engine.ts:189 | The vehicle filter keeps exactly the unmarked vehicles, none of them more often than before. |
| Compaction.Survivors | game/engine.ts:189 | Reference definition of `filter(e => !e.markedForDeletion)`, in order. `Compaction.SurvivorsUnmarked` states what it keeps. |
| Compaction.StillFallingAboveBottom | game/engine.ts:164 | The weather filter keeps exactly the particles above height + 50, none of them more often than before. |
| Compaction.StillFalling | game/engine.ts:164 | Reference definition of `filter(p => p.y < height + 50)`, in order. `Compaction.StillFallingAboveBottom` states what it keeps. |
| Compaction.StillAliveKeepsLive | game/engine.ts:193 | The callout filter keeps exactly the live callouts, none of them more often than before. |
| Compaction.StillAlive | game/engine.ts:193 | Reference definition of `filter(p => p.life > 0)`, in order. `Compaction.StillAliveKeepsLive` states what it keeps. |
| Compaction.InsertByY | game/engine.ts:190 | Inserting into a depth-sorted list keeps it sorted and adds exactly the one vehicle. |
| Compaction.SortedCons | game/engine.ts:190 | A vehicle no deeper than every vehicle of a sorted list can be put in front of it. |
| Compaction.SortByY | game/engine.ts:190 | The depth sort is in non-decreasing y and is a permutation of its input. |
| Compaction.CompactedFleet | game/engine.ts:189-190 | Filtering and sorting a fleet without duplicates gives a sorted permutation of exactly the unmarked vehicles, still with no duplicates. |
| Engine.GateTrain | game/engine.ts:174 | The gate train is the first entity that is neither a shinkansen nor a road kind, or there is none. |
| Engine.GateIgnoresShinkansen | game/engine.ts:174 | The gate train is always a commuter train, never a shinkansen. There is none exactly when no commuter train is alive. |
| Engine.IsGateTrain | game/engine.ts:174 | Reference definition of the gate-train kind test: neither a shinkansen nor in the road list. |
| Engine.FirstHit | game/engine.ts:79-85 | The tap hits the first vehicle whose open box, 100 high, contains it, or it hits none. |
| Engine.Hits | game/engine.ts:80 | Reference definition of the tap hit test: strictly inside the open box from (x, y), as wide as the vehicle and 100 high. |
| Engine.FumikiriGame.constructor | game/engine.ts:12-34 | A new engine is empty, at frame 0, with the given settings, the initial environment, and an open, raised, dark crossing at 0.35 of the width. |
| Engine.FumikiriGame.Resize | game/engine.ts:38-46 | The layout bands are recomputed from the new size (sky 0.35, elevated track 0.25, ground track 0.55, road 0.85 of the height) and the crossing x is set to 0.35 of the width. Nothing else in the crossing changes, and the engine invariant is kept. |
| Engine.FumikiriGame.UpdateSettings | game/engine.ts:48-65 | Switching into tap mode makes the crossing OPEN, raised and dark, and leaves the timer alone. Switching the weather to a fixed kind pins it and empties the weather particles. Otherwise neither changes. The engine invariant is kept. |
| Engine.FumikiriGame.SpawnVehicle | game/engine.ts:97-102 | Exactly one fresh road vehicle is appended, at x -150 on the road line minus 30, with the drawn kind and speed. |
| Engine.FumikiriGame.SpawnLocalTrain | game/engine.ts:104-115 | In auto mode with a commuter train alive, nothing changes. Otherwise one fresh commuter train is appended, at x -700 on the ground track minus 55, at its kind's speed. The new fleet is `CappedSpawn` of the old one for some commuter train, and in auto mode at most one commuter train stays alive. |
| Engine.FumikiriGame.SpawnShinkansen | game/engine.ts:117-123 | In auto mode with a shinkansen alive, nothing changes. Otherwise one fresh shinkansen is appended, at x -900 on the elevated track minus 50, at speed 15. The new fleet is `CappedSpawn` of the old one for some shinkansen, and in auto mode at most one shinkansen stays alive. |
| Engine.FumikiriGame.HonkVehicle | game/engine.ts:81-93 | The honked vehicle bounces and nothing else in it changes. Exactly one callout is appended above its front. |
| Engine.FumikiriGame.SpawnAt | game/engine.ts:87-90 | In tap mode, exactly one entity is appended. It is a shinkansen above elevatedTrackY + 50, else a commuter train above roadY - 50, else a road vehicle. |
| Engine.FumikiriGame.HandleTap | game/engine.ts:76-95 | A hit honks the first vehicle hit, and only it, and spawns nothing. With no hit, tap mode spawns one entity by band and leaves every old vehicle unchanged. With no hit, auto mode spawns nothing and honks the picked vehicle, if there is one. |
| Engine.FumikiriGame.FindTapped | game/engine.ts:79-85 | The scan returns exactly the first vehicle hit. It returns none if and only if no vehicle is hit. |
| Engine.FumikiriGame.UpdateEnvironment | game/engine.ts:125-154 | The environment becomes `EnvNext` of the old one. The particles are kept, or emptied on a reroll, and gain exactly `ParticlesPerFrame` fresh particles of the current weather at y -10. |
| Engine.FumikiriGame.StepTimeOfDay | game/engine.ts:126-134 | The environment becomes `TimeStep` of the old one. |
| Engine.FumikiriGame.StepWeather | game/engine.ts:136-148 | The environment becomes `WeatherStep` of the old one. The weather particles are emptied exactly on a reroll. |
| Engine.FumikiriGame.PourWeather | game/engine.ts:150-153 | Exactly n fresh particles of the current weather are appended. The old ones stay in front. |
| Engine.FumikiriGame.DriftClouds | game/engine.ts:161 | Every cloud drifts by its speed, wrapping at width + 150. All clouds end at most width + 150. |
| Engine.FumikiriGame.StepClouds | game/engine.ts:160-161 | A fresh cloud is appended exactly when there are fewer than 5, so the count never decreases and never exceeds 5. Its y, speed and size come from the draws. Then every cloud drifts, the new one included: it ends at its drawn x plus its speed, wrapped to -150 past width + 150. |
| Engine.FumikiriGame.FallWeather | game/engine.ts:163 | Every weather particle falls by its own vy and drifts by its vx. Snow also sways. |
| Engine.FumikiriGame.DropFallen | game/engine.ts:164 | The particles kept are exactly those with y < height + 50, with no duplicates. |
| Engine.FumikiriGame.StepWeatherParticles | game/engine.ts:163-164 | Every old particle moves. The ones kept are exactly those with y < height + 50. |
| Engine.FumikiriGame.StepCrossing | game/engine.ts:173-186 | The crossing becomes `Crossing.Next` of the old one, given the gate train's x, and the invariant is kept. |
| Engine.FumikiriGame.WatchGateTrain | game/engine.ts:174-179 | The crossing becomes `Crossing.Detect` of the old one, given the gate train's x. |
| Engine.FumikiriGame.DriveGate | game/engine.ts:180-185 | The crossing becomes `Crossing.Drive` of the old one. |
| Engine.FumikiriGame.MoveFleet | game/engine.ts:188 | The vehicles' new fields are `Traffic.StepAll` of the old ones: the sequential, array-order frame. |
| Engine.FumikiriGame.Compact | game/engine.ts:189-190 | The fleet becomes the depth-sorted survivors. These are exactly the unmarked vehicles, with no duplicates. |
| Engine.FumikiriGame.StepFleet | game/engine.ts:188-190 | The vehicles move as `StepAll`. What remains is depth-sorted, unmarked, and at most width + 1000 to the right. Every vehicle past that point is gone. |
| Engine.FumikiriGame.AgeParticles | game/engine.ts:192 | Every callout rises by 2 and loses exactly 0.02 of life. |
| Engine.FumikiriGame.DropSpent | game/engine.ts:193 | The callouts kept are exactly those with life > 0, with no duplicates. |
| Engine.FumikiriGame.StepParticles | game/engine.ts:192-193 | Every old callout ages. The ones kept are exactly those with life > 0. |
| Engine.FumikiriGame.StepSky | game/engine.ts:157-161 | The frame counter goes up by one and the environment becomes `EnvNext` of the old one. The weather particles are the kept ones followed by exactly `ParticlesPerFrame` fresh ones of the new weather. The old clouds stay in front and each drifts and wraps; a new cloud, when there were fewer than 5, has the drawn fields and has drifted too. The invariant is kept. |
| Engine.FumikiriGame.RoadTrial | game/engine.ts:167 | A draw below 0.012 appends exactly one fresh road vehicle of the drawn kind and pace at the road start; otherwise nothing changes. |
| Engine.FumikiriGame.CommuterTrial | game/engine.ts:168 | A draw below 0.003 while the crossing is OPEN and no commuter train is alive appends exactly one fresh commuter train built from the draws; otherwise nothing changes. Spawns of earlier trials that hold no commuter train do not change that verdict. |
| Engine.FumikiriGame.HighSpeedTrial | game/engine.ts:169 | A draw below 0.005 while no shinkansen is alive appends exactly one fresh shinkansen built from the draws; otherwise nothing changes. Spawns of earlier trials that hold no shinkansen do not change that verdict. |
| Engine.FumikiriGame.TrialPlan | game/engine.ts:166-170 | Reference definition of what a frame's auto-mode trials spawn, as a sequence of categories in spawn order; the caps are judged on the entities alive before the frame. `TrialPlanCases` states its cases. |
| Engine.FumikiriGame.TrialPlanCases | game/engine.ts:166-170 | The frame's trials spawn a road vehicle exactly when its draw is below 0.012. They spawn a commuter train exactly when its draw is below 0.003, the crossing is OPEN and none was alive. They spawn a shinkansen exactly when its draw is below 0.005 and none was alive. No category comes twice; the road vehicle comes first and the shinkansen last. |
| Engine.FumikiriGame.PlanKeepsAnyOf | game/engine.ts:166-170 | Vehicles spawned earlier in the frame, none of a capped category, leave that category as alive or as absent as before. So the two caps see the entities alive before the frame's spawns. |
| Engine.FumikiriGame.SpawnTraffic | game/engine.ts:166-170 | The old fleet stays in front. After it come fresh vehicles, one per category of `TrialPlan` and in its order. Each is built from the frame's draws as its spawner builds it. Nothing else is appended. |
| Engine.FumikiriGame.StepTraffic | game/engine.ts:166-190 | The spawns and the crossing run in auto mode only, so in tap mode the crossing is unchanged. In auto mode the crossing is `Crossing.Next` of the old one for some gate-train reading, so every `Crossing` lemma about one frame applies. Then the fleet steps. It ends sorted, unmarked and within width + 1000. |
| Engine.FumikiriGame.TrafficStage | game/engine.ts:166-190 | The traffic part of the frame keeps the whole engine invariant. |
| Engine.FumikiriGame.Update | game/engine.ts:156-194 | After a frame: the invariant holds; the counter is one higher; the environment is `EnvNext`; the vehicles are unmarked and in depth order; every weather particle has y < height + 50; every callout has life in (0, 1]; the cloud count has grown to at most 5; the crossing is untouched in tap mode. |

## Left out

- Drawing: every `draw*` method, the colour helpers and the palettes. These have no effect on the simulation.
- The frame loop and the browser: `start`, `destroy`, `requestAnimationFrame`, the resize listener and the canvas context.
- Resize: takes the surface size as parameters, because `window.innerWidth` and `window.innerHeight` are I/O.
- Audio: `audioService.playTone` in `honk` is a side effect outside the model.
- Floating point: numbers are exact reals. IEEE rounding (for example in `angle += 0.05`) is not modelled. OPEN_ANGLE is the exact decimal -1.5707963267948966, the shortest decimal that rounds to the double for -π/2. It is neither that double nor -π/2 itself.
- Randomness and trigonometry: `Math.random()` draws and the `sin`-based values (the automatic night curve, the wheel bob, the snow sway and swirl) are inputs with their ranges, not distributions.
- The vehicle colour drawn at construction is not modelled, because it is only used for drawing.
- Kind strings: they become a closed enumeration, and `includes('shinkansen')` and `includes('local')` become predicates on it. The enumeration value `LocalOrange` is the model's own name for any `local*` kind other than `local_maroon`: the source names no such kind, and draws every such local orange. No spawner creates one.
- The sort: stability is not claimed. `Compact` states its result exactly as `SortByY(Survivors(...))`, an insertion sort that is stable. The properties exported upwards are sortedness, permutation and membership.
- Engine.FumikiriGame.StepFleet: states the new fleet by membership, sortedness and the x bound, not by an exact sequence. The exact sequence is stated by `Compact`.
- Engine.FumikiriGame.StepTraffic: does not state which vehicles were spawned or the gate-train x that drove the crossing. It states only that the crossing is `Crossing.Next` of the old one for some x. The exact steps are stated by `SpawnTraffic`, `StepCrossing`, `StepFleet` and `MoveFleet`, which it calls in the source's order. The gate train is read after the spawns and before the moves, so its x is not a function of the engine's state before or after the frame.
- Engine.FumikiriGame.TrafficStage: exports the invariant and the bounds of `StepTraffic`, but not its crossing step. That step is stated by `StepTraffic` and `StepCrossing`.
- Engine.FumikiriGame.Update: does not restate the exact crossing step, the weather-particle motion or the vehicle field values. Those are stated by `StepCrossing`, `StepWeatherParticles` and `MoveFleet`, which it calls in the source's order. `Update` exports the invariants and bounds.
- Engine.FumikiriGame.HandleTap: the hit scan is the separate method `FindTapped`, which keeps the source's first-hit, `break`-on-hit semantics.
- Engine.FumikiriGame.SpawnTraffic: the probabilities 0.012, 0.003 and 0.005 appear only as thresholds on the draws.

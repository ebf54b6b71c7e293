# old-boys: the main scene of a three-lane rhythm game

This project models the core of the *old-boys* game in Dafny. The core is
the main scene, which loads the game and then, once per tick, runs a play
update. The update:

- advances three band-member animations;
- moves a virtual song clock;
- scrolls every active chart note towards the hit zone;
- deactivates notes that have passed the judgment band and mutes their
  instrument;
- judges a press in each triggered lane against the first active note of
  that lane: within 10 ticks it scores 100 points, within 20 ticks 50,
  and the hit note's instrument goes back to full volume;
- restarts the backing tracks at full volume when playback has stopped.

The animations (a looping frame counter) and the sprite sheet (one row of
tiles, each `tileSize` wide and `heightInTiles` tall) are the two helper
types the scene builds on.

The project has these parts:

- `geometry.dfy` — Go's `image.Rect`, `Empty` and `In`, with `In`
  proved to mean containment.
- `animations.dfy` — the `Animation` class, with `Update` proved against
  the pure step `Advanced`. It also proves the timing law of the counter:
  with an integer speed S the frame advances exactly once every S calls.
- `sprite_sheet.dfy` — `SpriteSheet`, `NewSpriteSheet` and
  `HorizontalRect`.
- `notes.dfy` — chart notes, lane ids, keys and lane bindings.
- `judgment.dfy` — the rules of one play frame as pure functions on a
  `PlayState` (chart, score, volumes), with their properties proved.
  `PlayFrame` is the whole frame.
- `main_scene.dfy` — the `MainScene` class:
  - `NewGameScene`;
  - `FirstLoad`, with the decoded chart passed in;
  - the `Update` dispatch;
  - `UpdateInGameMenu`;
  - `UpdateInGamePlay`, which rewrites the chart array and the scene's
    fields in place and is proved to end in exactly the state `PlayFrame`
    describes.

Nondeterministic inputs are parameters:

- the frame's elapsed seconds `dt`;
- the keyboard, mouse and touch snapshot (`Input`);
- whether the bass track is still playing (`bassIsPlaying`).

The chart that `FirstLoad` decodes from the embedded JSON enters as a
sequence of notes. Player volumes are a sequence of three reals indexed
by lane id.

Five points of the code are easy to misread. The model follows the code
on each:

- The lane search stops at the first active note of the lane in chart
  order. The loop carries a `math.Inf(1)` minimum and a comment about the
  nearest note, but the `break` after the first candidate means no later
  note is ever compared.
- There are no per-verdict counters.
- No transition to the finish state exists. `UpdateInGameFinish` is empty,
  and `Update` always returns the game scene.
- A touch judges its lane on every frame it is held there, not only on
  the frame it starts: the pointer box is built from the current touches,
  and the lane test does not look for a press edge.
- The late half of the Good window can never be reached. The position
  pass misses every note more than 10 ticks late before the judgment
  loop runs, so a late press always scores Perfect, and Good comes only
  from a press 10 to 20 ticks early, although the 20-tick window reads
  as symmetric.

`FirstLoad` counts twenty loading steps against a declared total of
nineteen. The model keeps both numbers as written.

## Model

| member | source | states |
|---|---|---|
| Geometry.Rect | src/animations/basic_spitesheet.go:16 | `image.Rect` is canonical: min is the smaller and max the larger of each coordinate pair, whatever order they come in |
| Geometry.InMeansContainment | src/scenes/main_scene.go:400-412 | `cs.In(r)` holds exactly when every point of `cs` lies in `r` (an empty `cs` is in everything) |
| Animations.NextFrame | src/animations/basic_animation.go:44-49 | the next frame is `first` or `frame + step`, and stays in `[first, last]` when it starts there with a non-negative step |
| Animations.Advanced | src/animations/basic_animation.go:40-52 | one update never changes `First`, `Last`, `Step`, `SpeedInTps` or the row `y` |
| Animations.AdvancedNKeepsFrameInRange | src/animations/basic_animation.go:40-52 | any number of updates keeps a frame inside `[First, Last]` when the step is non-negative |
| Animations.CountDown | src/animations/basic_animation.go:41-45 | with m whole ticks on the counter, m - 1 updates only count down and the m-th reloads the counter and advances the frame |
| Animations.AdvancedNAdd | src/animations/basic_animation.go:40-52 | a + b updates are a updates followed by b updates |
| Animations.AdvancesOnceEverySpeedTicks | src/animations/basic_animation.go:40-52 | with integer speed S and a fresh counter, after n*S + k updates (k < S) the frame has advanced exactly n times and the counter shows S - k |
| Animations.AdvancedNKeepsConfig | src/animations/basic_animation.go:40-52 | the configuration fields and the row survive any number of updates |
| Animations.Animation.NewAnimationVertical | src/animations/basic_animation.go:13-22 | starts at `first`, row 0, with the counter loaded from `speedInTps` |
| Animations.Animation.NewAnimationHorizontal | src/animations/basic_animation.go:24-34 | frames 0..`last` of row `y`, step 1, starting at frame 0 with a full counter |
| Animations.Animation.Frame | src/animations/basic_animation.go:36-38 | returns the current frame and row of the animation's state and changes nothing |
| Animations.Animation.Update | src/animations/basic_animation.go:40-52 | the in-place update leaves the object in state `Advanced(old state)` |
| SpriteSheets.NewSpriteSheet | src/animations/basic_spitesheet.go:19-24 | the sheet keeps its height and tile size |
| SpriteSheets.HorizontalRectBounds | src/animations/basic_spitesheet.go:13-17 | for non-negative sizes tile i spans x in [i*T, i*T + T) and y in [0, H) |
| SpriteSheets.HorizontalRectShape | src/animations/basic_spitesheet.go:13-17 | for any signs the tile is canonical, \|T\| wide and \|H\| tall |
| SpriteSheets.ConsecutiveTilesAbut | src/animations/basic_spitesheet.go:13-17 | tile i ends where tile i + 1 starts (the reverse for a negative tile size) |
| Judgment.LaneConfig | src/scenes/main_scene.go:163-174 | exactly three lanes; their keys and touch rectangles are those of main_scene.go:164-174 (the pointer zones they give are proved in `TouchZones`) |
| Judgment.TickAfterIsSum | src/scenes/main_scene.go:350-355 | over any run of frames the clock has moved by `ticksPerSec` times the total elapsed time, and not backwards for non-negative deltas |
| Judgment.RepositionEffect | src/scenes/main_scene.go:357-370 | an inactive note is untouched; an active one keeps lane and tick, sits at `hitZoneY - (tick - now) * noteSpeed` (at `hitZoneY` on time) and is missed exactly when more than 10 ticks late |
| Judgment.RepositionAll | src/scenes/main_scene.go:357-380 | over the whole chart: inactive notes are left as they are; active ones keep lane and tick, are placed at `hitZoneY - (tick - now) * noteSpeed`, and stay active exactly when at most 10 ticks late |
| Judgment.SetVolume | src/scenes/main_scene.go:371-378 | only the player of the note's lane changes; a lane id beyond the three instruments changes none |
| Judgment.SetVolumeSwitch | src/scenes/main_scene.go:371-378 | the guitar, drums and bass lane ids each set exactly their own player, and any other lane id sets none |
| Judgment.SilenceMissesAt | src/scenes/main_scene.go:368-379 | after the position loop a lane is muted exactly when one of its notes was missed, else keeps its volume |
| Judgment.TouchZones | src/scenes/main_scene.go:387-412 | where the pointer must be for its 5x5 box to lie in each lane's touch rectangle |
| Judgment.PointerTouchesAtMostOneLane | src/scenes/main_scene.go:395-412 | the pointer box touches at most one lane in a frame |
| Judgment.NoPointerOnlyKeysTrigger | src/scenes/main_scene.go:387-412 | with no click and no touch only a key press triggers a lane |
| Judgment.Triggers | src/scenes/main_scene.go:410-412 | lane i is judged exactly when its key went down or the pointer point leaves room for the whole 5x5 box inside the lane's touch rectangle |
| Judgment.Classify | src/scenes/main_scene.go:384-455 | Perfect exactly at distance <= 10, Good exactly in (10, 20], no hit beyond 20 |
| Judgment.FirstActive | src/scenes/main_scene.go:417-426 | none exactly when the lane has no active note; otherwise the index of an active note of the lane with none before it |
| Judgment.JudgeLaneOutcome | src/scenes/main_scene.go:429-455 | a press at distance d from the first active note: d <= 10 gives 100 points, d <= 20 gives 50, each deactivating the note and setting its lane to full volume; otherwise, or with no note, nothing changes |
| Judgment.JudgeLanes | src/scenes/main_scene.go:410-457 | judging lanes in order keeps the chart length and three volumes |
| Judgment.AfterPositions | src/scenes/main_scene.go:357-380 | the position pass keeps three volumes |
| Judgment.ActiveCountDeactivate | src/scenes/main_scene.go:433 | deactivating an active note lowers the active count by one |
| Judgment.JudgeLaneEffect | src/scenes/main_scene.go:410-457 | a press changes at most one note, an active one of its lane, only by deactivating it, and the score rises by 50 or 100 exactly when it does |
| Judgment.JudgeLaneChanges | src/scenes/main_scene.go:410-457 | a press changes at most one note, an active one of its own lane, and only by deactivating it |
| Judgment.JudgeLanesDeactivates | src/scenes/main_scene.go:410-457 | the judgments of a frame keep the chart's length and change only active notes of triggered lanes below `n`, each only by deactivating it |
| Judgment.JudgeLanesEffect | src/scenes/main_scene.go:410-457 | the judgments of a frame only deactivate notes, each in a lane whose trigger is set, no more notes than lanes triggered, and award 50 to 100 points per deactivated note |
| Judgment.JudgeLanesOnePerLane | src/scenes/main_scene.go:410-457 | two notes deactivated by the judgments of one frame are in different lanes |
| Judgment.FrameNoteStates | src/scenes/main_scene.go:357-457 | a frame never reactivates a note, never touches an inactive one, keeps lanes and ticks, and any note left active is at most 10 ticks late and at its scrolled position |
| Judgment.FrameScore | src/scenes/main_scene.go:410-457 | a frame's score rises by 50 to 100 per judged note, at most three, in distinct lanes, and never falls |
| Judgment.LaneGain | src/scenes/main_scene.go:429-455 | a press earns 0, 50 or 100 points, and a non-zero amount exactly when the lane is triggered and its first active note is within 20 ticks |
| Judgment.SameFirst | src/scenes/main_scene.go:414-426 | changing only notes of other lanes leaves a lane's first active note where it was |
| Judgment.JudgeLanesKeepLane | src/scenes/main_scene.go:410-457 | the lanes judged after lane i leave lane i's notes as its own judgment left them |
| Judgment.JudgeLanesLane | src/scenes/main_scene.go:410-457 | when lane i is triggered and its first active note before the judgments is within 20 ticks, that note is deactivated; every other note of lane i is unchanged |
| Judgment.JudgeLaneGain | src/scenes/main_scene.go:429-455 | a press scores what `LaneGain` gives against any chart with the same notes in that lane |
| Judgment.JudgeLanesScoreStep | src/scenes/main_scene.go:410-457 | judging lane n - 1 adds what it earns against the chart before any judgment |
| Judgment.JudgeLanesScore | src/scenes/main_scene.go:410-457 | the judgments' score gain is the sum of each lane's `LaneGain` against the chart before any of them, so the lanes are judged independently |
| Judgment.FrameJudgesLane | src/scenes/main_scene.go:357-457 | in a frame, a triggered lane whose first active note after the position pass is within 20 ticks has that note hit, and the lane's other notes end as the position pass left them |
| Judgment.FrameScoreByLane | src/scenes/main_scene.go:357-457 | a frame's score rises by exactly the sum of the three lanes' `LaneGain` after the position pass (100 within 10 ticks, 50 within 20, else 0) |
| Judgment.LateHitsArePerfect | src/scenes/main_scene.go:357-442 | a note left active by the position pass and pressed at or after its tick is Perfect, and a Good verdict means the press was more than 10 ticks early |
| Judgment.JudgeLanesUntriggered | src/scenes/main_scene.go:410-412 | with no lane's trigger set the judgments change nothing |
| Judgment.FrameJudgesOnlyTriggeredLanes | src/scenes/main_scene.go:410-457 | a note of a lane that was not triggered, or of a lane id beyond the three instruments, ends the frame as the position pass left it |
| Judgment.FrameWithoutTriggers | src/scenes/main_scene.go:357-466 | a frame with no key press, click or touch in any lane leaves the score unchanged and the chart as the position pass left it; the volumes are those of the position pass, or all full when playback had stopped |
| Judgment.FrameVolume | src/scenes/main_scene.go:368-466 | after a frame a lane is at full volume if playback had stopped or a note of it was hit; otherwise muted if a note of it was missed; otherwise unchanged |
| Judgment.JudgeLaneVolume | src/scenes/main_scene.go:434-441 | a press sets its lane's volume to full exactly when it deactivates a note and leaves the others |
| Judgment.JudgeLanesVolume | src/scenes/main_scene.go:410-457 | after the judgments a lane is at full volume exactly when one of its notes was deactivated, else unchanged |
| Judgment.LaneChangedCompose | src/scenes/main_scene.go:410-457 | across two rounds of deactivation a lane changed overall exactly when it changed in one of them |
| MainScenes.Truncate | src/scenes/main_scene.go:334 | Go's float-to-int conversion truncates toward zero |
| MainScenes.LoadPercent | src/scenes/main_scene.go:334 | no defined value with a zero total; otherwise within 0..100 for a count within the total, and exactly 100 when loading is complete |
| MainScenes.NewChart | src/scenes/main_scene.go:176-180 | the decoded chart becomes a fresh array holding exactly the given notes |
| MainScenes.CursorBox | src/scenes/main_scene.go:387-395 | the pointer box is the 5x5 square at the first touch, else at the cursor on a fresh click, else at the origin |
| MainScenes.MainScene.NewGameScene | src/scenes/main_scene.go:99-107 | a new scene is unloaded, in the menu state, with an empty chart, clock and score at zero and no band members |
| MainScenes.MainScene.FirstLoad | src/scenes/main_scene.go:114-304 | loading stores the chart in a fresh array, sets the three lanes, mutes the three players, creates the band members, counts 20 steps of a total of 19, and enters play loaded |
| MainScenes.MainScene.LoadBandMembers | src/scenes/main_scene.go:257-300 | three distinct fresh animations, each two frames of row 0 at 32 ticks per frame, with sheets 176x111, 176x111 and 128x112 |
| MainScenes.MainScene.Update | src/scenes/main_scene.go:318-330 | dispatches on the state: the menu publishes load progress, play runs the play frame, finish does nothing; always returns the game scene |
| MainScenes.MainScene.UpdateInGameMenu | src/scenes/main_scene.go:332-336 | while not loaded, the progress becomes `int(count / total * 100)`; otherwise it is unchanged |
| MainScenes.MainScene.AdvanceBand | src/scenes/main_scene.go:346-348 | each of the three band animations is updated once |
| MainScenes.MainScene.RepositionNotes | src/scenes/main_scene.go:357-380 | the chart and volumes after the in-place loop are exactly `AfterPositions` of the old ones |
| MainScenes.MainScene.FindFirstActive | src/scenes/main_scene.go:413-426 | the search returns exactly `FirstActive` of the chart, with the distance of that note, or infinity when there is none |
| MainScenes.MainScene.JudgePress | src/scenes/main_scene.go:429-455 | judging a press in place yields exactly `JudgeLane` of the old chart, score and volumes |
| MainScenes.MainScene.SetPressedFlags | src/scenes/main_scene.go:397-408 | Man1 is pressed by held Left or a touch of lane 0, Man2 by Right or lane 2, Man3 by Down or lane 1 |
| MainScenes.MainScene.JudgePresses | src/scenes/main_scene.go:410-457 | the in-place lane loop yields exactly `JudgeLanes` over the triggered lanes |
| MainScenes.MainScene.PlayNotes | src/scenes/main_scene.go:357-466 | after the clock has moved, chart, score and volumes become exactly `PlayFrame` of the old ones, and the pressed flags follow the held keys and touches |
| MainScenes.MainScene.UpdateInGamePlay | src/scenes/main_scene.go:345-473 | one play frame: animations advanced, clock moved by `ticksPerSec * dt`, chart, score and volumes equal to `PlayFrame` of the old ones, pressed flags set from held keys and touches |

## Left out

- Asset loading (font, images, audio decoding) and the `log.Fatal` exits on decoding errors: I/O, not game logic. `FirstLoad` counts each step's `loadCount++`, but the asset itself is not modelled.
- JSON decoding of the chart: `FirstLoad` takes the decoded chart as a parameter.
- Audio playback: `SetVolume` is a per-lane volume value. `IsPlaying` is the `bassIsPlaying` parameter. `Play`, `Pause` and `Rewind` are not modelled, and neither is the menu's pause-and-rewind branch once loaded (main_scene.go:337-342).
- `time.Since`/`time.Now` and the `lastFrame` field: the elapsed seconds are the `dt` parameter.
- Drawing (`Draw*`, the sprite positions, colours, `noteLineWidth`, `firstNoteX`) and the debug `fmt.Println` output: rendering only.
- The touch ID buffer `touchIDs` and its reuse: the model receives the current touches as a sequence.
- The interface plumbing (`OnEnter`, `OnExit`, `ExportProperties`, `IsLoaded`), the game shell in `src/game.go`, and the `lang`, `entities` and embedding packages: outside the scene's logic.
- Numeric representation: ticks, positions, speeds and volumes are exact reals. float32 and float64 rounding is not modelled, and neither is 64-bit wrap-around of `score`, `loadCount`, the animation's `frame + step` or tile arithmetic.
- Pointer identity of chart notes (`[]*Note`): the chart is an array of note values updated in place, so aliasing between chart entries is not captured.
- MainScenes.LoadPercent: with a total of zero the Go quotient is NaN, and its conversion to int has no defined value; the model returns no value there and `UpdateInGameMenu` then keeps the old progress.
- MainScenes.MainScene.FirstLoad: the intermediate `state = inGameMenu` and `loadCount = 0` at the start are not separately visible, since loading runs to completion before any update.

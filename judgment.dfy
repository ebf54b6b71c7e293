/** The rules of one play frame of the main scene, as pure functions on
    values: the tick clock, the note positions and the automatic miss, the
    lane triggers, and the judgment of a press against the lane's first
    active note. The class in `MainScenes` updates its fields step by step
    and is proved to end in the state these functions describe. */
module Judgment {
  import opened Geometry
  import opened Notes

  datatype Option<T> = None | Some(value: T)

  // Scene constants of the judgment band (top and height, in pixels).
  const NoteY: int := 200
  const NoteHeight: int := 145

  // Fields that the scene constructor sets and nothing reassigns.
  const TicksPerSec: real := 100.0
  const NoteSpeed: real := 0.7
  const HitZoneY: real := 338.0

  // Timing windows, in ticks, and the points they award.
  const PerfectWindow: real := 10.0
  const GoodWindow: real := 20.0
  const PerfectPoints: int := 100
  const GoodPoints: int := 50

  /** The three lanes: Left, Down and Right, with their touch rectangles. */
  function LaneConfig(): (lanes: seq<Instrument>)
    ensures |lanes| == 3
  {
    [ Instrument(KeyLeft, Rect(500, 348, 536, 374)),
      Instrument(KeyDown, Rect(547, 348, 581, 374)),
      Instrument(KeyRight, Rect(586, 348, 621, 374)) ]
  }

  // ---------------------------------------------------------------------
  // Clock

  /** One frame of the virtual clock, `dt` seconds after the previous one. */
  function AdvanceTick(tick: real, dt: real): real
  {
    tick + TicksPerSec * dt
  }

  /** The clock after one frame per element of `dts`, in order. */
  function TickAfter(tick: real, dts: seq<real>): real
    decreases dts
  {
    if |dts| == 0 then tick else TickAfter(AdvanceTick(tick, dts[0]), dts[1..])
  }

  function Sum(xs: seq<real>): real
  {
    if |xs| == 0 then 0.0 else xs[0] + Sum(xs[1..])
  }

  /** Over any sequence of frames the clock has moved by exactly
      `TicksPerSec` times the total elapsed time, and it has not moved back
      when no delta is negative. */
  lemma {:induction false} TickAfterIsSum(tick: real, dts: seq<real>)
    ensures TickAfter(tick, dts) == tick + TicksPerSec * Sum(dts)
    ensures (forall i :: 0 <= i < |dts| ==> dts[i] >= 0.0) ==> TickAfter(tick, dts) >= tick
    decreases dts
  {
    if |dts| > 0 {
      TickAfterIsSum(AdvanceTick(tick, dts[0]), dts[1..]);
      if forall i :: 0 <= i < |dts| ==> dts[i] >= 0.0 {
        assert forall i :: 0 <= i < |dts[1..]| ==> dts[1..][i] >= 0.0 by {
          forall i | 0 <= i < |dts[1..]| ensures dts[1..][i] >= 0.0 {
            assert dts[1..][i] == dts[i + 1];
          }
        }
      }
    }
  }

  // ---------------------------------------------------------------------
  // Note positions and the automatic miss

  /** The position update of one note at the current tick: an active note
      is placed relative to the hit zone and deactivated once it has passed
      the bottom of the judgment band; an inactive note is left alone. */
  function Reposition(n: Note, tick: real): Note
  {
    if !n.isActive then n
    else
      var y := HitZoneY - (n.tick - tick) * NoteSpeed;
      n.(yPosition := y, isActive := !(y > (NoteY + NoteHeight) as real))
  }

  /** The note was active and the position update deactivated it. */
  predicate Missed(n: Note, tick: real)
  {
    n.isActive && !Reposition(n, tick).isActive
  }

  /** An inactive note keeps every field. An active note keeps its lane and
      tick, is placed at `HitZoneY - (tick of note - tick) * NoteSpeed`, and
      is missed exactly when it is more than 10 ticks late. */
  lemma RepositionEffect(n: Note, tick: real)
    ensures !n.isActive ==> Reposition(n, tick) == n
    ensures n.isActive ==>
      Reposition(n, tick).lane == n.lane && Reposition(n, tick).tick == n.tick &&
      Reposition(n, tick).yPosition == HitZoneY - (n.tick - tick) * NoteSpeed
    ensures Missed(n, tick) <==> n.isActive && tick - n.tick > 10.0
    ensures n.isActive && n.tick == tick ==> Reposition(n, tick).yPosition == HitZoneY
  {
  }

  /** The position pass over the whole chart: inactive notes are left as
      they are; every active note keeps its lane and tick, is placed at
      `HitZoneY - (note tick - tick) * NoteSpeed`, and stays active exactly
      when it is at most 10 ticks late. */
  function RepositionAll(chart: seq<Note>, tick: real): (r: seq<Note>)
    ensures |r| == |chart|
    ensures forall j :: 0 <= j < |chart| && !chart[j].isActive ==> r[j] == chart[j]
    ensures forall j :: 0 <= j < |chart| && chart[j].isActive ==>
      r[j].lane == chart[j].lane && r[j].tick == chart[j].tick &&
      r[j].yPosition == HitZoneY - (chart[j].tick - tick) * NoteSpeed &&
      (r[j].isActive <==> tick - chart[j].tick <= 10.0)
  {
    seq(|chart|, j requires 0 <= j < |chart| => Reposition(chart[j], tick))
  }

  /** `SetVolume` on the player of the given lane; a lane id outside the
      three instruments selects no player. */
  function SetVolume(volume: seq<real>, lane: LaneId, x: real): (r: seq<real>)
    requires |volume| == 3
    ensures |r| == 3
    ensures forall l :: 0 <= l < 3 ==> r[l] == if l == lane then x else volume[l]
  {
    if lane <= BassLaneId then volume[lane := x] else volume
  }

  /** The three cases of the player switch: the guitar, the drums and the
      bass lane each set their own player, and any other lane id none. */
  lemma SetVolumeSwitch(volume: seq<real>, lane: LaneId, x: real)
    requires |volume| == 3
    ensures var r := SetVolume(volume, lane, x);
      (lane == GuitarLaneId ==> r == [x, volume[DrumsLaneId], volume[BassLaneId]]) &&
      (lane == DrumsLaneId ==> r == [volume[GuitarLaneId], x, volume[BassLaneId]]) &&
      (lane == BassLaneId ==> r == [volume[GuitarLaneId], volume[DrumsLaneId], x]) &&
      (lane > BassLaneId ==> r == volume)
  {
  }

  /** The volumes after the position loop over `chart`, in chart order:
      each missed note mutes its lane. */
  function SilenceMisses(volume: seq<real>, chart: seq<Note>, tick: real): (r: seq<real>)
    requires |volume| == 3
    ensures |r| == 3
  {
    if |chart| == 0 then volume
    else
      var w := SilenceMisses(volume, chart[..|chart| - 1], tick);
      var n := chart[|chart| - 1];
      if Missed(n, tick) then SetVolume(w, n.lane, 0.0) else w
  }

  /** A lane is muted by the position loop exactly when one of its notes
      was missed; the other lanes keep their volume. */
  lemma {:induction false} SilenceMissesAt(volume: seq<real>, chart: seq<Note>, tick: real, l: nat)
    requires |volume| == 3 && l < 3
    ensures SilenceMisses(volume, chart, tick)[l] ==
      if exists j :: 0 <= j < |chart| && chart[j].lane == l && Missed(chart[j], tick)
      then 0.0 else volume[l]
  {
    if |chart| > 0 {
      var front := chart[..|chart| - 1];
      SilenceMissesAt(volume, front, tick, l);
      if exists j :: 0 <= j < |front| && front[j].lane == l && Missed(front[j], tick) {
        var j :| 0 <= j < |front| && front[j].lane == l && Missed(front[j], tick);
        assert chart[j] == front[j];
      }
      if exists j :: 0 <= j < |chart| && chart[j].lane == l && Missed(chart[j], tick) {
        var j :| 0 <= j < |chart| && chart[j].lane == l && Missed(chart[j], tick);
        if j < |front| {
          assert front[j] == chart[j];
        }
      }
    }
  }

  // ---------------------------------------------------------------------
  // Input

  /** One frame's input: keys pressed this frame, keys held, whether the
      left mouse button was pressed this frame, the cursor, and the current
      touch points in the order the platform reports them. */
  datatype Input = Input(
    justPressed: set<Key>,
    held: set<Key>,
    mouseJustPressed: bool,
    cursor: Point,
    touches: seq<Point>)

  /** The pointer point: the first touch if any, else the cursor on a fresh
      click, else the origin. */
  function PointerPoint(input: Input): Point
  {
    var p := if input.mouseJustPressed then input.cursor else Point(0, 0);
    if |input.touches| > 0 then input.touches[0] else p
  }

  /** The 5 by 5 box at the pointer point that is tested against the
      lanes' touch rectangles. */
  function PointerBox(input: Input): Rectangle
  {
    var p := PointerPoint(input);
    Rect(p.x, p.y, p.x + 5, p.y + 5)
  }

  predicate Touches(input: Input, lane: Instrument)
  {
    In(PointerBox(input), lane.touchRange)
  }

  /** The lane is judged this frame: its key went down, or the pointer
      box lies inside its touch rectangle. */
  predicate Triggered(input: Input, lane: Instrument)
  {
    lane.key in input.justPressed || Touches(input, lane)
  }

  /** Where the pointer point must be for the box to touch each lane. */
  lemma TouchZones(input: Input)
    ensures var p := PointerPoint(input);
      (Touches(input, LaneConfig()[0]) <==> 500 <= p.x <= 531 && 348 <= p.y <= 369) &&
      (Touches(input, LaneConfig()[1]) <==> 547 <= p.x <= 576 && 348 <= p.y <= 369) &&
      (Touches(input, LaneConfig()[2]) <==> 586 <= p.x <= 616 && 348 <= p.y <= 369)
  {
  }

  /** The touch rectangles are apart, so the pointer touches at most one
      lane per frame. */
  lemma PointerTouchesAtMostOneLane(input: Input, i: nat, j: nat)
    requires i < 3 && j < 3 && i != j
    ensures !(Touches(input, LaneConfig()[i]) && Touches(input, LaneConfig()[j]))
  {
    TouchZones(input);
  }

  /** Without a click or a touch the box sits at the origin, inside no
      lane, and only keys trigger lanes. */
  lemma NoPointerOnlyKeysTrigger(input: Input, i: nat)
    requires !input.mouseJustPressed && input.touches == [] && i < 3
    ensures Triggered(input, LaneConfig()[i]) <==> LaneConfig()[i].key in input.justPressed
  {
    TouchZones(input);
  }

  /** The lanes judged this frame. Lane `i` is judged exactly when its key
      went down or the pointer point leaves room for the whole 5 by 5 box
      inside the lane's touch rectangle. */
  function Triggers(input: Input, lanes: seq<Instrument>): (r: seq<bool>)
    ensures |r| == |lanes|
    ensures forall i :: 0 <= i < |lanes| ==>
      (r[i] <==>
        lanes[i].key in input.justPressed ||
        (lanes[i].touchRange.min.x <= PointerPoint(input).x &&
         PointerPoint(input).x + 5 <= lanes[i].touchRange.max.x &&
         lanes[i].touchRange.min.y <= PointerPoint(input).y &&
         PointerPoint(input).y + 5 <= lanes[i].touchRange.max.y))
  {
    seq(|lanes|, i requires 0 <= i < |lanes| => Triggered(input, lanes[i]))
  }

  // ---------------------------------------------------------------------
  // Judgment

  /** The part of the scene that a frame's judgment reads and writes. */
  datatype PlayState = PlayState(chart: seq<Note>, score: int, volume: seq<real>)

  function Abs(x: real): real { if x < 0.0 then -x else x }

  datatype Verdict = Perfect | Good | NoHit

  /** The timing windows, tested in ascending order. */
  function Classify(d: real): (v: Verdict)
    ensures v == Perfect <==> d <= 10.0
    ensures v == Good <==> 10.0 < d <= 20.0
    ensures v == NoHit <==> d > 20.0
  {
    if d <= PerfectWindow then Perfect
    else if d <= GoodWindow then Good
    else NoHit
  }

  function Points(v: Verdict): int
  {
    match v
    case Perfect => PerfectPoints
    case Good => GoodPoints
    case NoHit => 0
  }

  predicate InLane(n: Note, lane: LaneId)
  {
    n.isActive && n.lane == lane
  }

  /** The first active note of the lane in chart order, if there is one. */
  function FirstActive(chart: seq<Note>, lane: LaneId): (r: Option<nat>)
    ensures r.None? <==> forall j :: 0 <= j < |chart| ==> !InLane(chart[j], lane)
    ensures r.Some? ==>
      r.value < |chart| && InLane(chart[r.value], lane) &&
      forall j :: 0 <= j < r.value ==> !InLane(chart[j], lane)
  {
    if |chart| == 0 then None
    else if InLane(chart[0], lane) then Some(0)
    else
      match FirstActive(chart[1..], lane)
      case None => None
      case Some(k) => Some(k + 1)
  }

  /** The judgment of a press in `lane` at `tick`. */
  function JudgeLane(s: PlayState, lane: LaneId, tick: real): PlayState
    requires |s.volume| == 3
  {
    match FirstActive(s.chart, lane)
    case None => s
    case Some(k) =>
      var v := Classify(Abs(s.chart[k].tick - tick));
      if v == NoHit then s
      else PlayState(s.chart[k := s.chart[k].(isActive := false)],
                     s.score + Points(v),
                     SetVolume(s.volume, s.chart[k].lane, 1.0))
  }

  /** The judgments of lanes `0 .. n - 1`, in lane order, for the lanes
      whose trigger is set. */
  function JudgeLanes(s: PlayState, triggers: seq<bool>, tick: real, n: nat): (r: PlayState)
    requires |s.volume| == 3 && n <= |triggers|
    ensures |r.volume| == 3 && |r.chart| == |s.chart|
  {
    if n == 0 then s
    else
      var p := JudgeLanes(s, triggers, tick, n - 1);
      if triggers[n - 1] then JudgeLane(p, n - 1, tick) else p
  }

  /** The whole rule of one play frame, once the clock shows `tick`:
      positions and misses, the judgments, and the restart of the backing
      tracks at full volume when playback had stopped. */
  function PlayFrame(s: PlayState, tick: real, input: Input, bassIsPlaying: bool): PlayState
    requires |s.volume| == 3
  {
    var positioned := AfterPositions(s, tick);
    var judged := JudgeLanes(positioned, Triggers(input, LaneConfig()), tick, 3);
    if bassIsPlaying then judged else judged.(volume := [1.0, 1.0, 1.0])
  }

  function AfterPositions(s: PlayState, tick: real): (r: PlayState)
    requires |s.volume| == 3
    ensures |r.volume| == 3
  {
    PlayState(RepositionAll(s.chart, tick), s.score, SilenceMisses(s.volume, s.chart, tick))
  }

  // ---------------------------------------------------------------------
  // Properties of the judgment

  /** What one press does, for each distance `d` between the first active
      note of the lane and the clock: within 10 ticks 100 points, within 20
      ticks 50 points, the note deactivated and its lane at full volume;
      otherwise, or with no active note in the lane, nothing at all. */
  lemma JudgeLaneOutcome(s: PlayState, lane: LaneId, tick: real)
    requires |s.volume| == 3
    ensures var r := JudgeLane(s, lane, tick);
      match FirstActive(s.chart, lane)
      case None => r == s
      case Some(k) =>
        var d := Abs(s.chart[k].tick - tick);
        (d > 20.0 ==> r == s) &&
        (d <= 20.0 ==>
          r.chart == s.chart[k := s.chart[k].(isActive := false)] &&
          r.score == s.score + (if d <= 10.0 then 100 else 50) &&
          (lane < 3 ==> r.volume == s.volume[lane := 1.0]) &&
          (lane >= 3 ==> r.volume == s.volume))
  {
  }

  function ActiveCount(chart: seq<Note>): nat
  {
    if |chart| == 0 then 0
    else ActiveCount(chart[..|chart| - 1]) + (if chart[|chart| - 1].isActive then 1 else 0)
  }

  /** Deactivating an active note lowers the active count by one. */
  lemma {:induction false} ActiveCountDeactivate(chart: seq<Note>, k: nat)
    requires k < |chart| && chart[k].isActive
    ensures ActiveCount(chart[k := chart[k].(isActive := false)]) + 1 == ActiveCount(chart)
  {
    var c' := chart[k := chart[k].(isActive := false)];
    var m := |chart| - 1;
    if k < m {
      ActiveCountDeactivate(chart[..m], k);
      assert c'[..m] == chart[..m][k := chart[k].(isActive := false)];
    } else {
      assert c'[..m] == chart[..m];
    }
  }

  /** One press changes at most one note, an active note of that lane,
      and only by deactivating it; the score rises by 50 or 100 exactly
      when it does, and otherwise nothing changes. */
  lemma JudgeLaneEffect(s: PlayState, lane: LaneId, tick: real)
    requires |s.volume| == 3
    ensures var r := JudgeLane(s, lane, tick);
      |r.chart| == |s.chart| && |r.volume| == 3 &&
      (forall j :: 0 <= j < |s.chart| && r.chart[j] != s.chart[j] ==>
         InLane(s.chart[j], lane) && r.chart[j] == s.chart[j].(isActive := false)) &&
      (forall j1, j2 ::
         (0 <= j1 < |s.chart| && 0 <= j2 < |s.chart| &&
          r.chart[j1] != s.chart[j1] && r.chart[j2] != s.chart[j2]) ==> j1 == j2) &&
      ((r.chart == s.chart && r.score == s.score) ||
       ((r.score == s.score + 50 || r.score == s.score + 100) &&
        ActiveCount(r.chart) + 1 == ActiveCount(s.chart)))
  {
    JudgeLaneChanges(s, lane, tick);
    match FirstActive(s.chart, lane)
    case None =>
    case Some(k) =>
      if Classify(Abs(s.chart[k].tick - tick)) != NoHit {
        ActiveCountDeactivate(s.chart, k);
      }
  }

  /** The notes a press changes: at most one, an active note of its lane,
      which it deactivates. */
  lemma JudgeLaneChanges(s: PlayState, lane: LaneId, tick: real)
    requires |s.volume| == 3
    ensures var r := JudgeLane(s, lane, tick);
      |r.chart| == |s.chart| &&
      (forall j :: 0 <= j < |s.chart| && r.chart[j] != s.chart[j] ==>
         InLane(s.chart[j], lane) && r.chart[j] == s.chart[j].(isActive := false)) &&
      (forall j1, j2 ::
         (0 <= j1 < |s.chart| && 0 <= j2 < |s.chart| &&
          r.chart[j1] != s.chart[j1] && r.chart[j2] != s.chart[j2]) ==> j1 == j2)
  {
    match FirstActive(s.chart, lane)
    case None =>
    case Some(k) =>
  }

  /** The number of lanes among `0 .. n - 1` whose trigger is set. */
  function TriggeredCount(triggers: seq<bool>, n: nat): (c: nat)
    requires n <= |triggers|
    ensures c <= n
    ensures c == 0 <==> forall i :: 0 <= i < n ==> !triggers[i]
  {
    if n == 0 then 0
    else TriggeredCount(triggers, n - 1) + (if triggers[n - 1] then 1 else 0)
  }

  /** Judgments only ever deactivate notes, change none of their other
      fields, leave inactive notes alone, and award between 50 and 100
      points per note they deactivate. A deactivated note lies in a lane
      below `n` whose trigger is set, and no more notes go than lanes are
      triggered. */
  lemma {:induction false} JudgeLanesEffect(s: PlayState, triggers: seq<bool>, tick: real, n: nat)
    requires |s.volume| == 3 && n <= |triggers|
    ensures var r := JudgeLanes(s, triggers, tick, n);
      var gone := ActiveCount(s.chart) - ActiveCount(r.chart);
      ActiveCount(r.chart) <= ActiveCount(s.chart) && gone <= TriggeredCount(triggers, n) &&
      50 * gone <= r.score - s.score <= 100 * gone &&
      (forall j :: 0 <= j < |s.chart| && r.chart[j] != s.chart[j] ==>
         s.chart[j].isActive && s.chart[j].lane < n && triggers[s.chart[j].lane] &&
         r.chart[j] == s.chart[j].(isActive := false))
  {
    JudgeLanesDeactivates(s, triggers, tick, n);
    if n > 0 {
      var p := JudgeLanes(s, triggers, tick, n - 1);
      JudgeLanesEffect(s, triggers, tick, n - 1);
      if triggers[n - 1] {
        JudgeLaneEffect(p, n - 1, tick);
      }
    }
  }

  /** The notes the judgments of a frame change: active notes of triggered
      lanes below `n`, which they deactivate. */
  lemma {:induction false} JudgeLanesDeactivates(s: PlayState, triggers: seq<bool>, tick: real, n: nat)
    requires |s.volume| == 3 && n <= |triggers|
    ensures var r := JudgeLanes(s, triggers, tick, n);
      |r.chart| == |s.chart| && |r.volume| == 3 &&
      (forall j :: 0 <= j < |s.chart| && r.chart[j] != s.chart[j] ==>
         s.chart[j].isActive && s.chart[j].lane < n && triggers[s.chart[j].lane] &&
         r.chart[j] == s.chart[j].(isActive := false))
  {
    if n > 0 {
      var p := JudgeLanes(s, triggers, tick, n - 1);
      JudgeLanesDeactivates(s, triggers, tick, n - 1);
      if triggers[n - 1] {
        var r := JudgeLane(p, n - 1, tick);
        JudgeLaneChanges(p, n - 1, tick);
        DeactivationsCompose(s.chart, p.chart, r.chart, triggers, n);
      }
    }
  }

  /** A round that deactivates active notes of triggered lanes below
      `n - 1`, followed by a press in the triggered lane `n - 1`, together
      deactivate only active notes of triggered lanes below `n`. */
  lemma DeactivationsCompose(a: seq<Note>, b: seq<Note>, c: seq<Note>, triggers: seq<bool>, n: nat)
    requires 1 <= n <= |triggers| && triggers[n - 1] && |b| == |a| && |c| == |a|
    requires forall j :: 0 <= j < |a| && b[j] != a[j] ==>
      a[j].isActive && a[j].lane < n - 1 && triggers[a[j].lane] && b[j] == a[j].(isActive := false)
    requires forall j :: 0 <= j < |a| && c[j] != b[j] ==>
      InLane(b[j], n - 1) && c[j] == b[j].(isActive := false)
    ensures forall j :: 0 <= j < |a| && c[j] != a[j] ==>
      a[j].isActive && a[j].lane < n && triggers[a[j].lane] && c[j] == a[j].(isActive := false)
  {
    forall j | 0 <= j < |a| && c[j] != a[j]
      ensures a[j].isActive && a[j].lane < n && triggers[a[j].lane] &&
              c[j] == a[j].(isActive := false)
    {
      if b[j] != a[j] {
        assert !b[j].isActive;
        assert c[j] == b[j];
      } else {
        assert InLane(b[j], n - 1);
      }
    }
  }

  /** Two notes deactivated by the judgments of lanes `0 .. n - 1` are in
      different lanes. */
  lemma {:induction false} JudgeLanesOnePerLane(s: PlayState, triggers: seq<bool>, tick: real, n: nat)
    requires |s.volume| == 3 && n <= |triggers|
    ensures var r := JudgeLanes(s, triggers, tick, n);
      forall j1, j2 ::
        (0 <= j1 < |s.chart| && 0 <= j2 < |s.chart| && j1 != j2 &&
         r.chart[j1] != s.chart[j1] && r.chart[j2] != s.chart[j2]) ==>
        s.chart[j1].lane != s.chart[j2].lane
  {
    if n > 0 {
      var p := JudgeLanes(s, triggers, tick, n - 1);
      JudgeLanesOnePerLane(s, triggers, tick, n - 1);
      if triggers[n - 1] {
        var r := JudgeLane(p, n - 1, tick);
        JudgeLanesDeactivates(s, triggers, tick, n - 1);
        JudgeLaneChanges(p, n - 1, tick);
        OnePerLaneCompose(s.chart, p.chart, r.chart, n - 1);
      }
    }
  }

  /** A round that deactivates notes of distinct lanes below `lane`,
      followed by a press that changes at most one note, of `lane`, leaves
      the changed notes in distinct lanes. */
  lemma OnePerLaneCompose(a: seq<Note>, b: seq<Note>, c: seq<Note>, lane: LaneId)
    requires |b| == |a| && |c| == |a|
    requires forall j :: 0 <= j < |a| && b[j] != a[j] ==>
      a[j].lane < lane && b[j] == a[j].(isActive := false)
    requires forall j1, j2 ::
      (0 <= j1 < |a| && 0 <= j2 < |a| && j1 != j2 && b[j1] != a[j1] && b[j2] != a[j2]) ==>
      a[j1].lane != a[j2].lane
    requires forall j :: 0 <= j < |a| && c[j] != b[j] ==> InLane(b[j], lane)
    requires forall j1, j2 ::
      (0 <= j1 < |a| && 0 <= j2 < |a| && c[j1] != b[j1] && c[j2] != b[j2]) ==> j1 == j2
    ensures forall j1, j2 ::
      (0 <= j1 < |a| && 0 <= j2 < |a| && j1 != j2 && c[j1] != a[j1] && c[j2] != a[j2]) ==>
      a[j1].lane != a[j2].lane
  {
    forall j1, j2 | 0 <= j1 < |a| && 0 <= j2 < |a| && j1 != j2 &&
        c[j1] != a[j1] && c[j2] != a[j2]
      ensures a[j1].lane != a[j2].lane
    {
      if b[j1] != a[j1] && b[j2] != a[j2] {
      } else if b[j1] != a[j1] {
        assert c[j2] != b[j2];
      } else if b[j2] != a[j2] {
        assert c[j1] != b[j1];
      } else {
        // both would be the one note the press changes
        assert false;
      }
    }
  }

  // ---------------------------------------------------------------------
  // Properties of a whole frame

  predicate JudgedInFrame(s: PlayState, tick: real, r: PlayState, j: nat)
    requires j < |s.chart| && |r.chart| == |s.chart|
  {
    RepositionAll(s.chart, tick)[j].isActive && !r.chart[j].isActive
  }

  /** A frame never reactivates a note and never touches an inactive
      one; it keeps every note's lane and tick; and every note still
      active afterwards was active before, is at most 10 ticks late and
      sits at its scrolled position. */
  lemma {:induction false} FrameNoteStates(s: PlayState, tick: real, input: Input, bassIsPlaying: bool)
    requires |s.volume| == 3
    ensures var r := PlayFrame(s, tick, input, bassIsPlaying);
      |r.chart| == |s.chart| &&
      forall j :: 0 <= j < |s.chart| ==>
        (!s.chart[j].isActive ==> r.chart[j] == s.chart[j]) &&
        r.chart[j].lane == s.chart[j].lane && r.chart[j].tick == s.chart[j].tick &&
        (r.chart[j].isActive ==>
           s.chart[j].isActive && tick - s.chart[j].tick <= 10.0 &&
           r.chart[j].yPosition == HitZoneY - (s.chart[j].tick - tick) * NoteSpeed)
  {
    var positioned := AfterPositions(s, tick);
    var triggers := Triggers(input, LaneConfig());
    JudgeLanesEffect(positioned, triggers, tick, 3);
    var r := PlayFrame(s, tick, input, bassIsPlaying);
    forall j | 0 <= j < |s.chart|
      ensures (!s.chart[j].isActive ==> r.chart[j] == s.chart[j]) &&
        r.chart[j].lane == s.chart[j].lane && r.chart[j].tick == s.chart[j].tick &&
        (r.chart[j].isActive ==>
           s.chart[j].isActive && tick - s.chart[j].tick <= 10.0 &&
           r.chart[j].yPosition == HitZoneY - (s.chart[j].tick - tick) * NoteSpeed)
    {
      RepositionEffect(s.chart[j], tick);
    }
  }

  /** The score of a frame rises by 50 to 100 points for each note the
      judgments deactivate — at most three, at most one per lane — and
      never falls. */
  lemma FrameScore(s: PlayState, tick: real, input: Input, bassIsPlaying: bool)
    requires |s.volume| == 3
    ensures var r := PlayFrame(s, tick, input, bassIsPlaying);
      var before := ActiveCount(RepositionAll(s.chart, tick));
      var gone := before - ActiveCount(r.chart);
      |r.chart| == |s.chart| &&
      ActiveCount(r.chart) <= before && gone <= 3 &&
      s.score <= s.score + 50 * gone <= r.score <= s.score + 100 * gone &&
      forall j1, j2 ::
        (0 <= j1 < |s.chart| && 0 <= j2 < |s.chart| && j1 != j2 &&
         JudgedInFrame(s, tick, r, j1) && JudgedInFrame(s, tick, r, j2)) ==>
        s.chart[j1].lane != s.chart[j2].lane
  {
    var positioned := AfterPositions(s, tick);
    JudgeLanesEffect(positioned, Triggers(input, LaneConfig()), tick, 3);
    JudgeLanesOnePerLane(positioned, Triggers(input, LaneConfig()), tick, 3);
  }

  /** With no trigger set among lanes `0 .. n - 1` the judgments change
      nothing. */
  lemma {:induction false} JudgeLanesUntriggered(s: PlayState, triggers: seq<bool>, tick: real, n: nat)
    requires |s.volume| == 3 && n <= |triggers|
    requires forall i :: 0 <= i < n ==> !triggers[i]
    ensures JudgeLanes(s, triggers, tick, n) == s
  {
    if n > 0 {
      JudgeLanesUntriggered(s, triggers, tick, n - 1);
    }
  }

  /** A frame judges nothing in a lane that was not triggered: every note
      of such a lane, and every note with a lane id beyond the three
      instruments, ends the frame exactly as the position pass left it. */
  lemma FrameJudgesOnlyTriggeredLanes(s: PlayState, tick: real, input: Input, bassIsPlaying: bool)
    requires |s.volume| == 3
    ensures var r := PlayFrame(s, tick, input, bassIsPlaying);
      |r.chart| == |s.chart| &&
      forall j ::
        (0 <= j < |s.chart| &&
         (s.chart[j].lane >= 3 || !Triggered(input, LaneConfig()[s.chart[j].lane]))) ==>
        r.chart[j] == RepositionAll(s.chart, tick)[j]
  {
    var positioned := AfterPositions(s, tick);
    var triggers := Triggers(input, LaneConfig());
    JudgeLanesEffect(positioned, triggers, tick, 3);
    var r := PlayFrame(s, tick, input, bassIsPlaying);
    forall j | 0 <= j < |s.chart| &&
        (s.chart[j].lane >= 3 || !Triggered(input, LaneConfig()[s.chart[j].lane]))
      ensures r.chart[j] == RepositionAll(s.chart, tick)[j]
    {
      assert positioned.chart[j].lane == s.chart[j].lane;
      if s.chart[j].lane < 3 {
        assert !triggers[s.chart[j].lane];
      }
    }
  }

  /** A frame without any key press, click or touch in a lane only moves
      the notes and misses the late ones: the score is unchanged, and the
      volumes are those of the position pass, or all full when playback had
      stopped. */
  lemma FrameWithoutTriggers(s: PlayState, tick: real, input: Input, bassIsPlaying: bool)
    requires |s.volume| == 3
    requires forall i :: 0 <= i < 3 ==> !Triggered(input, LaneConfig()[i])
    ensures var r := PlayFrame(s, tick, input, bassIsPlaying);
      r.chart == RepositionAll(s.chart, tick) && r.score == s.score &&
      r.volume == if bassIsPlaying then SilenceMisses(s.volume, s.chart, tick) else [1.0, 1.0, 1.0]
  {
    var triggers := Triggers(input, LaneConfig());
    assert forall i :: 0 <= i < 3 ==> !triggers[i] by {
      forall i | 0 <= i < 3 ensures !triggers[i] {
        assert !Triggered(input, LaneConfig()[i]);
      }
    }
    JudgeLanesUntriggered(AfterPositions(s, tick), triggers, tick, 3);
  }

  /** The points a press in `lane` earns when judged against `chart`: 100
      or 50 when the lane's first active note is within the Perfect or the
      Good window of the clock, and nothing otherwise. */
  function LaneGain(chart: seq<Note>, triggered: bool, lane: LaneId, tick: real): (g: int)
    ensures g == 0 || g == GoodPoints || g == PerfectPoints
    ensures g != 0 <==>
      triggered && FirstActive(chart, lane).Some? &&
      Abs(chart[FirstActive(chart, lane).value].tick - tick) <= GoodWindow
  {
    if !triggered then 0
    else
      match FirstActive(chart, lane)
      case None => 0
      case Some(k) => Points(Classify(Abs(chart[k].tick - tick)))
  }

  /** The points of lanes `0 .. n - 1`, each judged against `chart`. */
  function Gains(chart: seq<Note>, triggers: seq<bool>, tick: real, n: nat): int
    requires n <= |triggers|
  {
    if n == 0 then 0
    else Gains(chart, triggers, tick, n - 1) + LaneGain(chart, triggers[n - 1], n - 1, tick)
  }

  /** Changing only notes of other lanes, and none of their lanes, leaves
      the first active note of `lane` where it was. */
  lemma SameFirst(a: seq<Note>, b: seq<Note>, lane: LaneId)
    requires |b| == |a|
    requires forall j :: 0 <= j < |a| && b[j] != a[j] ==>
      a[j].lane != lane && b[j].lane == a[j].lane
    ensures FirstActive(b, lane) == FirstActive(a, lane)
  {
    assert forall j :: 0 <= j < |a| ==> (InLane(b[j], lane) <==> InLane(a[j], lane)) by {
      forall j | 0 <= j < |a| ensures InLane(b[j], lane) <==> InLane(a[j], lane) {
        if b[j] != a[j] {
          assert !InLane(a[j], lane) && !InLane(b[j], lane);
        }
      }
    }
  }

  /** The lanes judged after lane `i` leave the notes of lane `i` as the
      judgment of lane `i` left them. */
  lemma {:induction false} JudgeLanesKeepLane(s: PlayState, triggers: seq<bool>, tick: real, n: nat, i: LaneId)
    requires |s.volume| == 3 && i < n <= |triggers|
    ensures var q := JudgeLanes(s, triggers, tick, i + 1);
      var r := JudgeLanes(s, triggers, tick, n);
      forall j :: 0 <= j < |s.chart| && s.chart[j].lane == i ==> r.chart[j] == q.chart[j]
  {
    if n > i + 1 {
      JudgeLanesKeepLane(s, triggers, tick, n - 1, i);
      JudgeLanesDeactivates(s, triggers, tick, n - 1);
      var p := JudgeLanes(s, triggers, tick, n - 1);
      if triggers[n - 1] {
        JudgeLaneChanges(p, n - 1, tick);
        forall j | 0 <= j < |s.chart| && s.chart[j].lane == i
          ensures JudgeLane(p, n - 1, tick).chart[j] == p.chart[j]
        {
          assert p.chart[j].lane == i;
        }
      }
    }
  }

  /** The judgment of lane `i` among lanes `0 .. n - 1`, stated against the
      chart before any of them: when the lane is triggered and its first
      active note `k` lies within 20 ticks of the clock, `k` is deactivated,
      and every other note of the lane comes out unchanged. */
  lemma JudgeLanesLane(s: PlayState, triggers: seq<bool>, tick: real, n: nat, i: LaneId)
    requires |s.volume| == 3 && i < n <= |triggers|
    ensures var r := JudgeLanes(s, triggers, tick, n);
      match FirstActive(s.chart, i)
      case None =>
        forall j :: 0 <= j < |s.chart| && s.chart[j].lane == i ==> r.chart[j] == s.chart[j]
      case Some(k) =>
        var hit := triggers[i] && Abs(s.chart[k].tick - tick) <= 20.0;
        (hit ==> r.chart[k] == s.chart[k].(isActive := false)) &&
        forall j :: 0 <= j < |s.chart| && s.chart[j].lane == i && (j != k || !hit) ==>
          r.chart[j] == s.chart[j]
  {
    var p := JudgeLanes(s, triggers, tick, i);
    JudgeLanesDeactivates(s, triggers, tick, i);
    forall j | 0 <= j < |s.chart| && p.chart[j] != s.chart[j]
      ensures s.chart[j].lane != i && p.chart[j].lane == s.chart[j].lane
    {
    }
    SameFirst(s.chart, p.chart, i);
    JudgeLanesKeepLane(s, triggers, tick, n, i);
    if triggers[i] {
      JudgeLaneOutcome(p, i, tick);
    }
  }

  /** The score after the judgments of lanes `0 .. n - 1` is the sum of
      what each lane earns against the chart before any of them: the lanes
      are judged independently. */
  lemma {:induction false} JudgeLanesScore(s: PlayState, triggers: seq<bool>, tick: real, n: nat)
    requires |s.volume| == 3 && n <= |triggers|
    ensures JudgeLanes(s, triggers, tick, n).score == s.score + Gains(s.chart, triggers, tick, n)
  {
    if n > 0 {
      JudgeLanesScore(s, triggers, tick, n - 1);
      JudgeLanesScoreStep(s, triggers, tick, n);
    }
  }

  /** Judging lane `n - 1` after lanes `0 .. n - 2` adds what that lane
      earns against the chart before any of them. */
  lemma JudgeLanesScoreStep(s: PlayState, triggers: seq<bool>, tick: real, n: nat)
    requires |s.volume| == 3 && 0 < n <= |triggers|
    ensures JudgeLanes(s, triggers, tick, n).score ==
      JudgeLanes(s, triggers, tick, n - 1).score + LaneGain(s.chart, triggers[n - 1], n - 1, tick)
  {
    var p := JudgeLanes(s, triggers, tick, n - 1);
    if triggers[n - 1] {
      JudgeLanesDeactivates(s, triggers, tick, n - 1);
      forall j | 0 <= j < |s.chart| && p.chart[j] != s.chart[j]
        ensures s.chart[j].lane != n - 1 && p.chart[j].lane == s.chart[j].lane
      {
      }
      JudgeLaneGain(p, s.chart, n - 1, tick);
    }
  }

  /** A press earns what `LaneGain` gives against any chart `a` that has
      the same notes of the lane as the chart it is judged against. */
  lemma JudgeLaneGain(p: PlayState, a: seq<Note>, lane: LaneId, tick: real)
    requires |p.volume| == 3 && |p.chart| == |a|
    requires forall j :: 0 <= j < |a| && p.chart[j] != a[j] ==>
      a[j].lane != lane && p.chart[j].lane == a[j].lane
    ensures JudgeLane(p, lane, tick).score == p.score + LaneGain(a, true, lane, tick)
  {
    SameFirst(a, p.chart, lane);
    match FirstActive(a, lane)
    case None =>
    case Some(k) =>
      assert p.chart[k] == a[k];
  }

  /** In a frame, a triggered lane whose first active note after the
      position pass lies within 20 ticks of the clock has that note hit;
      every other note of the lane ends the frame as the position pass
      left it. */
  lemma FrameJudgesLane(s: PlayState, tick: real, input: Input, bassIsPlaying: bool, i: LaneId)
    requires |s.volume| == 3 && i < 3
    ensures var pos := RepositionAll(s.chart, tick);
      var r := PlayFrame(s, tick, input, bassIsPlaying);
      |r.chart| == |pos| &&
      match FirstActive(pos, i)
      case None =>
        forall j :: 0 <= j < |pos| && pos[j].lane == i ==> r.chart[j] == pos[j]
      case Some(k) =>
        var hit := Triggered(input, LaneConfig()[i]) && Abs(pos[k].tick - tick) <= 20.0;
        (hit ==> r.chart[k] == pos[k].(isActive := false)) &&
        forall j :: 0 <= j < |pos| && pos[j].lane == i && (j != k || !hit) ==>
          r.chart[j] == pos[j]
  {
    var triggers := Triggers(input, LaneConfig());
    assert triggers[i] == Triggered(input, LaneConfig()[i]);
    JudgeLanesLane(AfterPositions(s, tick), triggers, tick, 3, i);
  }

  /** The score of a frame rises by exactly what the three lanes earn, each
      judged against the chart after the position pass: 100 for a
      triggered lane whose first active note is within 10 ticks, 50 within
      20 ticks, and nothing otherwise. */
  lemma FrameScoreByLane(s: PlayState, tick: real, input: Input, bassIsPlaying: bool)
    requires |s.volume| == 3
    ensures var pos := RepositionAll(s.chart, tick);
      PlayFrame(s, tick, input, bassIsPlaying).score ==
        s.score + LaneGain(pos, Triggered(input, LaneConfig()[0]), 0, tick)
                + LaneGain(pos, Triggered(input, LaneConfig()[1]), 1, tick)
                + LaneGain(pos, Triggered(input, LaneConfig()[2]), 2, tick)
  {
    var triggers := Triggers(input, LaneConfig());
    assert triggers[0] == Triggered(input, LaneConfig()[0]);
    assert triggers[1] == Triggered(input, LaneConfig()[1]);
    assert triggers[2] == Triggered(input, LaneConfig()[2]);
    var pos := RepositionAll(s.chart, tick);
    JudgeLanesScore(AfterPositions(s, tick), triggers, tick, 3);
    assert Gains(pos, triggers, tick, 1) == LaneGain(pos, triggers[0], 0, tick);
    assert Gains(pos, triggers, tick, 2) == Gains(pos, triggers, tick, 1) + LaneGain(pos, triggers[1], 1, tick);
    assert Gains(pos, triggers, tick, 3) ==
      LaneGain(pos, triggers[0], 0, tick) + LaneGain(pos, triggers[1], 1, tick) +
      LaneGain(pos, triggers[2], 2, tick);
  }

  /** A note still active after the position pass is at most 10 ticks
      late, so a press after its tick always lands in the Perfect window:
      the late half of the Good window is never reached, and a Good verdict
      comes only from an early press. */
  lemma LateHitsArePerfect(chart: seq<Note>, tick: real, j: nat)
    requires j < |chart| && RepositionAll(chart, tick)[j].isActive
    ensures var d := RepositionAll(chart, tick)[j].tick - tick;
      (d <= 0.0 ==> Classify(Abs(d)) == Perfect) &&
      (Classify(Abs(d)) == Good ==> d > 10.0)
  {
    RepositionEffect(chart[j], tick);
  }

  /** Some note of lane `l` differs between `before` and `after`. */
  ghost predicate LaneChanged(before: seq<Note>, after: seq<Note>, l: nat)
    requires |after| == |before|
  {
    exists j :: 0 <= j < |before| && before[j].lane == l && after[j] != before[j]
  }

  /** The lane volumes a frame leaves behind. With playback running, a
      lane that had a note deactivated by judgment is at full volume; any
      other lane that had a note missed is muted; the rest keep their
      volume. When playback had stopped all three are at full volume. */
  lemma FrameVolume(s: PlayState, tick: real, input: Input, bassIsPlaying: bool, l: nat)
    requires |s.volume| == 3 && l < 3
    ensures var positioned := AfterPositions(s, tick);
      var r := PlayFrame(s, tick, input, bassIsPlaying);
      var missed := exists j :: 0 <= j < |s.chart| && s.chart[j].lane == l && Missed(s.chart[j], tick);
      |r.chart| == |positioned.chart| && |r.volume| == 3 &&
      r.volume[l] ==
        if !bassIsPlaying || LaneChanged(positioned.chart, r.chart, l) then 1.0
        else if missed then 0.0
        else s.volume[l]
  {
    var positioned := AfterPositions(s, tick);
    SilenceMissesAt(s.volume, s.chart, tick, l);
    JudgeLanesVolume(positioned, Triggers(input, LaneConfig()), tick, 3, l);
  }

  /** One press sets the volume of its lane to full when it deactivates a
      note and leaves every other volume alone. */
  lemma JudgeLaneVolume(p: PlayState, lane: LaneId, tick: real, l: nat)
    requires |p.volume| == 3 && l < 3
    ensures var r := JudgeLane(p, lane, tick);
      |r.chart| == |p.chart| && |r.volume| == 3 &&
      r.volume[l] == if LaneChanged(p.chart, r.chart, l) then 1.0 else p.volume[l]
  {
    var r := JudgeLane(p, lane, tick);
    match FirstActive(p.chart, lane)
    case None =>
      assert r == p;
    case Some(k) =>
      if Classify(Abs(p.chart[k].tick - tick)) == NoHit {
        assert r == p;
      } else {
        assert r.chart[k] != p.chart[k];
        assert forall j :: 0 <= j < |p.chart| && j != k ==> r.chart[j] == p.chart[j];
        if l == lane {
          assert LaneChanged(p.chart, r.chart, l);
        } else {
          assert !LaneChanged(p.chart, r.chart, l);
        }
      }
  }

  /** A lane's volume after the judgments of lanes `0 .. n - 1`: full if
      one of its notes was deactivated by them, unchanged otherwise. */
  lemma {:induction false} JudgeLanesVolume(s: PlayState, triggers: seq<bool>, tick: real, n: nat, l: nat)
    requires |s.volume| == 3 && n <= |triggers| && l < 3
    ensures var r := JudgeLanes(s, triggers, tick, n);
      r.volume[l] == if LaneChanged(s.chart, r.chart, l) then 1.0 else s.volume[l]
  {
    if n > 0 {
      var p := JudgeLanes(s, triggers, tick, n - 1);
      JudgeLanesVolume(s, triggers, tick, n - 1, l);
      if triggers[n - 1] {
        var r := JudgeLane(p, n - 1, tick);
        JudgeLanesEffect(s, triggers, tick, n - 1);
        JudgeLaneEffect(p, n - 1, tick);
        JudgeLaneVolume(p, n - 1, tick, l);
        LaneChangedCompose(s.chart, p.chart, r.chart, l);
      }
    }
  }

  /** Composing two rounds of judgment: the first only deactivates notes,
      the second only changes active ones. A lane changed overall if and
      only if it changed in one of the two rounds. */
  lemma LaneChangedCompose(a: seq<Note>, b: seq<Note>, c: seq<Note>, l: nat)
    requires |b| == |a| && |c| == |a|
    requires forall j :: 0 <= j < |a| && b[j] != a[j] ==> b[j] == a[j].(isActive := false)
    requires forall j :: 0 <= j < |a| && c[j] != b[j] ==> b[j].isActive && c[j] == b[j].(isActive := false)
    ensures LaneChanged(a, c, l) <==> LaneChanged(a, b, l) || LaneChanged(b, c, l)
  {
    if LaneChanged(a, b, l) {
      var j :| 0 <= j < |a| && a[j].lane == l && b[j] != a[j];
      assert c[j] != a[j];
    }
    if LaneChanged(b, c, l) {
      var j :| 0 <= j < |b| && b[j].lane == l && c[j] != b[j];
      assert a[j] == b[j];
    }
    if LaneChanged(a, c, l) {
      var j :| 0 <= j < |a| && a[j].lane == l && c[j] != a[j];
      if b[j] == a[j] {
        assert LaneChanged(b, c, l);
      } else {
        assert LaneChanged(a, b, l);
      }
    }
  }
}

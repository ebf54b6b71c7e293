/** The main scene of the game: its state, its loading step, the per-frame
    dispatch on the in-game state, and the play update, which changes the
    scene's fields and the chart in place, step by step. */
module MainScenes {
  import opened Geometry
  import opened Notes
  import opened Judgment
  import opened Animations
  import opened SpriteSheets

  datatype InGameState = InGameMenu | InGamePlay | InGameFinish

  datatype SceneId = GameSceneId | SplashSceneId | MenuSceneId | ExitSceneId

  /** `math.Inf(1)` or a finite distance, as the nearest-note search uses. */
  datatype Bound = PosInf | Finite(v: real)

  predicate Below(x: real, b: Bound) { b.PosInf? || x < b.v }

  predicate AtMost(b: Bound, x: real) { b.Finite? && b.v <= x }

  /** Go's conversion of a float to an int, which truncates toward zero. */
  function Truncate(x: real): (r: int)
    ensures x >= 0.0 ==> r as real <= x < r as real + 1.0
    ensures x < 0.0 ==> r as real - 1.0 < x <= r as real
  {
    if x >= 0.0 then x.Floor else -((-x).Floor)
  }

  /** The loading progress `int(count / total * 100)`; with no total the
      quotient is not a number and its conversion has no defined value. */
  function LoadPercent(count: int, total: int): (r: Option<int>)
    ensures r.None? <==> total == 0
    ensures total > 0 && 0 <= count <= total ==> r.Some? && 0 <= r.value <= 100
    ensures total > 0 && count == total ==> r == Some(100)
  {
    if total == 0 then None
    else
      var fraction := (count as real) / (total as real);
      FractionBounds(count as real, total as real);
      Some(Truncate(fraction * 100.0))
  }

  lemma FractionBounds(c: real, t: real)
    requires t != 0.0
    ensures t > 0.0 && 0.0 <= c <= t ==> 0.0 <= c / t <= 1.0
    ensures c == t ==> c / t == 1.0
  {
    if c == t {
      assert c / t * t == c;
    }
    if t > 0.0 && 0.0 <= c <= t {
      assert c / t * t == c;
    }
  }

  /** The chart slice that decoding fills, as a fresh array. */
  method NewChart(chart: seq<Note>) returns (a: array<Note>)
    ensures fresh(a) && a[..] == chart
  {
    a := new Note[|chart|](j requires 0 <= j < |chart| => chart[j]);
    assert a[..] == chart;
  }

  /** The 5 by 5 box at the pointer: at the first touch if there is one,
      else at the cursor on a fresh click, else at the origin. */
  method CursorBox(input: Input) returns (cs: Rectangle)
    ensures cs == PointerBox(input)
    ensures Canonical(cs) && cs.max.x - cs.min.x == 5 && cs.max.y - cs.min.y == 5
    ensures cs.min == PointerPoint(input)
  {
    var cX, cY := 0, 0;
    if input.mouseJustPressed {
      cX, cY := input.cursor.x, input.cursor.y;
    }
    if |input.touches| > 0 {
      cX, cY := input.touches[0].x, input.touches[0].y;
    }
    cs := Rect(cX, cY, cX + 5, cY + 5);
  }

  class MainScene {
    var isLoaded: bool
    var loadCount: int
    var loadTotal: int
    var loadPercent: int

    var state: InGameState

    // The animations and sprite sheets of the three band members
    // (`Man1`, `Man2`, `Man3`); absent until loaded.
    var man1: Animation?
    var man2: Animation?
    var man3: Animation?
    var man1Sheet: SpriteSheet
    var man2Sheet: SpriteSheet
    var man3Sheet: SpriteSheet

    var songChart: array<Note>
    var currentTick: real
    var score: int
    var lanes: seq<Instrument>
    /** The volumes of the players, indexed by lane id: `GuitarLaneId`,
      `DrumsLaneId` and `BassLaneId`. */
    var volume: seq<real>

    var isNoteMan1Pressed: bool
    var isNoteMan2Pressed: bool
    var isNoteMan3Pressed: bool

    ghost predicate Valid()
      reads this
    {
      |volume| == 3 &&
      (state == InGamePlay ==> isLoaded) &&
      (isLoaded ==>
        lanes == LaneConfig() &&
        man1 != null && man2 != null && man3 != null &&
        man1 != man2 && man1 != man3 && man2 != man3)
    }

    /** The part of the scene that the judgment rules describe. */
    ghost function PlayView(): (s: PlayState)
      reads this, songChart
    {
      PlayState(songChart[..], score, volume)
    }

    /** `NewGameScene`: an empty, unloaded scene in the menu state. */
    constructor NewGameScene()
      ensures Valid() && state == InGameMenu && !isLoaded
      ensures loadCount == 0 && loadTotal == 0 && loadPercent == 0
      ensures songChart.Length == 0 && currentTick == 0.0 && score == 0
      ensures lanes == [] && man1 == null && man2 == null && man3 == null
      ensures !isNoteMan1Pressed && !isNoteMan2Pressed && !isNoteMan3Pressed
    {
      isLoaded := false;
      loadCount, loadTotal, loadPercent := 0, 0, 0;
      state := InGameMenu;
      man1, man2, man3 := null, null, null;
      man1Sheet, man2Sheet, man3Sheet := SpriteSheet(0, 0), SpriteSheet(0, 0), SpriteSheet(0, 0);
      songChart := new Note[0];
      currentTick := 0.0;
      score := 0;
      lanes := [];
      volume := [0.0, 0.0, 0.0];
      isNoteMan1Pressed, isNoteMan2Pressed, isNoteMan3Pressed := false, false, false;
    }

    /** `FirstLoad` with the decoded chart: sets up the lanes, the muted
      players and the three band members, counts twenty loading steps
      against a total of nineteen, and enters play. */
    method FirstLoad(chart: seq<Note>)
      modifies this`isLoaded, this`loadCount, this`loadTotal, this`state
      modifies this`songChart, this`lanes, this`volume
      modifies this`man1, this`man2, this`man3, this`man1Sheet, this`man2Sheet, this`man3Sheet
      ensures Valid() && isLoaded && state == InGamePlay
      ensures loadCount == 20 && loadTotal == 19
      ensures fresh(songChart) && songChart[..] == chart
      ensures lanes == LaneConfig() && volume == [0.0, 0.0, 0.0]
      ensures BandLoaded() && fresh(man1) && fresh(man2) && fresh(man3)
    {
      var count := 0;
      // font, three lane icons, three lane images, the lanes, the chart
      count := count + 9;
      songChart := NewChart(chart);
      lanes := LaneConfig();
      // audio context and the three players, created muted; four backgrounds
      count := count + 8;
      volume := [0.0, 0.0, 0.0];
      LoadBandMembers();
      count := count + 3;
      loadCount, loadTotal := count, 19;
      state := InGamePlay;
      isLoaded := true;
    }

    /** The three band members as loading leaves them: distinct animations
      of one row of two frames, each shown for 32 ticks, and their sheets. */
    ghost predicate BandLoaded()
      reads this, man1, man2, man3
    {
      man1 != null && man2 != null && man3 != null &&
      man1 != man2 && man1 != man3 && man2 != man3 &&
      man1.State() == AnimationState(0, 1, 1, 32.0, 32.0, 0, 0) &&
      man2.State() == AnimationState(0, 1, 1, 32.0, 32.0, 0, 0) &&
      man3.State() == AnimationState(0, 1, 1, 32.0, 32.0, 0, 0) &&
      man1Sheet == SpriteSheet(176, 111) && man2Sheet == SpriteSheet(176, 111) &&
      man3Sheet == SpriteSheet(128, 112)
    }

    /** The loading of the band members: their sprite sheets and their
      animations. */
    method LoadBandMembers()
      modifies this`man1, this`man2, this`man3, this`man1Sheet, this`man2Sheet, this`man3Sheet
      ensures BandLoaded() && fresh(man1) && fresh(man2) && fresh(man3)
    {
      man1Sheet := NewSpriteSheet(176, 111);
      man2Sheet := NewSpriteSheet(176, 111);
      man3Sheet := NewSpriteSheet(128, 112);
      man1 := new Animation.NewAnimationHorizontal(0, 1, 32.0);
      man2 := new Animation.NewAnimationHorizontal(0, 1, 32.0);
      man3 := new Animation.NewAnimationHorizontal(0, 1, 32.0);
    }

    /** `Update`: one frame, dispatched on the in-game state. */
    method Update(dt: real, input: Input, bassIsPlaying: bool) returns (next: SceneId)
      requires Valid()
      modifies this`loadPercent, this`currentTick, this`score, this`volume
      modifies this`isNoteMan1Pressed, this`isNoteMan2Pressed, this`isNoteMan3Pressed
      modifies songChart, man1, man2, man3
      ensures Valid() && next == GameSceneId
      ensures old(state) == InGameMenu ==>
        loadPercent == (if !isLoaded && LoadPercent(loadCount, loadTotal).Some?
                        then LoadPercent(loadCount, loadTotal).value else old(loadPercent))
      ensures old(state) != InGameMenu ==> loadPercent == old(loadPercent)
      ensures old(state) == InGamePlay ==>
        man1.State() == Advanced(old(man1.State())) &&
        man2.State() == Advanced(old(man2.State())) &&
        man3.State() == Advanced(old(man3.State())) &&
        currentTick == AdvanceTick(old(currentTick), dt) &&
        PlayView() == PlayFrame(old(PlayView()), currentTick, input, bassIsPlaying) &&
        isNoteMan1Pressed == (KeyLeft in input.held || Touches(input, lanes[0])) &&
        isNoteMan2Pressed == (KeyRight in input.held || Touches(input, lanes[2])) &&
        isNoteMan3Pressed == (KeyDown in input.held || Touches(input, lanes[1]))
      ensures old(state) != InGamePlay ==>
        currentTick == old(currentTick) && PlayView() == old(PlayView()) &&
        isNoteMan1Pressed == old(isNoteMan1Pressed) &&
        isNoteMan2Pressed == old(isNoteMan2Pressed) &&
        isNoteMan3Pressed == old(isNoteMan3Pressed)
      ensures old(state) != InGamePlay && isLoaded ==>
        man1.State() == old(man1.State()) && man2.State() == old(man2.State()) &&
        man3.State() == old(man3.State())
    {
      match state {
        case InGameMenu =>
          UpdateInGameMenu();
        case InGamePlay =>
          UpdateInGamePlay(dt, input, bassIsPlaying);
        case InGameFinish =>
      }
      next := GameSceneId;
    }

    /** `UpdateInGameMenu`: while loading, publish the progress. */
    method UpdateInGameMenu()
      modifies this`loadPercent
      ensures loadPercent == (if !isLoaded && LoadPercent(loadCount, loadTotal).Some?
                              then LoadPercent(loadCount, loadTotal).value else old(loadPercent))
    {
      if !isLoaded {
        match LoadPercent(loadCount, loadTotal)
        case Some(p) => loadPercent := p;
        case None =>
      }
    }

    /** One animation step of each band member. */
    method AdvanceBand()
      requires man1 != null && man2 != null && man3 != null
      requires man1 != man2 && man1 != man3 && man2 != man3
      modifies man1, man2, man3
      ensures man1.State() == Advanced(old(man1.State()))
      ensures man2.State() == Advanced(old(man2.State()))
      ensures man3.State() == Advanced(old(man3.State()))
    {
      man1.Update();
      man2.Update();
      man3.Update();
    }

    /** The position pass of `UpdateInGamePlay`: every active note is placed
      by its distance in ticks from the clock, and one that has left the
      judgment band is deactivated and mutes its lane. */
    method RepositionNotes()
      requires |volume| == 3
      modifies songChart, this`volume
      ensures PlayView() == AfterPositions(old(PlayView()), currentTick)
    {
      ghost var start := PlayView();
      var j := 0;
      while j < songChart.Length
        invariant 0 <= j <= songChart.Length
        invariant |volume| == 3
        invariant forall m :: 0 <= m < j ==> songChart[m] == Reposition(start.chart[m], currentTick)
        invariant forall m :: j <= m < songChart.Length ==> songChart[m] == start.chart[m]
        invariant volume == SilenceMisses(start.volume, start.chart[..j], currentTick)
      {
        assert start.chart[..j + 1][..j] == start.chart[..j];
        var note := songChart[j];
        if note.isActive {
          var tickDifference := note.tick - currentTick;
          note := note.(yPosition := HitZoneY - tickDifference * NoteSpeed);
          if note.yPosition > (NoteY + NoteHeight) as real {
            note := note.(isActive := false);
            volume := SetVolume(volume, note.lane, 0.0);
          }
          songChart[j] := note;
        }
        j := j + 1;
      }
      assert start.chart[..songChart.Length] == start.chart;
      assert songChart[..] == RepositionAll(start.chart, currentTick);
    }

    /** The search of a pressed lane: the loop stops at the first active
      note of the lane, whose distance to the clock is below infinity. */
    method FindFirstActive(lane: LaneId) returns (bestNote: Option<nat>, minTickDiff: Bound)
      ensures bestNote == FirstActive(songChart[..], lane)
      ensures bestNote.None? ==> minTickDiff == PosInf
      ensures bestNote.Some? ==>
        minTickDiff == Finite(Abs(songChart[bestNote.value].tick - currentTick))
    {
      bestNote, minTickDiff := None, PosInf;
      var k := 0;
      while k < songChart.Length
        invariant 0 <= k <= songChart.Length
        invariant bestNote == None && minTickDiff == PosInf
        invariant forall m :: 0 <= m < k ==> !InLane(songChart[m], lane)
      {
        var note := songChart[k];
        if note.isActive && note.lane == lane {
          var tickDiff := Abs(note.tick - currentTick);
          if Below(tickDiff, minTickDiff) {
            minTickDiff := Finite(tickDiff);
            bestNote := Some(k);
            break;
          }
        }
        k := k + 1;
      }
    }

    /** The judgment of one pressed lane: its first active note, if within
      a window, is hit, scores its points and unmutes its lane. */
    method JudgePress(lane: LaneId)
      requires |volume| == 3
      modifies songChart, this`score, this`volume
      ensures PlayView() == JudgeLane(old(PlayView()), lane, currentTick)
    {
      var bestNote, minTickDiff := FindFirstActive(lane);
      if bestNote.Some? {
        var b := bestNote.value;
        if AtMost(minTickDiff, PerfectWindow) {
          score := score + PerfectPoints;
          songChart[b] := songChart[b].(isActive := false);
          volume := SetVolume(volume, songChart[b].lane, 1.0);
        } else if AtMost(minTickDiff, GoodWindow) {
          score := score + GoodPoints;
          songChart[b] := songChart[b].(isActive := false);
          volume := SetVolume(volume, songChart[b].lane, 1.0);
        }
      }
    }

    /** The pressed flags of the three band members, from the held keys
      and the pointer box: `Man1` plays the left lane, `Man2` the right
      one and `Man3` the middle one. */
    method SetPressedFlags(input: Input, cs: Rectangle)
      requires |lanes| == 3 && cs == PointerBox(input)
      modifies this`isNoteMan1Pressed, this`isNoteMan2Pressed, this`isNoteMan3Pressed
      ensures isNoteMan1Pressed == (KeyLeft in input.held || Touches(input, lanes[0]))
      ensures isNoteMan2Pressed == (KeyRight in input.held || Touches(input, lanes[2]))
      ensures isNoteMan3Pressed == (KeyDown in input.held || Touches(input, lanes[1]))
    {
      isNoteMan1Pressed := false;
      isNoteMan2Pressed := false;
      isNoteMan3Pressed := false;
      if KeyLeft in input.held || In(cs, lanes[0].touchRange) {
        isNoteMan1Pressed := true;
      }
      if KeyRight in input.held || In(cs, lanes[2].touchRange) {
        isNoteMan2Pressed := true;
      }
      if KeyDown in input.held || In(cs, lanes[1].touchRange) {
        isNoteMan3Pressed := true;
      }
    }

    /** The judgment pass: the lanes in order, each judged when its key
      went down this frame or the pointer box lies in its touch range. */
    method JudgePresses(input: Input, cs: Rectangle)
      requires |volume| == 3 && cs == PointerBox(input) && lanes == LaneConfig()
      modifies songChart, this`score, this`volume
      ensures PlayView() == JudgeLanes(old(PlayView()), Triggers(input, LaneConfig()), currentTick, 3)
    {
      ghost var start := PlayView();
      ghost var triggers := Triggers(input, lanes);
      var i := 0;
      while i < |lanes|
        invariant 0 <= i <= |lanes|
        invariant |volume| == 3
        invariant PlayView() == JudgeLanes(start, triggers, currentTick, i)
      {
        var lane := lanes[i];
        if lane.key in input.justPressed || In(cs, lane.touchRange) {
          JudgePress(i);
        }
        i := i + 1;
      }
    }

    /** `UpdateInGamePlay`: advance the three animations and the clock,
      reposition the active notes and miss the late ones, set the pressed
      flags, judge each triggered lane against its first active note, and
      restart the tracks at full volume if playback had stopped. */
    method UpdateInGamePlay(dt: real, input: Input, bassIsPlaying: bool)
      requires Valid() && isLoaded
      modifies this`currentTick, this`score, this`volume
      modifies this`isNoteMan1Pressed, this`isNoteMan2Pressed, this`isNoteMan3Pressed
      modifies songChart, man1, man2, man3
      ensures Valid()
      ensures man1.State() == Advanced(old(man1.State()))
      ensures man2.State() == Advanced(old(man2.State()))
      ensures man3.State() == Advanced(old(man3.State()))
      ensures currentTick == AdvanceTick(old(currentTick), dt)
      ensures PlayView() == PlayFrame(old(PlayView()), currentTick, input, bassIsPlaying)
      ensures isNoteMan1Pressed == (KeyLeft in input.held || Touches(input, lanes[0]))
      ensures isNoteMan2Pressed == (KeyRight in input.held || Touches(input, lanes[2]))
      ensures isNoteMan3Pressed == (KeyDown in input.held || Touches(input, lanes[1]))
    {
      AdvanceBand();
      currentTick := currentTick + TicksPerSec * dt;
      PlayNotes(input, bassIsPlaying);
    }

    /** The part of `UpdateInGamePlay` after the clock has moved: the
      position pass, the pressed flags, the judgments, and the restart of
      the tracks at full volume if playback had stopped. */
    method PlayNotes(input: Input, bassIsPlaying: bool)
      requires |volume| == 3 && lanes == LaneConfig()
      modifies this`score, this`volume
      modifies this`isNoteMan1Pressed, this`isNoteMan2Pressed, this`isNoteMan3Pressed
      modifies songChart
      ensures PlayView() == PlayFrame(old(PlayView()), currentTick, input, bassIsPlaying)
      ensures isNoteMan1Pressed == (KeyLeft in input.held || Touches(input, lanes[0]))
      ensures isNoteMan2Pressed == (KeyRight in input.held || Touches(input, lanes[2]))
      ensures isNoteMan3Pressed == (KeyDown in input.held || Touches(input, lanes[1]))
    {
      RepositionNotes();
      var cs := CursorBox(input);
      SetPressedFlags(input, cs);
      JudgePresses(input, cs);

      if !bassIsPlaying {
        volume := [1.0, 1.0, 1.0];
      }
    }
  }
}

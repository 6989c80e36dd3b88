/**
 * The `Application` object of src/index.js: the round flags, the winner
 * resolution over the disk, the painted disk, the bar lights, the glow
 * offset, the wheel pose and the game statistics. Rendering, physics, GSAP
 * tweens, DOM text and audio are outside the model; the events they deliver
 * (a ray hit, a tween tick, the ball falling asleep, a timer) are the
 * methods' inputs.
 */
module Game {
  import opened Wrappers
  import opened Numbers
  import opened Entries
  import opened Wheel
  import Random

  /** The ids of `defaultEntries`, in source order (src/index.js:79-110). */
  const DefaultIds: seq<string> := [
    "Break dance", "Do the worm", "New Haircut?", "Eat Raw", "Lick floor",
    "BeatBox", "Sing", "Tell a secret", "Kiss some1", "Tell a joke",
    "Tell a poem", "Limbo 1m", "Juggle 3 balls", "Be a statue", "3 push-ups",
    "Chili Challenge", "JINX", "HandStand", "Offer Piggyback", "Give Thanks",
    "Can't say no", "IceBucket", "New Name", "Dad Dance", "Harlem Shake",
    "New MakeUp", "Keep Talking", "Erotic eating", "Give lap dance", "Become Animal"]

  /**
   * The property key that `currentWinner.name` produces: no entry has a
   * `name` field, so the lookup yields `undefined`, which becomes this key.
   */
  const MissingNameKey: string := "undefined"

  /**
   * The first ray hit on the disk. `uvAngle` is `atan2(.5 - v, .5 - u)` of
   * the hit's (transformed) uv, absent when the hit carries no uv.
   */
  datatype Intersection = Intersection(uvAngle: Option<real>)

  /** JavaScript's `o[key]++` seen from the stored value (`undefined` becomes NaN). */
  function Increment(v: Option<JsNumber>): (r: JsNumber)
    ensures v.None? ==> r == NaN
    ensures v == Some(NaN) ==> r == NaN
    ensures v.Some? && v.value.Finite? ==> r == Finite(v.value.value + 1.0)
  {
    match v
    case None => NaN
    case Some(x) => Offset(x, 1.0)
  }

  /** Fresh demo entries, one per default id, without weights. */
  method MakeDefaults() returns (ds: seq<Entry>)
    ensures |ds| == |DefaultIds| && Distinct(ds)
    ensures forall i :: 0 <= i < |ds| ==> ds[i].id == DefaultIds[i] && ds[i].weight == None
  {
    ds := [];
    var i := 0;
    while i < |DefaultIds|
      invariant 0 <= i <= |DefaultIds| && |ds| == i
      invariant Distinct(ds)
      invariant forall j :: 0 <= j < i ==> ds[j].id == DefaultIds[j] && ds[j].weight == None
    {
      var e := new Entry(DefaultIds[i], None);
      ds := ds + [e];
      i := i + 1;
    }
  }

  /** The bar and wall bodies as `setupPhysicalWorld` creates them (src/index.js:607-642). */
  method SetupBars() returns (bars: seq<BarBodies>)
    ensures |bars| == NbBars
    ensures forall i :: 0 <= i < NbBars ==> bars[i] == SetupPlacement(i)
  {
    bars := [];
    var i := 0;
    while i < NbBars
      invariant 0 <= i <= NbBars && |bars| == i
      invariant forall j :: 0 <= j < i ==> bars[j] == SetupPlacement(j)
    {
      bars := bars + [SetupPlacement(i)];
      i := i + 1;
    }
  }

  class Application {
    const defaults: seq<Entry>
    var playing: bool
    var standBy: bool
    var entries: seq<Entry>
    /** `gameStats.players` and `gameStats.total`. */
    var players: map<string, JsNumber>
    var total: int
    var lightsMode: int
    var polarCoord: real
    var barGlowOffset: int
    var currentWinner: Entry?
    /** `cfg.container.currentRotation`, driven by a tween. */
    var currentRotation: real
    /** The wheel mesh's rotation about Z. */
    var wheelAngle: real
    var bars: seq<BarBodies>
    /** `emissiveIntensity` of each bar material. */
    var barIntensity: seq<real>
    /** The disk shader's `time` uniform. */
    var diskTime: real
    /** What the disk canvas currently shows. */
    var disk: seq<Segment>
    /** Round-end timeouts set by `onBallAsleep` that have not fired yet. */
    var pendingTimers: nat

    ghost predicate Valid()
      reads this
    {
      && |defaults| == |DefaultIds| && Distinct(defaults)
      && |entries| >= 1
      && |bars| == NbBars && |barIntensity| == NbBars
      && 0 <= barGlowOffset < NbBars
      && 0.0 <= polarCoord < 2.0 * PI
      && 0 <= lightsMode <= 2
    }

    /** `init()` together with the bars of `setupPhysicalWorld` (src/index.js:166-181). */
    constructor ()
      ensures Valid()
      ensures standBy && !playing && lightsMode == 2
      ensures polarCoord == 0.0 && barGlowOffset == 0 && currentWinner == null
      ensures players == map[] && total == 0
      ensures entries == defaults
      ensures forall i :: 0 <= i < |defaults| ==> defaults[i].id == DefaultIds[i] && defaults[i].weight == None
      ensures currentRotation == 0.0 && wheelAngle == 0.0
      ensures forall i :: 0 <= i < NbBars ==> bars[i] == SetupPlacement(i) && barIntensity[i] == 0.0
      ensures disk == [] && pendingTimers == 0 && diskTime == 1.0
    {
      var ds := MakeDefaults();
      var bs := SetupBars();
      defaults := ds;
      playing := false;
      standBy := true;
      entries := ds;
      players := map[];
      total := 0;
      lightsMode := 2;
      polarCoord := 0.0;
      barGlowOffset := 0;
      currentWinner := null;
      currentRotation := 0.0;
      wheelAngle := 0.0;
      bars := bs;
      barIntensity := seq(NbBars, _ => 0.0);
      diskTime := 1.0;
      disk := [];
      pendingTimers := 0;
    }

    /**
     * `initGame(data)`: only while standing by. A missing or empty list
     * falls back to the demo entries in shuffled order. Every id gets a
     * zero counter; nothing ever sets `standBy` again.
     */
    method InitGame(data: Option<seq<Entry>>)
      requires Valid()
      modifies this
      ensures Valid()
      ensures !old(standBy) ==> unchanged(this)
      ensures old(standBy) ==> !standBy
      ensures old(standBy) && data.Some? && |data.value| > 0 ==> entries == data.value
      ensures old(standBy) && (data.None? || |data.value| == 0) ==>
        multiset(entries) == multiset(defaults)
      ensures old(standBy) ==> players == map id | id in IdSet(entries) :: Finite(0.0)
      ensures old(standBy) ==> unchanged(this`playing, this`total, this`lightsMode, this`polarCoord,
        this`barGlowOffset, this`currentWinner, this`currentRotation, this`wheelAngle, this`bars,
        this`barIntensity, this`diskTime, this`disk, this`pendingTimers)
    {
      if standBy {
        var d: seq<Entry>;
        if data.None? || |data.value| == 0 {
          d := Random.Shuffle(defaults);
        } else {
          d := data.value;
        }
        standBy := false;
        entries := d;
        players := map id | id in IdSet(d) :: Finite(0.0);
      }
    }

    /** `startGame`: a no-op while a round is playing (src/index.js:674-679). */
    method StartGame()
      requires Valid()
      modifies this`playing, this`lightsMode
      ensures Valid()
      ensures old(playing) ==> playing && lightsMode == old(lightsMode)
      ensures !old(playing) ==> playing && lightsMode == 1
    {
      if playing {
        return;
      }
      playing := true;
      lightsMode := 1;
    }

    /**
     * `onBallAsleep`: lights back to mode 2, then the counter keyed by
     * `currentWinner.name` (always the key "undefined") goes up, and the
     * total goes up by one, and the round-end timeout is set. With no
     * winner the `.name` read throws before either counter moves and before
     * the timeout is set, so nothing ever clears `playing` for that round.
     */
    method OnBallAsleep() returns (threw: bool)
      requires Valid()
      modifies this`lightsMode, this`players, this`total, this`pendingTimers
      ensures Valid()
      ensures lightsMode == 2
      ensures threw <==> old(currentWinner) == null
      ensures threw ==> players == old(players) && total == old(total) && pendingTimers == old(pendingTimers)
      ensures !threw ==> total == old(total) + 1 && pendingTimers == old(pendingTimers) + 1
      ensures !threw ==> players == old(players)[MissingNameKey :=
        Increment(if MissingNameKey in old(players) then Some(old(players)[MissingNameKey]) else None)]
    {
      lightsMode := 2;
      if currentWinner == null {
        threw := true;
        return;
      }
      var key := MissingNameKey;
      var before := if key in players then Some(players[key]) else None;
      players := players[key := Increment(before)];
      total := total + 1;
      pendingTimers := pendingTimers + 1;
      threw := false;
    }

    /**
     * A round-end timeout set by `onBallAsleep` fires and clears `playing`
     * (src/index.js:715-716). It can only fire when one is pending.
     */
    method EndRound()
      requires Valid() && pendingTimers > 0
      modifies this`playing, this`pendingTimers
      ensures Valid() && !playing
      ensures pendingTimers == old(pendingTimers) - 1
    {
      playing := false;
      pendingTimers := pendingTimers - 1;
    }

    /** `setCurrentWinner`: reassigns only when the entry differs (src/index.js:879-885). */
    method SetCurrentWinner(entry: Entry) returns (changed: bool)
      modifies this`currentWinner
      ensures currentWinner == entry
      ensures changed <==> old(currentWinner) != entry
    {
      changed := entry != currentWinner;
      if changed {
        currentWinner := entry;
      }
    }

    /**
     * `computeCurrentWinner`: fold the hit's polar angle into [0, 2*PI) and
     * scan the slices, both ends inclusive; the last covering slice wins.
     */
    method ComputeCurrentWinner(hit: Option<Intersection>)
      requires Valid()
      requires hit.Some? && hit.value.uvAngle.Some? ==> -PI <= hit.value.uvAngle.value <= PI
      modifies this`polarCoord, this`currentWinner
      ensures Valid()
      ensures hit.None? || hit.value.uvAngle.None? ==>
        polarCoord == old(polarCoord) && currentWinner == old(currentWinner)
      ensures hit.Some? && hit.value.uvAngle.Some? ==>
        polarCoord == PolarCoord(hit.value.uvAngle.value) &&
        currentWinner == entries[SliceIndex(polarCoord, |entries|)]
    {
      if hit.Some? && hit.value.uvAngle.Some? {
        var theta := hit.value.uvAngle.value;
        var p := theta - PI;
        if p < 0.0 {
          p := p + 2.0 * PI;
        }
        assert p == PolarCoord(theta);
        polarCoord := p;
        ScanSlices(p);
      }
    }

    /** The slice scan of `computeCurrentWinner`: every covering slice in turn becomes the winner. */
    method ScanSlices(p: real)
      requires Valid() && 0.0 <= p < 2.0 * PI
      modifies this`currentWinner
      ensures Valid()
      ensures currentWinner == entries[SliceIndex(p, |entries|)]
    {
      var n := |entries|;
      var angle := SliceWidth(n);
      ghost var k := SliceIndex(p, n);
      var i := 0;
      while i < n
        invariant 0 <= i <= n
        invariant i > k ==> currentWinner == entries[k]
      {
        var startAngle := i as real * angle;
        var endAngle := (i + 1) as real * angle;
        assert (startAngle <= p && p <= endAngle) == InSlice(i, n, p);
        if startAngle <= p && p <= endAngle {
          var _ := SetCurrentWinner(entries[i]);
        }
        i := i + 1;
      }
    }

    /** `updateTexture`: repaint the disk from the entries and the winner (src/index.js:810-845). */
    method UpdateTexture()
      requires Valid()
      modifies this`disk
      ensures Valid()
      ensures disk == Disk(entries, currentWinner)
    {
      var angle := SliceWidth(|entries|);
      var painted: seq<Segment> := [];
      if |entries| > 1 {
        var i := 0;
        while i < |entries|
          invariant 0 <= i <= |entries| && |painted| == i
          invariant forall j :: 0 <= j < i ==> painted[j] == SegmentAt(entries, currentWinner, j)
        {
          var startAngle := i as real * angle;
          var endAngle := (i + 1) as real * angle;
          var fill := if currentWinner == entries[i] then Red
                      else if i % 2 == 0 then PaletteColour(i) else Black;
          painted := painted + [Segment(startAngle, endAngle, fill, entries[i].id)];
          i := i + 1;
        }
      }
      disk := painted;
    }

    /**
     * The bar-light render function of `createMaterials`
     * (src/index.js:476-503). `sin` stands for `Math.sin`.
     */
    method UpdateBarLights(sin: real -> real)
      requires Valid()
      modifies this`barIntensity, this`diskTime
      ensures Valid()
      ensures diskTime == old(diskTime) + 0.05
      ensures lightsMode == 0 ==> barIntensity == old(barIntensity)
      ensures lightsMode == 1 ==> forall i :: 0 <= i < NbBars ==>
        barIntensity[i] == BarIntensity(i, SliceIndex(polarCoord, NbBars))
      ensures lightsMode == 2 ==> forall i :: 0 <= i < NbBars ==>
        barIntensity[i] == sin(GlowPhase(barGlowOffset, i)) * 0.5 + 0.5
    {
      diskTime := diskTime + 0.05;
      if lightsMode == 0 {
        return;
      }
      if lightsMode == 1 {
        var slice := SliceWidth(NbBars);
        var ballIndex := (polarCoord / slice).Floor;
        assert ballIndex == SliceIndex(polarCoord, NbBars);
        var lit := barIntensity;
        var index := 0;
        while index < |lit|
          invariant 0 <= index <= |lit| == NbBars
          invariant forall i :: 0 <= i < index ==> lit[i] == BarIntensity(i, ballIndex)
        {
          lit := lit[index := BarIntensity(index, ballIndex)];
          index := index + 1;
        }
        barIntensity := lit;
      } else if lightsMode == 2 {
        var lit := barIntensity;
        var index := 0;
        while index < |lit|
          invariant 0 <= index <= |lit| == NbBars
          invariant forall i :: 0 <= i < index ==> lit[i] == sin(GlowPhase(barGlowOffset, i)) * 0.5 + 0.5
        {
          lit := lit[index := sin(GlowPhase(barGlowOffset, index)) * 0.5 + 0.5];
          index := index + 1;
        }
        barIntensity := lit;
      }
    }

    /** One tick of the glow-offset interval (src/index.js:298-304). */
    method GlowTick()
      requires Valid()
      modifies this`barGlowOffset
      ensures Valid()
      ensures barGlowOffset == NextGlowOffset(old(barGlowOffset))
    {
      if barGlowOffset == NbBars - 1 {
        barGlowOffset := 0;
      } else {
        barGlowOffset := barGlowOffset + 1;
      }
    }

    /** `tweenWheel`: pose every bar and wall from the current rotation (src/index.js:741-789). */
    method TweenWheel()
      requires Valid()
      modifies this`bars, this`wheelAngle
      ensures Valid()
      ensures wheelAngle == -currentRotation
      ensures forall i :: 0 <= i < NbBars ==> bars[i] == Placement(i, currentRotation)
    {
      wheelAngle := -currentRotation;
      var posed := bars;
      var i := 0;
      while i < |posed|
        invariant 0 <= i <= |posed| == NbBars
        invariant forall j :: 0 <= j < i ==> posed[j] == Placement(j, currentRotation)
      {
        posed := posed[i := Placement(i, currentRotation)];
        i := i + 1;
      }
      bars := posed;
    }

    /** A tick of the rotation tween started by `startGame`: set the angle, then `tweenWheel`. */
    method TweenTick(rotation: real)
      requires Valid()
      modifies this`currentRotation, this`bars, this`wheelAngle
      ensures Valid()
      ensures currentRotation == rotation && wheelAngle == -rotation
      ensures forall i :: 0 <= i < NbBars ==> bars[i] == Placement(i, rotation)
    {
      currentRotation := rotation;
      TweenWheel();
    }

    /**
     * One frame of the render loop once assets are loaded, in the order the
     * render functions were registered: bar lights, disk texture, winner
     * (src/index.js:476, 279, 1105). The disk is painted before the winner
     * is recomputed, so it shows the previous frame's winner.
     */
    method RenderFrame(hit: Option<Intersection>, sin: real -> real)
      requires Valid()
      requires hit.Some? && hit.value.uvAngle.Some? ==> -PI <= hit.value.uvAngle.value <= PI
      modifies this`barIntensity, this`diskTime, this`disk, this`polarCoord, this`currentWinner
      ensures Valid()
      ensures diskTime == old(diskTime) + 0.05
      ensures lightsMode == 0 ==> barIntensity == old(barIntensity)
      ensures lightsMode == 1 ==> forall i :: 0 <= i < NbBars ==>
        barIntensity[i] == BarIntensity(i, SliceIndex(old(polarCoord), NbBars))
      ensures lightsMode == 2 ==> forall i :: 0 <= i < NbBars ==>
        barIntensity[i] == sin(GlowPhase(barGlowOffset, i)) * 0.5 + 0.5
      ensures disk == Disk(entries, old(currentWinner))
      ensures hit.None? || hit.value.uvAngle.None? ==>
        polarCoord == old(polarCoord) && currentWinner == old(currentWinner)
      ensures hit.Some? && hit.value.uvAngle.Some? ==>
        polarCoord == PolarCoord(hit.value.uvAngle.value) &&
        currentWinner == entries[SliceIndex(polarCoord, |entries|)]
    {
      UpdateBarLights(sin);
      UpdateTexture();
      ComputeCurrentWinner(hit);
    }
  }

  /** A winner's own counter never moves: only the "undefined" key does. */
  lemma WinnerCountsNeverMove(players: map<string, JsNumber>, id: string)
    requires id != MissingNameKey && id in players
    ensures var after := players[MissingNameKey :=
              Increment(if MissingNameKey in players then Some(players[MissingNameKey]) else None)];
            id in after && after[id] == players[id]
  {
  }

  /** Unless some entry is literally named "undefined", the first win already stores NaN. */
  lemma FirstWinStoresNaN(entries: seq<Entry>)
    requires MissingNameKey !in IdSet(entries)
    ensures var players := map id | id in IdSet(entries) :: Finite(0.0);
            Increment(if MissingNameKey in players then Some(players[MissingNameKey]) else None) == NaN
  {
  }
}

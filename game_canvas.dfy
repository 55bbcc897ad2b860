/** The falling-item engine of the game canvas: the per-frame step (spawn, decay,
    retirement of finished items and texts), the click handler (topmost hit wins)
    and the reset performed when a session enters RUNNING. Drawing, scheduling and
    the random source are outside; random samples arrive as parameters. */
module GameCanvas {
  import opened Types
  import opened Easing

  // ---------------------------------------------------------------------------
  // Constants of the arena and the game

  const FloorPad: real := 46.0
  const OverlayDecayMs: real := 520.0
  const FirstFrameDtMs: real := 16.0
  const TextDurationMs: real := 650.0
  const HitRadiusFactor: real := 0.45
  const BtcDelta: int := 10
  const BombDelta: int := -15

  /** A `Math.random()` sample. */
  predicate IsUnitSample(u: real) { 0.0 <= u < 1.0 }

  /** `d * u`, kept apart so that its bound is proved once. */
  function Scale(u: real, d: real): (r: real)
    ensures IsUnitSample(u) && 0.0 < d ==> 0.0 <= r < d
  {
    assert d - d * u == d * (1.0 - u);
    d * u
  }

  /** `randomBetween(min, max)` for the sample u: a value in [min, max). */
  function RandomBetween(min: real, max: real, u: real): (r: real)
    ensures IsUnitSample(u) && min < max ==> min <= r < max
  {
    Scale(u, max - min) + min
  }

  /** `pickType()`: 78% coins, 22% bombs. */
  function PickType(u: real): (t: ItemType)
    ensures t == BTC <==> u < 0.78
  {
    if u < 0.78 then BTC else BOMB
  }

  /** The three fall-duration tiers sampled once when the module loads; only EASY
      is used by the spawner. */
  datatype FallingLevels = FallingLevels(easy: real, medium: real, hard: real) {
    predicate Valid() {
      2600.0 <= easy < 4200.0 && 1600.0 <= medium < 2400.0 && 1200.0 <= hard < 2000.0
    }
  }

  function SampleLevels(u1: real, u2: real, u3: real): (l: FallingLevels)
    requires IsUnitSample(u1) && IsUnitSample(u2) && IsUnitSample(u3)
    ensures l.Valid()
  {
    FallingLevels(RandomBetween(2600.0, 4200.0, u1), RandomBetween(1600.0, 2400.0, u2),
                  RandomBetween(1200.0, 2000.0, u3))
  }

  /** The random draws of one RUNNING frame: the spawn threshold is drawn on every
      such frame, the other samples and the fresh id only when an item spawns. */
  datatype SpawnDraws = SpawnDraws(threshold: real, size: real, x: real, kind: real, fall: real, id: string) {
    predicate Valid() {
      IsUnitSample(threshold) && IsUnitSample(size) && IsUnitSample(x)
      && IsUnitSample(kind) && IsUnitSample(fall)
    }
  }

  /** `520 + randomBetween(-120, 160)`. */
  function SpawnThreshold(u: real): (r: real)
    requires IsUnitSample(u)
    ensures 400.0 <= r < 680.0
  {
    520.0 + RandomBetween(-120.0, 160.0, u)
  }

  /** The sizes and fall durations every spawned item has. */
  predicate WellFormed(item: FallingItem) {
    54.0 <= item.size < 88.0 && 2500.0 <= item.fallDurationMs < 4500.0
  }

  /** The item a spawn appends. It is unclicked and starts now; with in-range
      samples its size lies in [54,88) and its fall duration in [2500,4500), and
      when the arena is wide enough its whole circle lies at least 12 units inside
      the left and right edges. */
  function NewItem(d: SpawnDraws, now: real, arenaWidth: real, easyMs: real): (item: FallingItem)
    ensures !item.clicked && item.spawnAt == now && item.id == d.id
    ensures item.kind == BTC <==> d.kind < 0.78
    ensures d.Valid() && 2600.0 <= easyMs < 4200.0 ==> WellFormed(item)
    ensures d.Valid() && arenaWidth - item.size - 24.0 > 0.0 ==>
              12.0 <= item.x - item.size / 2.0 && item.x + item.size / 2.0 < arenaWidth - 12.0
  {
    var size := RandomBetween(54.0, 88.0, d.size);
    FallingItem(d.id, PickType(d.kind),
                RandomBetween(size / 2.0 + 12.0, arenaWidth - size / 2.0 - 12.0, d.x),
                size, now, easyMs + RandomBetween(-100.0, 300.0, d.fall), false)
  }

  // ---------------------------------------------------------------------------
  // Position: one formula for drawing and for hit-testing

  /** Normalised fall progress: 0 at spawn, 1 on reaching the floor. */
  function Progress(item: FallingItem, now: real): real
    requires item.fallDurationMs > 0.0
  {
    (now - item.spawnAt) / item.fallDurationMs
  }

  /** The centre height of an item: from one size above the arena down to just
      above the floor line, along the eased progress. */
  function ItemY(item: FallingItem, now: real, floorY: real): real
    requires item.fallDurationMs > 0.0
  {
    Lerp(-item.size, floorY - item.size / 2.0 - 4.0, EaseInOutCubic(Progress(item, now)))
  }

  /** Items only fall: later instants put an item at the same height or lower
      (larger y), between its start and end heights. */
  lemma {:induction false} ItemFalls(item: FallingItem, t1: real, t2: real, floorY: real)
    requires item.fallDurationMs > 0.0 && t1 <= t2
    requires -item.size <= floorY - item.size / 2.0 - 4.0
    ensures ItemY(item, t1, floorY) <= ItemY(item, t2, floorY)
    ensures -item.size <= ItemY(item, t1, floorY) <= floorY - item.size / 2.0 - 4.0
  {
    var d := item.fallDurationMs;
    assert Progress(item, t1) <= Progress(item, t2) by {
      assert Progress(item, t2) - Progress(item, t1) == (t2 - t1) / d;
    }
    EaseMonotone(Progress(item, t1), Progress(item, t2));
    EaseInUnit(Progress(item, t1));
    LerpMonotone(-item.size, floorY - item.size / 2.0 - 4.0,
                 EaseInOutCubic(Progress(item, t1)), EaseInOutCubic(Progress(item, t2)));
    LerpBetween(-item.size, floorY - item.size / 2.0 - 4.0, EaseInOutCubic(Progress(item, t1)));
  }

  /** The drawing heights of a sequence of items at one instant. */
  function Heights(items: seq<FallingItem>, now: real, floorY: real): (ys: seq<real>)
    requires forall i :: 0 <= i < |items| ==> items[i].fallDurationMs > 0.0
    ensures |ys| == |items|
    ensures forall i :: 0 <= i < |items| ==> ys[i] == ItemY(items[i], now, floorY)
  {
    seq(|items|, i requires 0 <= i < |items| => ItemY(items[i], now, floorY))
  }

  /** Every drawn height lies between its item's start and end heights. */
  lemma {:induction false} HeightsWithinFall(items: seq<FallingItem>, now: real, floorY: real, i: int)
    requires forall j :: 0 <= j < |items| ==> items[j].fallDurationMs > 0.0
    requires 0 <= i < |items|
    requires -items[i].size <= floorY - items[i].size / 2.0 - 4.0
    ensures -items[i].size <= Heights(items, now, floorY)[i] <= floorY - items[i].size / 2.0 - 4.0
  {
    ItemFalls(items[i], now, now, floorY);
  }

  /** `hitTestCircle`: the point lies in the closed disc of radius r. */
  predicate HitTestCircle(px: real, py: real, cx: real, cy: real, r: real) {
    var dx := px - cx;
    var dy := py - cy;
    dx * dx + dy * dy <= r * r
  }

  /** The boundary counts as a hit, and so does the centre. */
  lemma {:induction false} HitTestBoundary(cx: real, cy: real, r: real)
    requires r >= 0.0
    ensures HitTestCircle(cx, cy, cx, cy, r)
    ensures HitTestCircle(cx + r, cy, cx, cy, r)
    ensures HitTestCircle(cx, cy - r, cx, cy, r)
    ensures !HitTestCircle(cx + r + 1.0, cy, cx, cy, r)
  {
    assert (r + 1.0) * (r + 1.0) == r * r + 2.0 * r + 1.0;
  }

  // ---------------------------------------------------------------------------
  // Per-frame retirement

  predicate AllTimed(items: seq<FallingItem>) {
    forall i :: 0 <= i < |items| ==> items[i].fallDurationMs > 0.0
  }

  /** An item stays in play while it is unclicked and has not reached the floor. */
  predicate StaysInPlay(item: FallingItem, now: real)
    requires item.fallDurationMs > 0.0
  {
    !item.clicked && Progress(item, now) < 1.0
  }

  /** The items a frame keeps, in their original order. */
  function Survivors(items: seq<FallingItem>, now: real): (r: seq<FallingItem>)
    requires AllTimed(items)
    ensures |r| <= |items| && AllTimed(r)
  {
    if items == [] then []
    else
      var last := items[|items| - 1];
      Survivors(items[..|items| - 1], now) + (if StaysInPlay(last, now) then [last] else [])
  }

  /** An item survives a frame exactly when it was in play and still is. */
  lemma {:induction false} SurvivorsMembership(items: seq<FallingItem>, now: real, x: FallingItem)
    requires AllTimed(items)
    ensures x in Survivors(items, now) <==> x in items && x.fallDurationMs > 0.0 && StaysInPlay(x, now)
  {
    if items != [] {
      var init := items[..|items| - 1];
      SurvivorsMembership(init, now, x);
      assert items == init + [items[|items| - 1]];
    }
  }

  /** Retirement keeps the relative order: filtering a concatenation filters each
      part. */
  lemma {:induction false} SurvivorsAppend(a: seq<FallingItem>, b: seq<FallingItem>, now: real)
    requires AllTimed(a) && AllTimed(b)
    ensures AllTimed(a + b)
    ensures Survivors(a + b, now) == Survivors(a, now) + Survivors(b, now)
    decreases |b|
  {
    if b != [] {
      var bi := b[..|b| - 1];
      assert (a + b)[..|a + b| - 1] == a + bi;
      SurvivorsAppend(a, bi, now);
    } else {
      assert a + b == a;
    }
  }

  predicate TextLive(t: FloatingText, now: real)
    requires t.durationMs > 0.0
  {
    (now - t.spawnAt) / t.durationMs < 1.0
  }

  predicate AllTextsTimed(texts: seq<FloatingText>) {
    forall i :: 0 <= i < |texts| ==> texts[i].durationMs > 0.0
  }

  /** The floating texts a frame keeps, in their original order. */
  function LiveTexts(texts: seq<FloatingText>, now: real): (r: seq<FloatingText>)
    requires AllTextsTimed(texts)
    ensures |r| <= |texts| && AllTextsTimed(r)
  {
    if texts == [] then []
    else
      var last := texts[|texts| - 1];
      LiveTexts(texts[..|texts| - 1], now) + (if TextLive(last, now) then [last] else [])
  }

  /** Expiry keeps the relative order: filtering a concatenation filters each
      part. */
  lemma {:induction false} LiveTextsAppend(a: seq<FloatingText>, b: seq<FloatingText>, now: real)
    requires AllTextsTimed(a) && AllTextsTimed(b)
    ensures AllTextsTimed(a + b)
    ensures LiveTexts(a + b, now) == LiveTexts(a, now) + LiveTexts(b, now)
    decreases |b|
  {
    if b != [] {
      var bi := b[..|b| - 1];
      assert (a + b)[..|a + b| - 1] == a + bi;
      LiveTextsAppend(a, bi, now);
    } else {
      assert a + b == a;
    }
  }

  lemma {:induction false} LiveTextsMembership(texts: seq<FloatingText>, now: real, x: FloatingText)
    requires AllTextsTimed(texts)
    ensures x in LiveTexts(texts, now) <==> x in texts && x.durationMs > 0.0 && TextLive(x, now)
  {
    if texts != [] {
      var init := texts[..|texts| - 1];
      LiveTextsMembership(init, now, x);
      assert texts == init + [texts[|texts| - 1]];
    }
  }

  // ---------------------------------------------------------------------------
  // Clicks

  /** An item a click at (px, py) hits: unclicked, on screen (progress in [0,1)),
      and the point inside the circle of radius 0.45 * size around its position. */
  predicate Hittable(item: FallingItem, px: real, py: real, now: real, floorY: real)
    requires item.fallDurationMs > 0.0
  {
    && !item.clicked
    && 0.0 <= Progress(item, now) < 1.0
    && HitTestCircle(px, py, item.x, ItemY(item, now, floorY), item.size * HitRadiusFactor)
  }

  /** The item a click consumes: the newest hittable one. */
  function TopmostHit(items: seq<FallingItem>, px: real, py: real, now: real, floorY: real): (r: Option<nat>)
    requires AllTimed(items)
    ensures r.Some? ==> r.value < |items| && Hittable(items[r.value], px, py, now, floorY)
    ensures r.Some? ==> forall j :: r.value < j < |items| ==> !Hittable(items[j], px, py, now, floorY)
    ensures r.None? ==> forall j :: 0 <= j < |items| ==> !Hittable(items[j], px, py, now, floorY)
  {
    if items == [] then None
    else if Hittable(items[|items| - 1], px, py, now, floorY) then Some(|items| - 1)
    else TopmostHit(items[..|items| - 1], px, py, now, floorY)
  }

  /** A click exactly on the centre of the newest item that is unclicked and in
      flight consumes that item, whatever lies beneath it. */
  lemma {:induction false} CentreClickHitsNewest(items: seq<FallingItem>, now: real, floorY: real)
    requires AllTimed(items) && items != []
    requires var top := items[|items| - 1];
      !top.clicked && 0.0 <= Progress(top, now) < 1.0 && top.size >= 0.0
    ensures var top := items[|items| - 1];
      TopmostHit(items, top.x, ItemY(top, now, floorY), now, floorY) == Some(|items| - 1)
  {
    var top := items[|items| - 1];
    HitTestBoundary(top.x, ItemY(top, now, floorY), top.size * HitRadiusFactor);
  }

  function HitDelta(kind: ItemType): int {
    if kind == BTC then BtcDelta else BombDelta
  }

  /** The floating text a hit shows at the item's position. */
  function HitText(item: FallingItem, y: real, now: real, id: string): FloatingText {
    if item.kind == BTC then FloatingText(id, "+10", item.x, y, now, TextDurationMs, GOOD)
    else FloatingText(id, "-15", item.x, y, now, TextDurationMs, BAD)
  }

  /** Whether the frame loop ends the session: RUNNING with no time left. */
  predicate EndsSession(status: GameStatus, timeLeftSec: int) {
    status == RUNNING && timeLeftSec <= 0
  }

  /** Whether spawns and clicks are enabled. */
  predicate Playing(status: GameStatus, timeLeftSec: int) {
    status == RUNNING && timeLeftSec > 0
  }

  function FrameDelta(lastFrameAt: real, now: real): (dt: real)
    ensures lastFrameAt == 0.0 ==> dt == FirstFrameDtMs
    ensures lastFrameAt != 0.0 ==> dt == now - lastFrameAt
  {
    if lastFrameAt != 0.0 then now - lastFrameAt else FirstFrameDtMs
  }

  /** The per-session runtime state: active items and texts, the red overlay,
      the time of the last frame and the spawn accumulator. */
  class Runtime {
    var items: seq<FallingItem>
    var texts: seq<FloatingText>
    var overlayRedAlpha: real
    var lastFrameAt: real
    var spawnTickerMs: real
    const levels: FallingLevels

    ghost predicate Valid()
      reads this
    {
      && levels.Valid()
      && 0.0 <= overlayRedAlpha
      && (forall i :: 0 <= i < |items| ==> WellFormed(items[i]))
      && (forall i :: 0 <= i < |texts| ==> texts[i].durationMs == TextDurationMs)
    }

    constructor (levels: FallingLevels)
      requires levels.Valid()
      ensures Valid() && this.levels == levels
      ensures items == [] && texts == [] && overlayRedAlpha == 0.0
      ensures lastFrameAt == 0.0 && spawnTickerMs == 0.0
    {
      this.levels := levels;
      items, texts := [], [];
      overlayRedAlpha, lastFrameAt, spawnTickerMs := 0.0, 0.0, 0.0;
    }

    /** The reset run whenever the session status becomes RUNNING. */
    method EnterRunning(now: real)
      requires Valid()
      modifies this
      ensures Valid()
      ensures items == [] && texts == [] && overlayRedAlpha == 0.0 && spawnTickerMs == 0.0
      ensures lastFrameAt == now
    {
      lastFrameAt := now;
      overlayRedAlpha := 0.0;
      spawnTickerMs := 0.0;
      items := [];
      texts := [];
    }

    /** One animation frame at time `now`. Returns whether an item spawned, the
        heights at which the surviving items are drawn, and whether the frame
        signalled the end of the session (after which no frame is scheduled). */
    method Frame(now: real, status: GameStatus, timeLeftSec: int, arenaWidth: real, arenaHeight: real,
                 draws: SpawnDraws)
      returns (spawned: bool, drawnY: seq<real>, ended: bool)
      requires Valid() && draws.Valid()
      modifies this
      ensures Valid()
      ensures lastFrameAt == now
      ensures var dt := FrameDelta(old(lastFrameAt), now);
        && overlayRedAlpha == Max(0.0, old(overlayRedAlpha) - dt / OverlayDecayMs)
        && (old(overlayRedAlpha) <= 1.0 && dt >= 0.0 ==> overlayRedAlpha <= 1.0)
        && (spawned <==> Playing(status, timeLeftSec)
                         && old(spawnTickerMs) + dt >= SpawnThreshold(draws.threshold))
        && spawnTickerMs == (if spawned then 0.0
                             else if Playing(status, timeLeftSec) then old(spawnTickerMs) + dt
                             else old(spawnTickerMs))
      ensures var pool := old(items) + (if spawned then [NewItem(draws, now, arenaWidth, levels.easy)] else []);
        && AllTimed(pool)
        && (ended <==> EndsSession(status, timeLeftSec))
        && items == (if ended then [] else Survivors(pool, now))
        && drawnY == Heights(Survivors(pool, now), now, arenaHeight - FloorPad)
      ensures texts == LiveTexts(old(texts), now)
    {
      spawned := Advance(now, status, timeLeftSec, arenaWidth, draws);
      drawnY := RetireItems(now, arenaHeight - FloorPad);
      RetireTexts(now);
      ended := status == RUNNING && timeLeftSec <= 0;
      if ended {
        items := [];
      }
    }

    /** The first half of a frame: frame delta, overlay decay, and the spawner. */
    method Advance(now: real, status: GameStatus, timeLeftSec: int, arenaWidth: real, draws: SpawnDraws)
      returns (spawned: bool)
      requires Valid() && draws.Valid()
      modifies this`lastFrameAt, this`overlayRedAlpha, this`spawnTickerMs, this`items
      ensures Valid()
      ensures lastFrameAt == now
      ensures var dt := FrameDelta(old(lastFrameAt), now);
        && overlayRedAlpha == Max(0.0, old(overlayRedAlpha) - dt / OverlayDecayMs)
        && (old(overlayRedAlpha) <= 1.0 && dt >= 0.0 ==> overlayRedAlpha <= 1.0)
        && (spawned <==> Playing(status, timeLeftSec)
                         && old(spawnTickerMs) + dt >= SpawnThreshold(draws.threshold))
        && spawnTickerMs == (if spawned then 0.0
                             else if Playing(status, timeLeftSec) then old(spawnTickerMs) + dt
                             else old(spawnTickerMs))
      ensures items == old(items) + (if spawned then [NewItem(draws, now, arenaWidth, levels.easy)] else [])
    {
      var dt := FrameDelta(lastFrameAt, now);
      lastFrameAt := now;
      overlayRedAlpha := Max(0.0, overlayRedAlpha - dt / OverlayDecayMs);
      spawned := false;
      if status == RUNNING && timeLeftSec > 0 {
        spawnTickerMs := spawnTickerMs + dt;
        var spawnEvery := SpawnThreshold(draws.threshold);
        if spawnTickerMs >= spawnEvery {
          spawnTickerMs := 0.0;
          var item := NewItem(draws, now, arenaWidth, levels.easy);
          items := items + [item];
          spawned := true;
        }
      }
    }

    /** Drops clicked items and items that reached the floor, keeping the rest in
        order, and reports where each kept item is drawn. */
    method RetireItems(now: real, floorY: real) returns (drawnY: seq<real>)
      requires Valid()
      modifies this`items
      ensures Valid()
      ensures AllTimed(old(items)) && items == Survivors(old(items), now)
      ensures drawnY == Heights(items, now, floorY)
    {
      var next: seq<FallingItem> := [];
      drawnY := [];
      var i := 0;
      while i < |items|
        invariant 0 <= i <= |items|
        invariant next == Survivors(items[..i], now)
        invariant forall k :: 0 <= k < |next| ==> WellFormed(next[k])
        invariant |drawnY| == |next|
        invariant forall k :: 0 <= k < |next| ==> drawnY[k] == ItemY(next[k], now, floorY)
      {
        var item := items[i];
        assert items[..i + 1][..i] == items[..i];
        if !item.clicked {
          var t := (now - item.spawnAt) / item.fallDurationMs;
          var p := EaseInOutCubic(t);
          var y := Lerp(-item.size, floorY - item.size / 2.0 - 4.0, p);
          if t < 1.0 {
            next := next + [item];
            drawnY := drawnY + [y];
          }
        }
        i := i + 1;
      }
      assert items[..i] == items;
      items := next;
      assert drawnY == Heights(items, now, floorY);
    }

    /** Drops floating texts whose age reached their duration. */
    method RetireTexts(now: real)
      requires Valid()
      modifies this`texts
      ensures Valid()
      ensures AllTextsTimed(old(texts)) && texts == LiveTexts(old(texts), now)
    {
      var next: seq<FloatingText> := [];
      var i := 0;
      while i < |texts|
        invariant 0 <= i <= |texts|
        invariant next == LiveTexts(texts[..i], now)
        invariant forall k :: 0 <= k < |next| ==> next[k].durationMs == TextDurationMs
      {
        var ft := texts[i];
        assert texts[..i + 1][..i] == texts[..i];
        var t := (now - ft.spawnAt) / ft.durationMs;
        if t < 1.0 {
          next := next + [ft];
        }
        i := i + 1;
      }
      assert texts[..i] == texts;
      texts := next;
    }

    /** A click at arena point (px, py). It is ignored unless the session is
        playing; otherwise the newest hittable item is consumed, its score delta
        returned, a floating text added, and a bomb turns the overlay fully on. */
    method Click(px: real, py: real, now: real, status: GameStatus, timeLeftSec: int,
                 arenaHeight: real, textId: string)
      returns (delta: Option<int>)
      requires Valid()
      modifies this
      ensures Valid()
      ensures lastFrameAt == old(lastFrameAt) && spawnTickerMs == old(spawnTickerMs)
      ensures AllTimed(old(items))
      ensures var floorY := arenaHeight - FloorPad;
        var target := if Playing(status, timeLeftSec) then TopmostHit(old(items), px, py, now, floorY) else None;
        match target
        case None =>
          delta == None && items == old(items) && texts == old(texts)
          && overlayRedAlpha == old(overlayRedAlpha)
        case Some(i) =>
          var item := old(items)[i];
          && delta == Some(HitDelta(item.kind))
          && items == old(items)[i := item.(clicked := true)]
          && texts == old(texts) + [HitText(item, ItemY(item, now, floorY), now, textId)]
          && overlayRedAlpha == (if item.kind == BOMB then 1.0 else old(overlayRedAlpha))
    {
      delta := None;
      if status != RUNNING || timeLeftSec <= 0 {
        return;
      }
      var floorY := arenaHeight - FloorPad;
      var i := |items|;
      while i > 0
        invariant 0 <= i <= |items|
        invariant items == old(items) && texts == old(texts) && overlayRedAlpha == old(overlayRedAlpha)
        invariant forall j :: i <= j < |items| ==> !Hittable(items[j], px, py, now, floorY)
      {
        i := i - 1;
        var item := items[i];
        if item.clicked {
          continue;
        }
        var t := (now - item.spawnAt) / item.fallDurationMs;
        if t < 0.0 || t >= 1.0 {
          continue;
        }
        var p := EaseInOutCubic(t);
        var y := Lerp(-item.size, floorY - item.size / 2.0 - 4.0, p);
        var r := item.size * HitRadiusFactor;
        if HitTestCircle(px, py, item.x, y, r) {
          assert Hittable(item, px, py, now, floorY);
          items := items[i := item.(clicked := true)];
          if item.kind == BTC {
            delta := Some(BtcDelta);
            texts := texts + [FloatingText(textId, "+10", item.x, y, now, TextDurationMs, GOOD)];
          } else {
            delta := Some(BombDelta);
            texts := texts + [FloatingText(textId, "-15", item.x, y, now, TextDurationMs, BAD)];
            overlayRedAlpha := 1.0;
          }
          return;
        }
      }
    }
  }
}

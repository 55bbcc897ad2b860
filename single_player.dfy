/** The single-player page: a session that starts RUNNING with the stored
    duration, counts down from the wall clock, floors the score at zero, and can be
    stopped and played again. Wall-clock readings (`Date.now()`, whole
    milliseconds) arrive as parameters; each call of `Tick` is one firing of the
    200 ms interval. */
module SinglePlayer {
  import opened Types
  import opened Home
  import opened GameCanvas

  /** `max(0, durationSec - floor(elapsedMs / 1000))`; for a positive divisor
      Dafny's `/` on int is floor division. */
  function Countdown(durationSec: int, elapsedMs: int): (left: int)
    ensures left >= 0
    ensures elapsedMs >= 0 ==> left <= MaxInt(0, durationSec)
  {
    MaxInt(0, durationSec - elapsedMs / 1000)
  }

  lemma {:induction false} FloorDivMono(a: int, b: int)
    requires a <= b
    ensures a / 1000 <= b / 1000
  {
    var qa, qb := a / 1000, b / 1000;
    assert a == 1000 * qa + a % 1000 && 0 <= a % 1000 < 1000;
    assert b == 1000 * qb + b % 1000 && 0 <= b % 1000 < 1000;
  }

  /** The remaining time never increases as the clock advances. */
  lemma {:induction false} CountdownMonotone(durationSec: int, e1: int, e2: int)
    requires e1 <= e2
    ensures Countdown(durationSec, e2) <= Countdown(durationSec, e1)
  {
    FloorDivMono(e1, e2);
  }

  /** The countdown shows zero exactly from the moment `durationSec` whole seconds
      have elapsed, and shows the full duration during the first second. */
  lemma {:induction false} CountdownZeroExactly(durationSec: int, elapsedMs: int)
    requires durationSec >= 0
    ensures Countdown(durationSec, elapsedMs) == 0 <==> elapsedMs >= 1000 * durationSec
    ensures 0 <= elapsedMs < 1000 ==> Countdown(durationSec, elapsedMs) == durationSec
  {
    var q := elapsedMs / 1000;
    assert elapsedMs == 1000 * q + elapsedMs % 1000 && 0 <= elapsedMs % 1000 < 1000;
    if q >= durationSec {
      assert elapsedMs >= 1000 * durationSec;
    } else {
      assert q + 1 <= durationSec;
      assert elapsedMs < 1000 * (q + 1);
    }
  }

  /** Each further whole second takes exactly one off the display, until it shows
      zero. */
  lemma {:induction false} CountdownStep(durationSec: int, elapsedMs: int)
    ensures Countdown(durationSec, elapsedMs + 1000) == MaxInt(0, Countdown(durationSec, elapsedMs) - 1)
  {
    var q := elapsedMs / 1000;
    var r := elapsedMs % 1000;
    assert elapsedMs == 1000 * q + r && 0 <= r < 1000;
    assert elapsedMs + 1000 == 1000 * (q + 1) + r;
    assert (elapsedMs + 1000) / 1000 == q + 1;
  }

  /** The state of one single-player page. `ticking` says whether the countdown
      interval is installed; it is installed whenever the status becomes RUNNING and
      removes itself once the countdown shows zero. */
  class Session {
    const nickname: string
    const durationSec: int
    var status: GameStatus
    var score: int
    var timeLeftSec: int
    var startedAt: int
    var ticking: bool

    ghost predicate Valid()
      reads this
    {
      && ValidConfig(SingleConfig(nickname, durationSec))
      && status != IDLE
      && score >= 0 && timeLeftSec >= 0
      && (ticking ==> status == RUNNING)
      && (status == RUNNING && !ticking ==> timeLeftSec == 0)
    }

    /** Opening the page: the configuration is loaded, the session is RUNNING with
        score 0 and the whole duration left, and the countdown starts now. */
    constructor (storage: Storage, now: int)
      ensures Valid()
      ensures nickname == LoadConfig(storage).nickname && durationSec == LoadConfig(storage).durationSec
      ensures status == RUNNING && score == 0 && timeLeftSec == durationSec
      ensures ticking && startedAt == now
    {
      var cfg := LoadConfig(storage);
      nickname := cfg.nickname;
      durationSec := cfg.durationSec;
      status := RUNNING;
      score := 0;
      timeLeftSec := cfg.durationSec;
      startedAt := now;
      ticking := true;
    }

    /** One firing of the countdown interval at wall-clock time `now`: the remaining
        time is recomputed from the start, and the interval removes itself once it
        reaches zero. */
    method Tick(now: int)
      requires Valid() && ticking
      modifies this`timeLeftSec, this`ticking
      ensures Valid()
      ensures timeLeftSec == Countdown(durationSec, now - startedAt)
      ensures ticking <==> timeLeftSec > 0
    {
      var elapsed := (now - startedAt) / 1000;
      var left := MaxInt(0, durationSec - elapsed);
      timeLeftSec := left;
      if left <= 0 {
        ticking := false;
      }
    }

    /** "Play again", offered only once the session has ENDED, as written: the score
        is reset and the status becomes RUNNING, which installs a new countdown, but
        the remaining time keeps its old value until that countdown first fires. After
        a session that ran out of time, the game canvas therefore sees a RUNNING
        session with no time left on its next frame and ends it again. */
    method Restart(now: int)
      requires Valid() && status == ENDED
      modifies this`score, this`status, this`startedAt, this`ticking
      ensures Valid()
      ensures score == 0 && status == RUNNING && timeLeftSec == old(timeLeftSec)
      ensures startedAt == now && ticking
      ensures old(timeLeftSec) == 0 ==> EndsSession(status, timeLeftSec)
    {
      score := 0;
      status := RUNNING;
      startedAt := now;
      ticking := true;
    }

    /** "Play again" with the whole duration restored at once. The countdown effect
        (SinglePlayer.tsx lines 41-54) recomputes the time from `durationSec`
        whenever the session enters RUNNING, so a restart is meant to start with the
        full time: the restarted session is RUNNING with time left, and the next
        canvas frame spawns instead of ending it. */
    method RestartWithFullTime(now: int)
      requires Valid() && status == ENDED
      modifies this`score, this`status, this`startedAt, this`ticking, this`timeLeftSec
      ensures Valid()
      ensures score == 0 && status == RUNNING && timeLeftSec == durationSec
      ensures startedAt == now && ticking
      ensures Playing(status, timeLeftSec) && !EndsSession(status, timeLeftSec)
    {
      score := 0;
      status := RUNNING;
      timeLeftSec := durationSec;
      startedAt := now;
      ticking := true;
    }

    /** The Stop button and the canvas's end signal: the session ENDS and its
        countdown is removed; score and remaining time stay as they are. */
    method End()
      requires Valid()
      modifies this`status, this`ticking
      ensures Valid()
      ensures status == ENDED && !ticking
    {
      status := ENDED;
      ticking := false;
    }

    /** A score delta reported by the canvas; the score never drops below zero. */
    method ApplyScoreDelta(delta: int)
      requires Valid()
      modifies this`score
      ensures Valid()
      ensures score == FlooredScore(old(score), delta)
    {
      score := MaxInt(0, score + delta);
    }
  }

  /** A session that runs out of time, is ended by the canvas and is played again
      is ended again by the very next canvas frame. */
  method TimedOutRestartScenario() returns (endsAtNextFrame: bool)
    ensures endsAtNextFrame
  {
    var s := new Session(map[], 0);
    s.Tick(45000);
    s.End();
    s.Restart(50000);
    endsAtNextFrame := EndsSession(s.status, s.timeLeftSec);
  }

  /** The same sequence with the corrected restart leaves a playable session. */
  method TimedOutRestartWithFullTimeScenario() returns (endsAtNextFrame: bool)
    ensures !endsAtNextFrame
  {
    var s := new Session(map[], 0);
    s.Tick(45000);
    s.End();
    s.RestartWithFullTime(50000);
    endsAtNextFrame := EndsSession(s.status, s.timeLeftSec);
  }
}

/** The game's value types: falling items, floating score texts, players, and the
    Option wrapper used for JavaScript's `null`/`undefined` results. */
module Types {

  datatype Option<+T> = None | Some(value: T) {
    function GetOr(default: T): T {
      match this
      case Some(v) => v
      case None => default
    }
  }

  /** "BTC" is the collectible coin, "BOMB" the hazard. */
  datatype ItemType = BTC | BOMB

  datatype GameStatus = IDLE | RUNNING | ENDED

  /** A falling item stores no vertical coordinate: its height is derived from
      `spawnAt` and `fallDurationMs` whenever it is drawn or hit-tested. */
  datatype FallingItem = FallingItem(
    id: string,
    kind: ItemType,
    x: real,            // centre x in arena coordinates
    size: real,
    spawnAt: real,      // high-resolution timestamp, ms
    fallDurationMs: real,
    clicked: bool)

  datatype TextColor = GOOD | BAD

  datatype FloatingText = FloatingText(
    id: string,
    text: string,
    x: real,
    y: real,
    spawnAt: real,
    durationMs: real,
    color: TextColor)

  /** A room member as the lobby and the leaderboard show it (the lobby and the
      leaderboard use these four fields). */
  datatype Player = Player(id: string, nickname: string, score: int, isHost: bool)

  function Max(a: real, b: real): real { if a >= b then a else b }

  function MaxInt(a: int, b: int): int { if a >= b then a else b }

  /** `Math.max(0, s + delta)`: the score update used for every player. */
  function FlooredScore(s: int, delta: int): (r: int)
    ensures r >= 0
    ensures s + delta >= 0 ==> r == s + delta
    ensures s + delta < 0 ==> r == 0
  {
    MaxInt(0, s + delta)
  }

  /** `findIndex`: the position of the first element satisfying p, if any. */
  function FirstIndex<T>(s: seq<T>, p: T -> bool): (r: Option<nat>)
    ensures r.Some? ==> r.value < |s| && p(s[r.value])
    ensures r.Some? ==> forall j :: 0 <= j < r.value ==> !p(s[j])
    ensures r.None? <==> forall j :: 0 <= j < |s| ==> !p(s[j])
  {
    if s == [] then None
    else if p(s[0]) then Some(0)
    else
      match FirstIndex(s[1..], p)
      case None => None
      case Some(i) => Some(i + 1)
  }
}

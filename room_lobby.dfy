/** The mock multiplayer room: the viewer hosts, bots with deterministic addresses
    join until the room holds four players, the host starts a 45-second game, bots
    score at random while it runs, and a viewer ranked first is shown the winner
    overlay once the game ends. Wall-clock readings and random samples arrive as
    parameters; each tick method is one firing of its interval. */
module RoomLobby {
  import opened Types
  import opened Strings
  import opened StableSort
  import opened Leaderboard
  import SinglePlayer

  datatype RoomPhase = LOBBY | IN_GAME | ENDED

  const GameDurationSec: int := 45
  const RoomSize: nat := 4
  const MyNickname: string := "You"
  const BotGain: int := 10
  const BotLoss: int := -15
  const Hex: string := "0123456789abcdef"

  // ---------------------------------------------------------------------------
  // Mock addresses and bot players

  /** Character 2 + i of the mock address for a seed. */
  function MockDigit(seed: nat, i: nat): char {
    Hex[(i * 7 + seed * 13) % 16]
  }

  /** `mockAddress(seed)`: "0x" followed by forty hexadecimal digits, digit i being
      `hex[(7i + 13 seed) mod 16]`. */
  predicate IsMockAddress(a: string, seed: nat) {
    |a| == 42 && a[0] == '0' && a[1] == 'x'
    && forall i :: 0 <= i < 40 ==> a[i + 2] == MockDigit(seed, i)
  }

  /** `mockAddress`, built one digit at a time. */
  method MockAddress(seed: nat) returns (addr: string)
    ensures IsMockAddress(addr, seed)
  {
    addr := "0x";
    var i := 0;
    while i < 40
      invariant 0 <= i <= 40
      invariant |addr| == i + 2 && addr[0] == '0' && addr[1] == 'x'
      invariant forall k :: 0 <= k < i ==> addr[k + 2] == MockDigit(seed, k)
    {
      addr := addr + [Hex[(i * 7 + seed * 13) % 16]];
      i := i + 1;
    }
  }

  /** The address is a function of the seed: two mock addresses for one seed agree. */
  lemma {:induction false} MockAddressDeterministic(a: string, b: string, seed: nat)
    requires IsMockAddress(a, seed) && IsMockAddress(b, seed)
    ensures a == b
  {
    forall j | 0 <= j < |a|
      ensures a[j] == b[j]
    {
      if j >= 2 {
        assert a[(j - 2) + 2] == MockDigit(seed, j - 2);
        assert b[(j - 2) + 2] == MockDigit(seed, j - 2);
      }
    }
  }

  /** The three bots of a room (seeds 2, 3 and 4) have pairwise different addresses;
      they already differ in their first digit. */
  lemma {:induction false} BotAddressesDistinct(a: string, s: nat, b: string, t: nat)
    requires 2 <= s < t <= 4
    requires IsMockAddress(a, s) && IsMockAddress(b, t)
    ensures a != b
  {
    assert a[0 + 2] == MockDigit(s, 0);
    assert b[0 + 2] == MockDigit(t, 0);
    assert a[2] != b[2];
  }

  /** "Player n" for a one-digit n. */
  function BotNickname(n: nat): (name: string)
    requires n < 10
    ensures |name| == 8 && name[..7] == "Player "
    ensures '0' <= name[7] <= '9' && name[7] as int - '0' as int == n
  {
    "Player " + [('0' as int + n) as char]
  }

  /** The n-th member of the room (n >= 2) as the join tick creates it, up to its
      score. */
  predicate IsBot(p: Player, n: nat)
    requires n < 10
  {
    IsMockAddress(p.id, n) && p.nickname == BotNickname(n) && !p.isHost
  }

  // ---------------------------------------------------------------------------
  // Derived values

  function HasId(id: string): Player -> bool {
    (p: Player) => p.id == id
  }

  /** `computeMyRank`: one plus the viewer's position in the leaderboard order, or
      None when the viewer is not in the room. */
  function ComputeMyRank(players: seq<Player>, myAddress: string): (r: Option<nat>)
    ensures r.Some? ==> 1 <= r.value <= |players| && Sorted(players)[r.value - 1].id == myAddress
    ensures r.Some? ==> forall j :: 0 <= j < r.value - 1 ==> Sorted(players)[j].id != myAddress
    ensures r.None? <==> forall p :: p in players ==> p.id != myAddress
  {
    var s := Sorted(players);
    assert forall p :: p in players <==> p in s by {
      assert forall p :: p in players <==> p in multiset(players);
      assert forall p :: p in s <==> p in multiset(s);
    }
    match FirstIndex(s, HasId(myAddress))
    case None => None
    case Some(i) => Some(i + 1)
  }

  /** The rank on the viewer's leaderboard row is the rank the lobby computes: the
      first row marked as the viewer's has rank `ComputeMyRank`, and no row is marked
      when that is None. */
  lemma {:induction false} LeaderboardShowsMyRank(players: seq<Player>, myAddress: string)
    ensures var rows := Rows(players, myAddress);
      match ComputeMyRank(players, myAddress)
      case Some(k) =>
        1 <= k <= |rows| && rows[k - 1].isMe && rows[k - 1].rank == k
        && forall j :: 0 <= j < k - 1 ==> !rows[j].isMe
      case None => forall j :: 0 <= j < |rows| ==> !rows[j].isMe
  {
    var rows := Rows(players, myAddress);
    var s := Sorted(players);
    if ComputeMyRank(players, myAddress).None? {
      forall j | 0 <= j < |rows|
        ensures !rows[j].isMe
      {
        assert s[j] in multiset(s);
        assert s[j] in players;
      }
    }
  }

  /** In a room where the viewer is the first player and the only one with the
      viewer's address, the viewer ranks first exactly when no one has a higher
      score: on a tie the viewer stays ahead, since the sort keeps ties in room
      order. */
  lemma {:induction false} RankOneIffTopScore(players: seq<Player>, me: string)
    requires players != [] && players[0].id == me
    requires forall j :: 1 <= j < |players| ==> players[j].id != me
    ensures ComputeMyRank(players, me) == Some(1)
            <==> forall j :: 0 <= j < |players| ==> players[j].score <= players[0].score
  {
    var s := Sorted(players);
    var top := players[0].score;
    assert players[0] in multiset(s);
    var t :| 0 <= t < |s| && s[t] == players[0];
    assert s[0] in multiset(players);
    var f :| 0 <= f < |players| && players[f] == s[0];
    if ComputeMyRank(players, me) == Some(1) {
      assert s[0].id == me;
      assert f == 0;
      forall j | 0 <= j < |players|
        ensures players[j].score <= top
      {
        assert players[j] in multiset(s);
        var m :| 0 <= m < |s| && s[m] == players[j];
        assert m == 0 || s[0].score >= s[m].score;
      }
    }
    if forall j :: 0 <= j < |players| ==> players[j].score <= top {
      assert s[0].score == top by {
        assert s[0].score >= s[t].score;
      }
      SortedKeepsTies(players, top);
      assert WithScore(players, top)[0] == players[0];
      assert WithScore(s, top)[0] == s[0];
      assert HasId(me)(s[0]);
    }
  }

  // ---------------------------------------------------------------------------
  // Score updates

  /** Whether a bot gains or loses on one opponent tick, for the sample u. */
  function BotDelta(u: real): (d: int)
    ensures d == BotGain <==> u < 0.75
    ensures d == BotLoss <==> u >= 0.75
  {
    if u < 0.75 then BotGain else BotLoss
  }

  /** The opponent tick's update: every player other than the viewer gains 10 or
      loses 15 (floored at zero) according to its own sample; the viewer's entries
      and everybody's identity stay as they were. */
  function OpponentScores(players: seq<Player>, myAddress: string, coins: seq<real>): (r: seq<Player>)
    requires |coins| == |players|
    ensures |r| == |players|
    ensures forall i :: 0 <= i < |r| ==> r[i].(score := players[i].score) == players[i]
    ensures forall i :: 0 <= i < |r| && players[i].id == myAddress ==> r[i] == players[i]
    ensures forall i :: 0 <= i < |r| && players[i].id != myAddress ==>
              r[i].score == FlooredScore(players[i].score, BotDelta(coins[i]))
  {
    seq(|players|, i requires 0 <= i < |players| =>
      if players[i].id == myAddress then players[i]
      else players[i].(score := MaxInt(0, players[i].score + BotDelta(coins[i]))))
  }

  /** `handleMyScoreDelta`'s update: only the viewer's entries change, each to its
      score plus delta floored at zero. */
  function WithMyDelta(players: seq<Player>, myAddress: string, delta: int): (r: seq<Player>)
    ensures |r| == |players|
    ensures forall i :: 0 <= i < |r| ==> r[i].(score := players[i].score) == players[i]
    ensures forall i :: 0 <= i < |r| && players[i].id != myAddress ==> r[i] == players[i]
    ensures forall i :: 0 <= i < |r| && players[i].id == myAddress ==>
              r[i].score == FlooredScore(players[i].score, delta)
  {
    seq(|players|, i requires 0 <= i < |players| =>
      if players[i].id == myAddress then players[i].(score := MaxInt(0, players[i].score + delta))
      else players[i])
  }

  function StatusOf(phase: RoomPhase): GameStatus {
    match phase
    case LOBBY => IDLE
    case IN_GAME => RUNNING
    case ENDED => GameStatus.ENDED
  }

  /** `isHost`: the first player with the viewer's address is marked host. */
  function IsHostIn(players: seq<Player>, myAddress: string): bool {
    match FirstIndex(players, HasId(myAddress))
    case None => false
    case Some(i) => players[i].isHost
  }

  // ---------------------------------------------------------------------------
  // The room

  class Lobby {
    const myAddress: string
    var phase: RoomPhase
    var gameStatus: GameStatus
    var timeLeftSec: int
    var players: seq<Player>
    var showWinner: bool
    var startedAt: int

    /** The viewer is the first player and the host; the others are the bots in
        join order; nobody's score is negative; the canvas status follows the
        phase; the winner overlay is shown only once the game has ended with the
        viewer ranked first. */
    ghost predicate Valid()
      reads this
    {
      && 1 <= |players| <= RoomSize
      && players[0].id == myAddress && players[0].nickname == MyNickname && players[0].isHost
      && (forall i :: 1 <= i < |players| ==> IsBot(players[i], i + 1))
      && (forall i :: 0 <= i < |players| ==> players[i].score >= 0)
      && gameStatus == StatusOf(phase)
      && timeLeftSec >= 0
      && (showWinner ==> WinnerScheduled())
    }

    predicate IsHost()
      reads this
    {
      IsHostIn(players, myAddress)
    }

    /** `canStartGame`. */
    predicate CanStartGame()
      reads this
    {
      phase == LOBBY && IsHost() && |players| == RoomSize
    }

    /** In a valid room the viewer is always the host, so the game can start
        exactly when the lobby is full. */
    lemma CanStartWhenFull()
      requires Valid()
      ensures IsHost()
      ensures CanStartGame() <==> phase == LOBBY && |players| == RoomSize
    {
      assert HasId(myAddress)(players[0]);
    }

    /** `winnerOverlayId` and the overlay itself are not modelled; this is the
        condition under which the 500 ms winner timeout is pending. */
    predicate WinnerScheduled()
      reads this
    {
      phase == RoomPhase.ENDED && ComputeMyRank(players, myAddress) == Some(1)
    }

    constructor (myAddress: string)
      ensures Valid() && this.myAddress == myAddress
      ensures phase == LOBBY && gameStatus == IDLE && timeLeftSec == GameDurationSec
      ensures players == [Player(myAddress, MyNickname, 0, true)] && !showWinner
    {
      this.myAddress := myAddress;
      phase := LOBBY;
      gameStatus := IDLE;
      timeLeftSec := GameDurationSec;
      players := [Player(myAddress, MyNickname, 0, true)];
      showWinner := false;
      startedAt := 0;
    }

    /** One firing of the join interval, installed while in the lobby: a full room
        is left alone, otherwise the next bot joins with score 0. */
    method JoinTick()
      requires Valid() && phase == LOBBY
      modifies this`players
      ensures Valid()
      ensures |old(players)| >= RoomSize ==> players == old(players)
      ensures |old(players)| < RoomSize ==>
        && |players| == |old(players)| + 1
        && players[..|old(players)|] == old(players)
        && IsBot(players[|players| - 1], |players|) && players[|players| - 1].score == 0
    {
      if |players| >= RoomSize {
        return;
      }
      var index := |players| + 1;
      var id := MockAddress(index);
      players := players + [Player(id, BotNickname(index), 0, false)];
    }

    /** The Start button, enabled only when `canStartGame` holds. */
    method StartGame(now: int)
      requires Valid() && CanStartGame()
      modifies this`phase, this`gameStatus, this`startedAt
      ensures Valid()
      ensures phase == IN_GAME && gameStatus == RUNNING && startedAt == now
    {
      phase := IN_GAME;
      gameStatus := RUNNING;
      startedAt := now;
    }

    /** One firing of the game countdown, installed while in game: the remaining
        time is recomputed from the start and the game ends when it reaches zero. */
    method CountdownTick(now: int)
      requires Valid() && phase == IN_GAME
      modifies this`timeLeftSec, this`phase, this`gameStatus
      ensures Valid()
      ensures timeLeftSec == SinglePlayer.Countdown(GameDurationSec, now - startedAt)
      ensures phase == (if timeLeftSec <= 0 then RoomPhase.ENDED else IN_GAME)
    {
      var elapsed := (now - startedAt) / 1000;
      var remaining := MaxInt(0, GameDurationSec - elapsed);
      timeLeftSec := remaining;
      if remaining <= 0 {
        phase := RoomPhase.ENDED;
        gameStatus := GameStatus.ENDED;
      }
    }

    /** One firing of the opponent interval, installed while in game, with one
        random sample per player. */
    method OpponentTick(coins: seq<real>)
      requires Valid() && phase == IN_GAME && |coins| == |players|
      modifies this`players
      ensures Valid()
      ensures players == OpponentScores(old(players), myAddress, coins)
    {
      players := OpponentScores(players, myAddress, coins);
    }

    /** A score delta reported by the canvas, whose click handler ignores clicks
        unless the game is RUNNING, that is, in game. */
    method MyScoreDelta(delta: int)
      requires Valid() && phase == IN_GAME
      modifies this`players
      ensures Valid()
      ensures players == WithMyDelta(old(players), myAddress, delta)
    {
      players := WithMyDelta(players, myAddress, delta);
    }

    /** The Exit button and the canvas's end signal, both shown only once the game
        has started. */
    method EndGame()
      requires Valid() && phase != LOBBY
      modifies this`phase, this`gameStatus
      ensures Valid()
      ensures phase == RoomPhase.ENDED && gameStatus == GameStatus.ENDED
    {
      phase := RoomPhase.ENDED;
      gameStatus := GameStatus.ENDED;
    }

    /** The winner timeout firing. */
    method WinnerTimeout()
      requires Valid() && WinnerScheduled()
      modifies this`showWinner
      ensures Valid() && showWinner
    {
      showWinner := true;
    }
  }
}

/** The room leaderboard: a copy of the players sorted by descending score (ties
    keep their order), shown as rows ranked 1..n with the viewer's row marked. */
module Leaderboard {
  import opened Types
  import opened Strings
  import opened StableSort

  /** Sorting ascending by the negated score is the comparator `b.score - a.score`. */
  function ScoreKey(p: Player): int { -p.score }

  /** The players whose score is s, in their order. */
  function WithScore(players: seq<Player>, s: int): seq<Player> {
    WithKey(players, ScoreKey, -s)
  }

  /** `[...players].sort((a, b) => b.score - a.score)`: a permutation of the
      players with scores non-increasing along it. */
  function Sorted(players: seq<Player>): (r: seq<Player>)
    ensures |r| == |players|
    ensures multiset(r) == multiset(players)
    ensures forall i, j :: 0 <= i < j < |r| ==> r[i].score >= r[j].score
  {
    SortPermutes(players, ScoreKey);
    SortSorted(players, ScoreKey);
    var r := SortBy(players, ScoreKey);
    assert forall i, j :: 0 <= i < j < |r| ==> ScoreKey(r[i]) <= ScoreKey(r[j]);
    r
  }

  /** Players with equal scores appear in the sorted list in their original order. */
  lemma {:induction false} SortedKeepsTies(players: seq<Player>, s: int)
    ensures WithScore(Sorted(players), s) == WithScore(players, s)
  {
    SortStable(players, ScoreKey, -s);
  }

  /** One leaderboard row: the player, its rank, whether it is the viewer, and the
      shortened address shown under the nickname. */
  datatype Row = Row(player: Player, rank: nat, isMe: bool, address: string)

  /** The rows, in sorted order. */
  function Rows(players: seq<Player>, myAddress: string): (rows: seq<Row>)
    ensures |rows| == |players|
    ensures forall i :: 0 <= i < |rows| ==> rows[i].rank == i + 1
    ensures forall i :: 0 <= i < |rows| ==> rows[i].player == Sorted(players)[i]
    ensures forall i :: 0 <= i < |rows| ==> (rows[i].isMe <==> rows[i].player.id == myAddress)
    ensures forall i :: 0 <= i < |rows| ==> rows[i].address == ShortAddress(rows[i].player.id)
  {
    var s := Sorted(players);
    seq(|s|, i requires 0 <= i < |s| => Row(s[i], i + 1, s[i].id == myAddress, ShortAddress(s[i].id)))
  }
}

/** Score totals and the end-of-game tally: the sum of a player's round
    scores, the running maximum, and the "greater or equal wins" rule that
    gives a tie to the LAST roster player with the top total. */
module Scoring {
  import opened Values

  /** The sum of the values of a scores map
      (`Object.values(scores).reduce((s, x) => s + x, 0)`). */
  ghost function Sum(m: map<RoundKey, int>): int
    decreases |m|
  {
    if m == map[] then 0
    else
      var k :| k in m;
      MapRemoveSize(m, k);
      m[k] + Sum(m - {k})
  }

  lemma MapRemoveSize(m: map<RoundKey, int>, k: RoundKey)
    requires k in m
    ensures |m - {k}| == |m| - 1
  {
    assert (m - {k}).Keys == m.Keys - {k};
  }

  /** The sum does not depend on which key is taken out first. */
  lemma {:induction false} SumRemove(m: map<RoundKey, int>, k: RoundKey)
    requires k in m
    ensures Sum(m) == m[k] + Sum(m - {k})
    decreases |m|
  {
    var j :| j in m && Sum(m) == m[j] + Sum(m - {j});
    if j != k {
      MapRemoveSize(m, j);
      MapRemoveSize(m, k);
      SumRemove(m - {j}, k);
      SumRemove(m - {k}, j);
      assert m - {j} - {k} == m - {k} - {j};
    }
  }

  /** Adding a fresh round adds its score to the total. */
  lemma SumAdd(m: map<RoundKey, int>, k: RoundKey, v: int)
    requires k !in m
    ensures Sum(m[k := v]) == v + Sum(m)
  {
    SumRemove(m[k := v], k);
    assert m[k := v] - {k} == m;
  }

  /** A player's score total. */
  ghost function Total(p: Player): int
  {
    Sum(p.scores)
  }

  /** The `reduce` over the scores map, as a loop over its keys. */
  method TotalScore(scores: map<RoundKey, int>) returns (total: int)
    ensures total == Sum(scores)
  {
    total := 0;
    var rest := scores;
    while rest != map[]
      invariant total + Sum(rest) == Sum(scores)
      decreases |rest|
    {
      var k :| k in rest;
      SumRemove(rest, k);
      MapRemoveSize(rest, k);
      total := total + rest[k];
      rest := rest - {k};
    }
  }

  /** `maxScore` after the tally loop over `ps`: starts at 0 and takes each
      total that is `>=` the running value. */
  ghost function MaxScore(ps: seq<Player>): int
  {
    if ps == [] then 0
    else
      var m := MaxScore(ps[..|ps| - 1]);
      var t := Total(ps[|ps| - 1]);
      if t >= m then t else m
  }

  /** `winningUsername` after the tally loop over `ps`. */
  ghost function Winner(ps: seq<Player>): string
  {
    if ps == [] then ""
    else if Total(ps[|ps| - 1]) >= MaxScore(ps[..|ps| - 1]) then ps[|ps| - 1].username
    else Winner(ps[..|ps| - 1])
  }

  /** The `allScores[username] = totalScore` assignments, in roster order. */
  ghost function ScoreEntries(ps: seq<Player>): (es: seq<(string, int)>)
    ensures |es| == |ps|
    ensures forall i :: 0 <= i < |ps| ==> es[i] == (ps[i].username, Total(ps[i]))
  {
    if ps == [] then []
    else ScoreEntries(ps[..|ps| - 1]) + [(ps[|ps| - 1].username, Total(ps[|ps| - 1]))]
  }

  /** `allScores`: each username mapped to a total. */
  ghost function ScoreTable(ps: seq<Player>): map<string, int>
  {
    ToObject(ScoreEntries(ps))
  }

  /** `maxScore` is the maximum of 0 and every player's total. */
  lemma {:induction false} MaxScoreIsMaximum(ps: seq<Player>)
    ensures MaxScore(ps) >= 0
    ensures forall i :: 0 <= i < |ps| ==> Total(ps[i]) <= MaxScore(ps)
    ensures MaxScore(ps) == 0 || exists i :: 0 <= i < |ps| && Total(ps[i]) == MaxScore(ps)
  {
    if ps != [] {
      var n := |ps|;
      var init := ps[..n - 1];
      MaxScoreIsMaximum(init);
      assert forall i :: 0 <= i < n - 1 ==> init[i] == ps[i];
      if MaxScore(ps) != 0 && Total(ps[n - 1]) != MaxScore(ps) {
        var i :| 0 <= i < n - 1 && Total(init[i]) == MaxScore(init);
        assert Total(ps[i]) == MaxScore(ps);
      }
    }
  }

  /** The winner is the last player whose total equals `maxScore`. */
  lemma {:induction false} WinnerIsLastTop(ps: seq<Player>, i: nat)
    requires i < |ps| && Total(ps[i]) == MaxScore(ps)
    requires forall j :: i < j < |ps| ==> Total(ps[j]) != MaxScore(ps)
    ensures Winner(ps) == ps[i].username
  {
    var n := |ps|;
    var init := ps[..n - 1];
    if i < n - 1 {
      assert forall j :: 0 <= j < n - 1 ==> init[j] == ps[j];
      WinnerIsLastTop(init, i);
    }
  }

  /** When no total equals `maxScore` (every total is negative, or the
      roster is empty) the winner is the empty name. */
  lemma {:induction false} NoTopNoWinner(ps: seq<Player>)
    requires forall j :: 0 <= j < |ps| ==> Total(ps[j]) != MaxScore(ps)
    ensures Winner(ps) == ""
  {
    if ps != [] {
      var n := |ps|;
      var init := ps[..n - 1];
      assert forall j :: 0 <= j < n - 1 ==> init[j] == ps[j];
      NoTopNoWinner(init);
    }
  }

  /** Totals 10, 10, 5 in roster order: the second player wins with 10. */
  lemma TieGoesToLater(a: Player, b: Player, c: Player)
    requires Total(a) == 10 && Total(b) == 10 && Total(c) == 5
    ensures MaxScore([a, b, c]) == 10
    ensures Winner([a, b, c]) == b.username
  {
    assert [a, b, c][..2] == [a, b];
    assert [a, b][..1] == [a];
    assert [a][..0] == [];
    assert MaxScore([a]) == 10 && Winner([a]) == a.username;
    assert MaxScore([a, b]) == 10 && Winner([a, b]) == b.username;
  }

  /** `allScores` has exactly the roster's usernames as keys, and under a
      username the total of the last roster player with that username. */
  lemma ScoreTableLastWins(ps: seq<Player>, i: nat)
    requires i < |ps|
    requires forall j :: i < j < |ps| ==> ps[j].username != ps[i].username
    ensures ScoreTable(ps).Keys == set p | p in ps :: p.username
    ensures ScoreTable(ps)[ps[i].username] == Total(ps[i])
  {
    var es := ScoreEntries(ps);
    ToObjectLastWins(es, i);
    forall u | u in ScoreTable(ps).Keys ensures exists p :: p in ps && p.username == u {
      var e :| e in es && e.0 == u;
      var k :| 0 <= k < |es| && es[k] == e;
      assert ps[k] in ps;
    }
    forall p | p in ps ensures p.username in ScoreTable(ps).Keys {
      var k :| 0 <= k < |ps| && ps[k] == p;
      assert es[k] in es;
    }
  }

  /** The `forEach` of the game-over branch of `startNextRound`: builds
      `allScores`, the running `maxScore` and `winningUsername`. */
  method Tally(ps: seq<Player>) returns (allScores: map<string, int>, maxScore: int, winningUsername: string)
    ensures allScores == ScoreTable(ps)
    ensures maxScore == MaxScore(ps)
    ensures winningUsername == Winner(ps)
    ensures maxScore >= 0 && forall i :: 0 <= i < |ps| ==> Total(ps[i]) <= maxScore
  {
    allScores, maxScore, winningUsername := map[], 0, "";
    var i := 0;
    while i < |ps|
      invariant 0 <= i <= |ps|
      invariant allScores == ToObject(ScoreEntries(ps[..i]))
      invariant maxScore == MaxScore(ps[..i])
      invariant winningUsername == Winner(ps[..i])
    {
      var totalScore := TotalScore(ps[i].scores);
      var username := ps[i].username;
      assert ps[..i + 1][..i] == ps[..i];
      ToObjectSnoc(ScoreEntries(ps[..i]), (username, totalScore));
      allScores := allScores[username := totalScore];
      if totalScore >= maxScore {
        maxScore := totalScore;
        winningUsername := username;
      }
      i := i + 1;
    }
    assert ps[..|ps|] == ps;
    MaxScoreIsMaximum(ps);
  }
}

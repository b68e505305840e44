/** The scenarios of the game manager's test suite, one lemma each. The dice
    the tests roll are scored by an arbitrary scoring function `score`,
    constrained only by the outcome the scenario relies on. */
module ActionsTest {
  import Decimal
  import opened Links
  import opened Actions

  const Localhost: string := "http://localhost"

  /** A manager on which a game aiming at 10000 points has just been started. */
  function Started(t0: nat, t1: nat): Manager {
    NewGameAction(NewGameManager(Localhost, t0), 10000, t1).value
  }

  /** The NewTurn link minted by a first roll that scores but does not win. */
  lemma FirstRollLink(t0: nat, t1: nat, points: nat, t2: nat)
    requires 0 < points < 10000
    ensures RollAction(Started(t0, t1), points, t2).Ok?
    ensures var m := RollAction(Started(t0, t1), points, t2).value;
            NewTurn in m.links && m.links[NewTurn] == LinkFor(Localhost, NewTurn, t2)
  {
  }

  /** The URLs the tests expect, spelled out for `http://localhost`. */
  lemma LocalhostUrl(t: nat)
    ensures LinkFor(Localhost, NewGame, t).url
            == "http://localhost/NewGame?token=" + Decimal.Show(t) + "&winningScore={WinningScore}"
    ensures LinkFor(Localhost, Roll, t).url == "http://localhost/Roll?token=" + Decimal.Show(t)
    ensures LinkFor(Localhost, NewTurn, t).url == "http://localhost/NewTurn?token=" + Decimal.Show(t)
  {
    assert Prefix(Localhost, NewGame) == "http://localhost/NewGame?token=";
    assert Prefix(Localhost, Roll) == "http://localhost/Roll?token=";
    assert Prefix(Localhost, NewTurn) == "http://localhost/NewTurn?token=";
  }

  /** A fresh manager offers only a new game, as a POST to
      `http://localhost/NewGame?token=<digits>&winningScore={WinningScore}`. */
  lemma TestNewGameManager(t0: nat)
    ensures var m := NewGameManager(Localhost, t0);
            && NewGame in m.active && Roll !in m.active && NewTurn !in m.active
            && NewGame in m.links
            && m.links[NewGame].verb == "POST"
            && m.links[NewGame].url
               == "http://localhost/NewGame?token=" + Decimal.Show(t0) + "&winningScore={WinningScore}"
            && Decimal.IsDigits(Decimal.Show(t0))
  {
    LocalhostUrl(t0);
  }

  /** Starting a game creates it and enables Roll next to NewGame; the Roll
      link is a POST to `http://localhost/Roll?token=<digits>`. */
  lemma TestGenerateNewGame(t0: nat, t1: nat)
    ensures var m := Started(t0, t1);
            && m.game.Some?
            && NewGame in m.active && NewTurn !in m.active && Roll in m.active
            && Roll in m.links
            && m.links[Roll].verb == "POST"
            && m.links[Roll].url == "http://localhost/Roll?token=" + Decimal.Show(t1)
  {
    var m := Started(t0, t1);
    assert m.links == Mint(Localhost, {NewGame, Roll}, t1);
    LocalhostUrl(t1);
  }

  /** A scoring roll below the winning score enables all three actions; the
      NewTurn link is a POST to `http://localhost/NewTurn?token=<digits>`. */
  lemma TestRollGame(score: seq<int> -> nat, t0: nat, t1: nat, t2: nat)
    requires 0 < score([1, 2, 2, 3, 3, 4]) < 10000
    ensures RollAction(Started(t0, t1), score([1, 2, 2, 3, 3, 4]), t2).Ok?
    ensures var m := RollAction(Started(t0, t1), score([1, 2, 2, 3, 3, 4]), t2).value;
            && m.game.Some?
            && NewGame in m.active && NewTurn in m.active && Roll in m.active
            && NewTurn in m.links
            && m.links[NewTurn].verb == "POST"
            && m.links[NewTurn].url == "http://localhost/NewTurn?token=" + Decimal.Show(t2)
  {
    FirstRollLink(t0, t1, score([1, 2, 2, 3, 3, 4]), t2);
    LocalhostUrl(t2);
  }

  /** A roll scoring nothing leaves NewTurn legal and Roll illegal. */
  lemma TestNoRollActionIfLastRollIsZero(score: seq<int> -> nat, t0: nat, t1: nat, t2: nat)
    requires score([2]) == 0
    ensures RollAction(Started(t0, t1), score([2]), t2).Ok?
    ensures var m := RollAction(Started(t0, t1), score([2]), t2).value;
            NewTurn in m.active && Roll !in m.active
  {
    var m := Started(t0, t1);
    var r := RollAction(m, 0, t2);
    assert r.Ok?;
    assert r.value.active == {NewGame, NewTurn};
    assert Roll !in {NewGame, NewTurn};
  }

  /** Rolling 100 points and banking them records one turn of 100 points and
      makes NewTurn illegal and Roll legal again. */
  lemma TestRollAndStartNewTurnScore(score: seq<int> -> nat, t0: nat, t1: nat, t2: nat, t3: nat)
    requires score([1, 2, 2, 3, 3, 4]) == 100
    ensures RollAction(Started(t0, t1), score([1, 2, 2, 3, 3, 4]), t2).Ok?
    ensures NewTurnAction(RollAction(Started(t0, t1), score([1, 2, 2, 3, 3, 4]), t2).value, t3).Ok?
    ensures var m := NewTurnAction(RollAction(Started(t0, t1), score([1, 2, 2, 3, 3, 4]), t2).value, t3).value;
            && NewTurn !in m.active && Roll in m.active
            && m.game.Some? && m.game.value.currentScore == 100
            && |m.game.value.turns| == 1
  {
  }

  /** A roll reaching the winning score leaves only NewGame legal. */
  lemma TestWinGame(score: seq<int> -> nat, t0: nat, t1: nat, t2: nat)
    requires score([1, 1, 1, 1, 1, 1]) >= 10000
    ensures RollAction(Started(t0, t1), score([1, 1, 1, 1, 1, 1]), t2).Ok?
    ensures var m := RollAction(Started(t0, t1), score([1, 1, 1, 1, 1, 1]), t2).value;
            NewGame in m.active && NewTurn !in m.active && Roll !in m.active
  {
    var m := Started(t0, t1);
    assert m.game.value.currentScore + m.game.value.pending == 0;
  }
}

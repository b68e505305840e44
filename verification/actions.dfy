/** The game manager: one optional active game, the set of actions legal
    now, and the links advertised for them. Every handler is a pure
    transition from one manager state to the next. */
module Actions {
  import opened Links

  /** A finished turn and the points banked by it. */
  datatype Turn = Turn(score: nat)

  /** The active game. `pending` is the score of the turn in progress: it is
      added to `currentScore` only when the turn is banked or wins. */
  datatype Game = Game(currentScore: nat, turns: seq<Turn>, winningScore: int, pending: nat)

  /** `active` holds the kinds whose handler is present (non-nil); `links`
      is the ActionLinks map, minted with the state's `token`. */
  datatype Manager = Manager(
    base: string,
    game: Option<Game>,
    active: set<ActionKind>,
    token: nat,
    links: map<ActionKind, Link>)

  /** Invoking a handler that is absent in the current state. */
  datatype ActionError = InvalidAction(kind: ActionKind)

  datatype Result<T> = Ok(value: T) | Err(error: ActionError)

  /** Sum of the scores banked by `turns`. */
  function TotalBanked(turns: seq<Turn>): nat
    decreases |turns|
  {
    if turns == [] then 0 else TotalBanked(turns[..|turns| - 1]) + turns[|turns| - 1].score
  }

  lemma TotalBankedAppend(turns: seq<Turn>, t: Turn)
    ensures TotalBanked(turns + [t]) == TotalBanked(turns) + t.score
  {
    assert (turns + [t])[..|turns|] == turns;
  }

  /** What every state the manager reaches satisfies. */
  predicate Inv(m: Manager) {
    && m.links == Mint(m.base, m.active, m.token)
    && NewGame in m.active
    && (m.game.None? ==> m.active == {NewGame})
    && (m.game.Some? ==> GameInv(m.game.value, m.active))
  }

  predicate GameInv(g: Game, active: set<ActionKind>) {
    // the running total is exactly what the recorded turns banked
    && g.currentScore == TotalBanked(g.turns)
    // a pending score exists only after a scoring roll, which enables both Roll and NewTurn
    && (g.pending > 0 ==> Roll in active && NewTurn in active)
    // while the game goes on, banked plus pending stays below a positive target
    && (g.winningScore > 0 && (Roll in active || NewTurn in active) ==>
          g.currentScore + g.pending < g.winningScore)
    // a game with neither Roll nor NewTurn legal has been won
    && (Roll !in active && NewTurn !in active ==> g.currentScore >= g.winningScore)
  }

  /** The state reached by enabling exactly `active`, minting its links with `token`. */
  function Enter(base: string, game: Option<Game>, active: set<ActionKind>, token: nat): Manager {
    Manager(base, game, active, token, Mint(base, active, token))
  }

  /** A fresh manager serving links under `base`: no game, only NewGame legal. */
  function NewGameManager(base: string, token: nat): (m: Manager)
    ensures Inv(m)
    ensures m.game.None? && m.active == {NewGame}
    ensures m.links.Keys == {NewGame}
  {
    Enter(base, None, {NewGame}, token)
  }

  /** Starts a game aiming at `winningScore`, replacing any game in progress. */
  function NewGameAction(m: Manager, winningScore: int, token: nat): (r: Result<Manager>)
    ensures r.Ok? <==> NewGame in m.active
    ensures r.Err? ==> r.error == InvalidAction(NewGame)
    ensures r.Ok? ==> Inv(r.value)
    ensures r.Ok? ==> r.value.base == m.base && r.value.token == token
    ensures r.Ok? ==> r.value.active == {NewGame, Roll}
    ensures r.Ok? ==> r.value.game.Some?
                      && r.value.game.value.winningScore == winningScore
                      && r.value.game.value.currentScore == 0
                      && r.value.game.value.turns == []
                      && r.value.game.value.pending == 0
  {
    if NewGame !in m.active then Err(InvalidAction(NewGame))
    else Ok(Enter(m.base, Some(Game(0, [], winningScore, 0)), {NewGame, Roll}, token))
  }

  /** Rolls the dice; `points` is what the scoring engine awarded the roll.
      Zero points is a bust, which forfeits the turn; reaching the winning
      score wins; anything else adds to the turn in progress. */
  function RollAction(m: Manager, points: nat, token: nat): (r: Result<Manager>)
    ensures r.Ok? <==> Roll in m.active && m.game.Some?
    ensures r.Err? ==> r.error == InvalidAction(Roll)
    ensures r.Ok? ==> r.value.base == m.base && r.value.token == token && r.value.game.Some?
    ensures r.Ok? && points == 0 ==>
              r.value.active == {NewGame, NewTurn}
              && r.value.game.value.pending == 0
              && r.value.game.value.currentScore == m.game.value.currentScore
              && r.value.game.value.turns == m.game.value.turns
    ensures r.Ok? ==> r.value.game.value.winningScore == m.game.value.winningScore
    // a scoring roll wins exactly when banked plus pending plus its points reaches the target
    ensures r.Ok? && points > 0 ==>
              var g := m.game.value;
              (r.value.active == {NewGame} <==> g.currentScore + g.pending + points >= g.winningScore)
    ensures r.Ok? && points > 0 ==>
              var g, g' := m.game.value, r.value.game.value;
              g.currentScore + g.pending + points >= g.winningScore ==>
                && g'.currentScore == g.currentScore + g.pending + points
                && g'.turns == g.turns + [Turn(g.pending + points)]
                && g'.pending == 0
    ensures r.Ok? && points > 0 ==>
              var g, g' := m.game.value, r.value.game.value;
              g.currentScore + g.pending + points < g.winningScore ==>
                && r.value.active == {NewGame, Roll, NewTurn}
                && g'.currentScore == g.currentScore
                && g'.turns == g.turns
                && g'.pending == g.pending + points
  {
    if Roll !in m.active || m.game.None? then Err(InvalidAction(Roll))
    else
      var g := m.game.value;
      if points == 0 then
        Ok(Enter(m.base, Some(g.(pending := 0)), {NewGame, NewTurn}, token))
      else if g.currentScore + g.pending + points >= g.winningScore then
        var total := g.currentScore + g.pending + points;
        var g' := g.(currentScore := total, turns := g.turns + [Turn(g.pending + points)], pending := 0);
        Ok(Enter(m.base, Some(g'), {NewGame}, token))
      else
        Ok(Enter(m.base, Some(g.(pending := g.pending + points)), {NewGame, Roll, NewTurn}, token))
  }

  /** Ends the turn in progress, banking its pending score as a new turn. */
  function NewTurnAction(m: Manager, token: nat): (r: Result<Manager>)
    ensures r.Ok? <==> NewTurn in m.active && m.game.Some?
    ensures r.Err? ==> r.error == InvalidAction(NewTurn)
    ensures r.Ok? ==> r.value.base == m.base && r.value.token == token
    ensures r.Ok? ==> r.value.active == {NewGame, Roll}
    ensures r.Ok? ==>
              var g, g' := m.game.value, r.value.game;
              && g'.Some?
              && g'.value.turns == g.turns + [Turn(g.pending)]
              && g'.value.currentScore == g.currentScore + g.pending
              && g'.value.pending == 0
              && g'.value.winningScore == g.winningScore
  {
    if NewTurn !in m.active || m.game.None? then Err(InvalidAction(NewTurn))
    else
      var g := m.game.value;
      var g' := g.(currentScore := g.currentScore + g.pending, turns := g.turns + [Turn(g.pending)], pending := 0);
      Ok(Enter(m.base, Some(g'), {NewGame, Roll}, token))
  }

  /** A call of one of the three handlers, with its argument. */
  datatype Call = CallNewGame(winningScore: int) | CallRoll(points: nat) | CallNewTurn

  function KindOf(c: Call): ActionKind {
    match c
    case CallNewGame(_) => NewGame
    case CallRoll(_) => Roll
    case CallNewTurn => NewTurn
  }

  /** A handler call together with the fresh token the next state is minted with. */
  datatype Request = Request(call: Call, token: nat)

  function Step(m: Manager, q: Request): Result<Manager> {
    match q.call
    case CallNewGame(w) => NewGameAction(m, w, q.token)
    case CallRoll(p) => RollAction(m, p, q.token)
    case CallNewTurn => NewTurnAction(m, q.token)
  }

  lemma RollKeepsInv(m: Manager, points: nat, token: nat)
    requires Inv(m)
    ensures RollAction(m, points, token).Ok? ==> Inv(RollAction(m, points, token).value)
  {
    if Roll in m.active {
      var g := m.game.value;
      var r := RollAction(m, points, token).value;
      if points == 0 {
        assert GameInv(r.game.value, r.active);
      } else if g.currentScore + g.pending + points >= g.winningScore {
        TotalBankedAppend(g.turns, Turn(g.pending + points));
        assert GameInv(r.game.value, r.active);
      } else {
        assert GameInv(r.game.value, r.active);
      }
    }
  }

  lemma NewTurnKeepsInv(m: Manager, token: nat)
    requires Inv(m)
    ensures NewTurnAction(m, token).Ok? ==> Inv(NewTurnAction(m, token).value)
  {
    if NewTurn in m.active {
      TotalBankedAppend(m.game.value.turns, Turn(m.game.value.pending));
      var r := NewTurnAction(m, token).value;
      assert GameInv(r.game.value, r.active);
    }
  }

  /** Every handler keeps the invariant; a handler succeeds exactly when it
      is legal, and otherwise reports that it is not. */
  lemma StepPreservesInv(m: Manager, q: Request)
    requires Inv(m)
    ensures Step(m, q).Ok? <==> KindOf(q.call) in m.active
    ensures Step(m, q).Err? ==> Step(m, q).error == InvalidAction(KindOf(q.call))
    ensures Step(m, q).Ok? ==> Inv(Step(m, q).value)
  {
    match q.call
    case CallNewGame(w) =>
    case CallRoll(p) => RollKeepsInv(m, p, q.token);
    case CallNewTurn => NewTurnKeepsInv(m, q.token);
  }

  /** Serves `requests` in order, stopping at the first illegal one. */
  function Run(m: Manager, requests: seq<Request>): Result<Manager>
    decreases |requests|
  {
    if requests == [] then Ok(m)
    else
      match Step(m, requests[0])
      case Err(e) => Err(e)
      case Ok(m') => Run(m', requests[1..])
  }

  /** Any sequence of handler calls keeps the invariant. */
  lemma {:induction false} RunPreservesInv(m: Manager, requests: seq<Request>)
    requires Inv(m)
    ensures Run(m, requests).Ok? ==> Inv(Run(m, requests).value)
    decreases |requests|
  {
    if requests != [] {
      StepPreservesInv(m, requests[0]);
      if Step(m, requests[0]).Ok? {
        RunPreservesInv(Step(m, requests[0]).value, requests[1..]);
      }
    }
  }

  /** Starting a new game stays legal in every state a fresh manager reaches,
      and the advertised links are exactly those of the legal actions. */
  lemma NewGameAlwaysLegal(base: string, token: nat, requests: seq<Request>)
    ensures Run(NewGameManager(base, token), requests).Ok? ==>
              var m := Run(NewGameManager(base, token), requests).value;
              && NewGame in m.active
              && m.links.Keys == m.active
              && forall k :: k in m.links ==>
                   m.links[k].verb == "POST" && ParseUrl(base, m.links[k].url) == Some((k, m.token))
  {
    RunPreservesInv(NewGameManager(base, token), requests);
    RunKeepsBase(NewGameManager(base, token), requests);
    if Run(NewGameManager(base, token), requests).Ok? {
      var m := Run(NewGameManager(base, token), requests).value;
      MintedLinks(m.base, m.active, m.token);
    }
  }

  lemma {:induction false} RunKeepsBase(m: Manager, requests: seq<Request>)
    ensures Run(m, requests).Ok? ==> Run(m, requests).value.base == m.base
    decreases |requests|
  {
    if requests != [] && Step(m, requests[0]).Ok? {
      RunKeepsBase(Step(m, requests[0]).value, requests[1..]);
    }
  }

  /** Whenever an action becomes legal, its link is advertised under its kind. */
  lemma NewLinksAppear(m: Manager, q: Request)
    requires Inv(m)
    ensures Step(m, q).Ok? ==>
              var m' := Step(m, q).value;
              forall k :: k in m'.active && k !in m.active ==>
                k in m'.links && m'.links[k].verb == "POST"
                && ParseUrl(m.base, m'.links[k].url) == Some((k, q.token))
  {
    StepPreservesInv(m, q);
    if Step(m, q).Ok? {
      var m' := Step(m, q).value;
      assert m'.base == m.base && m'.token == q.token;
      assert m'.links == Mint(m.base, m'.active, q.token);
      MintedLinks(m.base, m'.active, q.token);
    }
  }

  /** A scoring roll that does not win, followed by banking, adds exactly
      that roll's points to the game as one new turn. */
  lemma RollThenBank(m: Manager, points: nat, t1: nat, t2: nat)
    requires Inv(m) && Roll in m.active && m.game.Some? && m.game.value.pending == 0
    requires 0 < points && m.game.value.currentScore + points < m.game.value.winningScore
    ensures RollAction(m, points, t1).Ok?
    ensures NewTurnAction(RollAction(m, points, t1).value, t2).Ok?
    ensures var g, g' := m.game.value, NewTurnAction(RollAction(m, points, t1).value, t2).value;
            && g'.active == {NewGame, Roll}
            && g'.game.value.currentScore == g.currentScore + points
            && g'.game.value.turns == g.turns + [Turn(points)]
            && TotalBanked(g'.game.value.turns) == g'.game.value.currentScore
  {
    TotalBankedAppend(m.game.value.turns, Turn(points));
  }
}

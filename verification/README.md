# Dice game action manager

A model of the game manager of the dice game server (package `server/actions`).
The manager holds at most one active game (running score, banked turns, target
score) and the three action handlers NewGame, Roll and NewTurn, each present
(legal now) or absent. Next to the handlers it keeps `ActionLinks`: for every
legal action, a POST link whose URL names the action and carries a token. Each
handler call moves the manager to a new state. Which actions are legal next
depends only on how the roll was classified:

- a roll scoring zero is a bust;
- a roll scoring above zero that leaves the game below its winning score adds
  to the turn in progress;
- a roll that reaches the winning score wins.

The Go implementation of the manager is not part of this model. Its behaviour
is taken from its test file `server/actions/actions_test.go`.

NewGame never leaves the legal set in this model. The tests check NewGame in
four states: on a fresh manager (line 18), after a game starts (line 49), after
a scoring roll (line 87) and after a win (line 165). They never check it after
a bust (lines 113-128) or after a turn is banked (lines 130-152). The model
extends the rule to those two states as well, and so to every reachable state.

Layout:

- `decimal.dfy` (module `Decimal`): decimal rendering of a token and its parser.
- `links.dfy` (module `Links`): the action kinds, the link minted for each kind,
  and a recogniser for minted URLs.
- `actions.dfy` (module `Actions`): the game and manager state, the three
  handlers as pure transition functions, the state invariant, and runs of
  handler calls.
- `actions_test.dfy` (module `ActionsTest`): one lemma per test function.

Modelling choices:

- The legal handlers are a `set<ActionKind>`: a kind is in the set exactly when
  its Go handler is non-nil.
- The dice roller and the scoring table are outside the model. `RollAction`
  takes the points the scoring engine awarded the roll.
- The scenario lemmas take an arbitrary scoring function `score`. Each
  constrains it only as much as its test needs: `score([1,2,2,3,3,4]) == 100`
  (line 146), `score([2]) == 0` (bust), `score([1,1,1,1,1,1]) >= 10000` (win).
- The token is supplied by the caller of every transition. It is an arbitrary
  natural number, and all links of one state carry the same token.
- The win test is cumulative: banked score plus pending turn score plus the
  roll's points must reach the winning score.

## Model

| member | source | states |
|---|---|---|
| `Decimal.Show` | server/actions/actions_test.go:35 | a token renders as a non-empty run of decimal digits (`[0-9]+`) with no leading zero, and it starts with '0' only for token 0 |
| `Decimal.ParseShow` | server/actions/actions_test.go:35 | reading back the digits of a rendered token gives the token |
| `Decimal.ShowParse` | server/actions/actions_test.go:35 | every digit string without a leading zero is the rendering of exactly the number it denotes |
| `Links.LinkShape` | server/actions/actions_test.go:32-106 | every link is a POST whose URL starts with `base/<Name>?token=`, continues with a run of digits, and ends with `&winningScore={WinningScore}` exactly when the action is NewGame |
| `Links.ParseUrl` | server/actions/actions_test.go:35-36 | any URL the recogniser accepts is exactly the URL minted for the action and token it reports |
| `Links.ParseLinkFor` | server/actions/actions_test.go:35-36 | the URL minted for an action and token is recognised as that action and that token, so URLs of different kinds never collide |
| `Links.Mint` | server/actions/actions_test.go:27-30 | the links map has an entry for every legal action and for no other |
| `Links.MintedLinks` | server/actions/actions_test.go:32-37 | every minted link is a POST whose URL names its own action and carries the state's token |
| `Actions.NewGameManager` | server/actions/actions_test.go:16-38 | a fresh manager has no game, only NewGame is legal, only the NewGame link exists, and the state invariant holds |
| `Actions.NewGameAction` | server/actions/actions_test.go:43-69 | starting a game succeeds exactly when NewGame is legal; the new game has score 0, no turns, no pending points and the requested target; NewGame and Roll are legal, NewTurn is not; the invariant holds |
| `Actions.RollAction` | server/actions/actions_test.go:75-173 | a roll succeeds exactly when Roll is legal and a game exists, and never changes the target; zero points leaves NewGame and NewTurn legal, drops Roll, clears the pending points and keeps the banked score and turns; a scoring roll leaves only NewGame legal exactly when banked plus pending plus its points reaches the target, and then banks that total as one new turn; a scoring roll that stays below the target leaves all three actions legal, keeps the banked score and turns, and adds its points to the pending points |
| `Actions.NewTurnAction` | server/actions/actions_test.go:130-151 | banking succeeds exactly when NewTurn is legal; it appends one turn worth the pending points, adds them to the score, clears the pending points, and leaves NewGame and Roll legal but not NewTurn |
| `Actions.RollKeepsInv` | server/actions/actions_test.go:75-173 | a roll keeps the invariant: links match the legal set, the score is the sum of the banked turns, a game in progress stays below its target, and a game with neither Roll nor NewTurn legal has reached it |
| `Actions.NewTurnKeepsInv` | server/actions/actions_test.go:130-151 | banking a turn keeps the same invariant |
| `Actions.StepPreservesInv` | server/actions/actions_test.go:18-26 | from a state meeting the invariant, a handler call succeeds exactly when its kind is legal; an illegal call reports InvalidAction for that kind; a successful call keeps the invariant |
| `Actions.RunPreservesInv` | server/actions/actions_test.go:43-173 | every sequence of handler calls that succeeds ends in a state meeting the invariant |
| `Actions.NewGameAlwaysLegal` | server/actions/actions_test.go:16-173 | in every state a fresh manager reaches, NewGame is legal, the links are keyed by exactly the legal actions, and each is a POST whose URL carries that action and the current token |
| `Actions.NewLinksAppear` | server/actions/actions_test.go:59-62 | whenever a handler call makes an action legal, the links map gains a POST entry for that action carrying the new token |
| `Actions.RollThenBank` | server/actions/actions_test.go:130-151 | from the start of a turn, a scoring non-winning roll followed by NewTurn adds exactly the roll's points to the score as one new turn, and leaves Roll legal and NewTurn illegal |
| `ActionsTest.TestNewGameManager` | server/actions/actions_test.go:16-41 | a fresh manager on `http://localhost`: only NewGame legal; its link is POST `http://localhost/NewGame?token=<digits>&winningScore={WinningScore}` |
| `ActionsTest.TestGenerateNewGame` | server/actions/actions_test.go:43-73 | after NewGame(10000): a game exists, NewGame and Roll are legal, NewTurn is not; the Roll link is POST `http://localhost/Roll?token=<digits>` |
| `ActionsTest.TestRollGame` | server/actions/actions_test.go:75-111 | after a roll scoring between 0 and 10000 exclusive: all three actions legal; the NewTurn link is POST `http://localhost/NewTurn?token=<digits>` |
| `ActionsTest.TestNoRollActionIfLastRollIsZero` | server/actions/actions_test.go:113-128 | after a roll scoring zero: NewTurn is legal, Roll is not |
| `ActionsTest.TestRollAndStartNewTurnScore` | server/actions/actions_test.go:130-152 | after rolling 100 points and banking: NewTurn illegal, Roll legal, score 100, exactly one turn |
| `ActionsTest.TestWinGame` | server/actions/actions_test.go:154-174 | after a roll of at least 10000 points: NewGame legal, Roll and NewTurn not |

## Left out

- JSON logging of the manager (`logGameManager`, lines 11-14): this is serialisation through `encoding/json`, not game logic.
- Regular-expression matching of URLs (lines 35-36, 67-68, 105-106): the model states each URL exactly. The Go patterns are unanchored and would also accept a URL with extra text around it; the model states more than they check.
- The mock roller and the production random roller: they are non-deterministic or outside the package. A roll enters the model as the points it scored.
- The Farkle scoring table: it is not in the tested code. Scoring stays abstract. The only fixed value is 100 for `[1,2,2,3,3,4]`.
- Manager.token: every link of one state carries the same token, so "the link carries the state's token" holds by construction. The tests check only that each URL's token is a run of digits. An implementation that mints a separate token per link differs from the model here.
- Token generation: the token is a parameter. Nothing is claimed about freshness. Resolving a presented token and rejecting stale ones (an invalid-token error) is not part of this model.
- Bust bookkeeping: the tests do not say whether a bust records a zero-score turn. Here a bust records nothing. A NewTurn taken after a bust banks the pending score, which is zero, as a turn of 0 points. No lemma states this choice.
- A winning roll banks its turn at once: the score becomes the total reached and a turn is appended. The tests do not check the game after a win, so no scenario lemma states this.
- Calling an absent handler: in Go this calls a nil function. The model returns `InvalidAction(kind)` and leaves the manager as it was.
- The winning score is accepted as any integer, without validation. The game-in-progress bound of the invariant is stated only for a positive target.
- HTTP transport and handler dispatch: plumbing outside the state machine.

/** The three kinds of action a game manager can advertise, and the
    hypermedia link (method and URL) minted for each. */
module Links {
  import Decimal

  datatype Option<T> = None | Some(value: T)

  /** Closed set of actions: start a game, roll the dice, bank the turn. */
  datatype ActionKind = NewGame | Roll | NewTurn

  /** Path segment naming the action in its URL. */
  function Name(k: ActionKind): string {
    match k
    case NewGame => "NewGame"
    case Roll => "Roll"
    case NewTurn => "NewTurn"
  }

  datatype Link = Link(verb: string, url: string)

  /** Placeholder the caller substitutes with a concrete winning score. */
  const WinningScorePlaceholder: string := "&winningScore={WinningScore}"

  /** Everything of a URL before its token. */
  function Prefix(base: string, k: ActionKind): string {
    base + "/" + Name(k) + "?token="
  }

  /** Everything of a URL after its token: only a new game takes a parameter. */
  function Suffix(k: ActionKind): string {
    if k == NewGame then WinningScorePlaceholder else ""
  }

  predicate EndsWith(s: string, suffix: string) {
    |suffix| <= |s| && s[|s| - |suffix|..] == suffix
  }

  /** The link advertised for action `k` in a state whose token is `token`. */
  function LinkFor(base: string, k: ActionKind, token: nat): Link {
    Link("POST", Prefix(base, k) + Decimal.Show(token) + Suffix(k))
  }

  /** Every advertised link is a POST to `base/<Name>?token=` followed by the
      token's digits, then by the winning-score placeholder for a new game and
      by nothing for the other actions: only a NewGame URL ends with the
      placeholder, the others end with the last digit of their token. */
  lemma LinkShape(base: string, k: ActionKind, token: nat)
    ensures LinkFor(base, k, token).verb == "POST"
    ensures var url := LinkFor(base, k, token).url;
            && |Prefix(base, k)| < |url|
            && url[..|Prefix(base, k)|] == base + "/" + Name(k) + "?token="
            && Decimal.IsDigits(url[|Prefix(base, k)|..|url| - |Suffix(k)|])
            && (EndsWith(url, WinningScorePlaceholder) <==> k == NewGame)
  {
    var digits := Decimal.Show(token);
    var url := Prefix(base, k) + digits + Suffix(k);
    assert url[..|Prefix(base, k)|] == Prefix(base, k);
    assert url[|Prefix(base, k)|..|url| - |Suffix(k)|] == digits;
    var n := |WinningScorePlaceholder|;
    if k != NewGame {
      assert url[|url| - 1] == digits[|digits| - 1];
      if n <= |url| {
        assert url[|url| - n..][n - 1] == url[|url| - 1];
      }
    } else {
      assert url[|url| - n..] == WinningScorePlaceholder;
    }
  }

  /** The token written between `prefix` and `suffix` in `url`, if `url` is
      exactly `prefix`, a canonical numeral and `suffix`. */
  function TokenBetween(url: string, prefix: string, suffix: string): (r: Option<nat>)
    ensures r.Some? ==> url == prefix + Decimal.Show(r.value) + suffix
  {
    if |prefix| + |suffix| <= |url|
       && url[..|prefix|] == prefix
       && url[|url| - |suffix|..] == suffix
       && Decimal.IsCanonical(url[|prefix|..|url| - |suffix|])
    then
      var digits := url[|prefix|..|url| - |suffix|];
      Decimal.ShowParse(digits);
      assert url == url[..|prefix|] + digits + url[|url| - |suffix|..];
      Some(Decimal.Parse(digits))
    else
      None
  }

  lemma TokenBetweenOf(prefix: string, n: nat, suffix: string)
    ensures TokenBetween(prefix + Decimal.Show(n) + suffix, prefix, suffix) == Some(n)
  {
    var url := prefix + Decimal.Show(n) + suffix;
    assert url[..|prefix|] == prefix;
    assert url[|url| - |suffix|..] == suffix;
    assert url[|prefix|..|url| - |suffix|] == Decimal.Show(n);
    Decimal.ParseShow(n);
  }

  /** Recognises an action URL under `base`: which action it names and which
      token it carries. */
  function ParseUrl(base: string, url: string): (r: Option<(ActionKind, nat)>)
    ensures r.Some? ==> LinkFor(base, r.value.0, r.value.1).url == url
  {
    match TokenBetween(url, Prefix(base, NewGame), Suffix(NewGame))
    case Some(t) => Some((NewGame, t))
    case None =>
      match TokenBetween(url, Prefix(base, Roll), Suffix(Roll))
      case Some(t) => Some((Roll, t))
      case None =>
        match TokenBetween(url, Prefix(base, NewTurn), Suffix(NewTurn))
        case Some(t) => Some((NewTurn, t))
        case None => None
  }

  /** A URL of one kind never carries the prefix of another kind. */
  lemma PrefixesDiffer(base: string, url: string, k: ActionKind, j: ActionKind)
    requires k != j
    requires |Prefix(base, k)| <= |url| && url[..|Prefix(base, k)|] == Prefix(base, k)
    ensures TokenBetween(url, Prefix(base, j), Suffix(j)).None?
  {
    var pk, pj := Prefix(base, k), Prefix(base, j);
    // "NewGame" and "NewTurn" part at their fourth letter, "Roll" at its first.
    var i := if {k, j} == {NewGame, NewTurn} then |base| + 4 else |base| + 1;
    assert pk[i] != pj[i];
    assert url[i] == url[..|pk|][i] == pk[i];
    if |pj| <= |url| {
      assert url[..|pj|][i] != pj[i];
    }
  }

  /** Every minted URL is recognised as the action and token it was minted for. */
  lemma ParseLinkFor(base: string, k: ActionKind, token: nat)
    ensures ParseUrl(base, LinkFor(base, k, token).url) == Some((k, token))
  {
    var url := LinkFor(base, k, token).url;
    TokenBetweenOf(Prefix(base, k), token, Suffix(k));
    assert url == Prefix(base, k) + (Decimal.Show(token) + Suffix(k));
    assert url[..|Prefix(base, k)|] == Prefix(base, k);
    if k != NewGame {
      PrefixesDiffer(base, url, k, NewGame);
    }
    if k == NewTurn {
      PrefixesDiffer(base, url, k, Roll);
    }
  }

  lemma ParseEveryLink(base: string, token: nat)
    ensures forall k :: ParseUrl(base, LinkFor(base, k, token).url) == Some((k, token))
  {
    forall k {
      ParseLinkFor(base, k, token);
    }
  }

  /** The action links of one state: one for every legal action and nothing else. */
  function Mint(base: string, kinds: set<ActionKind>, token: nat): (links: map<ActionKind, Link>)
    ensures links.Keys == kinds
  {
    map k | k in kinds :: LinkFor(base, k, token)
  }

  /** Every minted link is a POST whose URL names its own action and carries
      the state's token. */
  lemma MintedLinks(base: string, kinds: set<ActionKind>, token: nat)
    ensures forall k :: k in Mint(base, kinds, token) ==>
              Mint(base, kinds, token)[k].verb == "POST"
              && ParseUrl(base, Mint(base, kinds, token)[k].url) == Some((k, token))
  {
    ParseEveryLink(base, token);
  }
}

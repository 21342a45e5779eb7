/** src/game.cpp, quote_add and quote_delete: what is quoted costs palle, and counts for whoever added it while it is kept. */
module Quoting {
  import opened Basics
  import opened Ledger
  import opened World
  import opened Laws
  import opened Text
  import opened Numbers
  import Settling
  import Claims

  datatype QuoteStatus = QuoteAdded | TooPoor | Duplicate

  function AddAnswer(s: State, player: string, quote: string, cost: int): QuoteStatus {
    if Counter(s.scores, player) < cost then TooPoor
    else if quote in s.quotes.kept then Duplicate
    else QuoteAdded
  }

  function WithQuote(quotes: Quotes, player: string, quote: string): Quotes {
    Quotes(quotes.kept + [quote], quotes.added[player := Counter(quotes.added, player) + 1], quotes.authors[quote := player])
  }

  /** quote_add. One more than the machine can count is refused. */
  function AddQuote(s: State, player: string, quote: string, cost: int): (t: Result<State>)
    ensures t.Done? ==> t.value == s.(quotes := t.value.quotes, scores := t.value.scores, told := t.value.told)
  {
    if AddAnswer(s, player, quote, cost) != QuoteAdded then Done(s)
    else if Counter(s.quotes.added, player) == MOST then Abandoned
    else Done(s.(quotes := WithQuote(s.quotes, player, quote),
                 scores := s.scores[player := Counter(s.scores, player) - cost],
                 told := s.told + [Spent(player, cost)]))
  }

  function FindQuote(kept: seq<string>, quote: string): (at: Option<nat>)
    ensures at.Some? ==> at.value < |kept| && kept[at.value] == quote && quote !in kept[..at.value]
    ensures at.None? ==> quote !in kept
  {
    if kept == [] then None
    else if kept[0] == quote then Some(0)
    else
      match FindQuote(kept[1..], quote)
      case None => assert kept == [kept[0]] + kept[1..]; None
      case Some(k) => assert kept[..k + 1] == [kept[0]] + kept[1..][..k]; Some(k + 1)
  }

  /** A number is a position from 1, if there is one; anything else is the quote itself. */
  predicate IsPosition(kept: seq<string>, selector: string) {
    var position := ParseInt64(selector);
    position.Some? && 0 < position.value <= |kept|
  }

  function Selected(kept: seq<string>, selector: string): (at: Option<nat>)
    ensures at.Some? ==> at.value < |kept|
  {
    if IsPosition(kept, selector) then Some(ParseInt64(selector).value - 1) else FindQuote(kept, selector)
  }

  /** A quote that is gone no longer counts for whoever added it. */
  function Uncounted(quotes: Quotes, quote: string): (left: Quotes)
    ensures left == quotes.(added := left.added, authors := quotes.authors - {quote})
  {
    if quote !in quotes.authors then quotes.(authors := quotes.authors - {quote}) else
    var author := quotes.authors[quote];
    quotes.(added := if Counter(quotes.added, author) > 0 then quotes.added[author := Counter(quotes.added, author) - 1]
                     else quotes.added,
            authors := quotes.authors - {quote})
  }

  function WithoutQuote(quotes: Quotes, at: nat): (left: Quotes)
    requires at < |quotes.kept|
    ensures left.kept == quotes.kept[..at] + quotes.kept[at + 1..]
  {
    Uncounted(quotes.(kept := quotes.kept[..at] + quotes.kept[at + 1..]), quotes.kept[at])
  }

  function Deleted(quotes: Quotes, selector: string): Quotes {
    match Selected(quotes.kept, selector)
    case None => quotes
    case Some(at) => WithoutQuote(quotes, at)
  }

  /** quote_delete. */
  function DeleteQuote(s: State, selector: string): (t: State)
    ensures t == s.(quotes := t.quotes)
  {
    s.(quotes := Deleted(s.quotes, selector))
  }

  lemma AddQuotePlays(s: State, player: string, quote: string, cost: int, face: string)
    requires Sound(s)
    ensures var t := AddQuote(s, player, quote, cost); t.Done? ==> Plays(s, t.value, face)
  {
    hide Sound; hide Plays; hide Total; hide Solvent;
    QuietPlay(s, s, face);
    var t := AddQuote(s, player, quote, cost);
    if t.Done? && AddAnswer(s, player, quote, cost) == QuoteAdded {
      var u := s.(quotes := t.value.quotes);
      QuietPlay(s, u, face);
      PlayedSound(s, u, face);
      SoundSolvent(s);
      Settling.PaidIn(s.scores, player, -cost);
      Claims.ScoresPlay(u, t.value, Spent(player, cost), face);
      PlaysOn(s, u, t.value, face);
    }
  }

  lemma LastOut(quotes: Quotes, player: string, quote: string)
    requires Counter(quotes.added, player) >= 0
    ensures var left := WithoutQuote(WithQuote(quotes, player, quote), |quotes.kept|);
            left.kept == quotes.kept && forall q :: Counter(left.added, q) == Counter(quotes.added, q)
  {
  }

  lemma LastSelected(kept: seq<string>, quote: string)
    requires quote !in kept && !IsPosition(kept, quote)
    ensures Selected(kept + [quote], quote) == Some(|kept|)
  {
    hide ParseInt64;
  }

  lemma AnotherOut(quotes: Quotes, player: string, quote: string, at: nat)
    requires at < |quotes.kept| && quote !in quotes.kept
    ensures WithoutQuote(WithQuote(quotes, player, quote), at).kept != quotes.kept
  {
    var all := quotes.kept + [quote];
    assert (all[..at] + all[at + 1..])[|quotes.kept| - 1] == quote;
  }

  ghost predicate SameQuotes(left: Quotes, quotes: Quotes) {
    left.kept == quotes.kept && forall player :: Counter(left.added, player) == Counter(quotes.added, player)
  }

  /** Asking for a quote just added to be deleted leaves the quotes and everybody's count as they were exactly when it does not
      read as the position of an older one. */
  lemma AddedAndDeleted(quotes: Quotes, player: string, quote: string)
    requires quote !in quotes.kept && Counter(quotes.added, player) >= 0
    ensures SameQuotes(Deleted(WithQuote(quotes, player, quote), quote), quotes) <==> !IsPosition(quotes.kept, quote)
  {
    hide WithoutQuote; hide ParseInt64;
    var added := WithQuote(quotes, player, quote);
    if IsPosition(quotes.kept, quote) {
      var at := ParseInt64(quote).value - 1;
      assert Selected(added.kept, quote) == Some(at);
      AnotherOut(quotes, player, quote, at);
    } else {
      LastSelected(quotes.kept, quote);
      LastOut(quotes, player, quote);
    }
  }

  /** With one quote kept, "1" is added and deleted again: the older one goes, and "1" stays. */
  lemma OlderGoes(player: string)
    ensures var quotes := Quotes(["a"], map[], map[]);
            && IsPosition(quotes.kept, "1")
            && Deleted(WithQuote(quotes, player, "1"), "1").kept == ["1"]
  {
    hide ParseInt64; hide Decimal;
    var quotes := Quotes(["a"], map[], map[]);
    assert Decimal(1) == "1" by { DecimalOne(); }
    DecimalText(1);
    ParsedDecimal("1", 1);
    assert WithQuote(quotes, player, "1").kept == ["a", "1"];
  }

  lemma DecimalOne()
    ensures Decimal(1) == "1"
  {
    assert Digits(0) == "";
    assert Digits(1) == Digits(0) + [Digit(1)];
  }
}

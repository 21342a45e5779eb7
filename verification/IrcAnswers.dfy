/** src/irc_session.cpp: whoever is vouched for is answered, and no command is lost but for a reason that can be told. */
module IrcAnswers {
  import opened Text
  import opened IrcProtocol
  import opened IrcSession

  // ---------------------------------------------------------------- a command, and what becomes of it at once

  /** A command of that nick, in the channel, for the bot and from somebody else. */
  predicate Writes(config: Config, link: Link, input: Input, forBot: string -> bool, l: string) {
    && input.Handles? && input.message.command == "PRIVMSG" && Lower(input.message.Param(0)) == Lower(config.channel)
    && NickOf(input.message.prefix) != "" && Lower(NickOf(input.message.prefix)) == l && l != Lower(link.nick)
    && forBot(input.message.Param(1))
  }

  lemma WritesCommand(config: Config, link: Link, input: Input, forBot: string -> bool, l: string)
    requires Writes(config, link, input, forBot, l)
    ensures React(config, link, input, forBot) ==
              Commanded(config, link, NickOf(input.message.prefix), input.message.Param(1), input.now)
  {
    hide Lower; hide NickOf; hide Commanded;
  }

  /** Told of him lately enough: answered if he was identified, else warned now and then; with nothing told of him he waits, and WHOIS is
      asked unless it is already. */
  lemma WrittenNow(config: Config, link: Link, input: Input, forBot: string -> bool, l: string)
    requires Writes(config, link, input, forBot, l)
    ensures var reaction := React(config, link, input, forBot);
            var sender, text := NickOf(input.message.prefix), input.message.Param(1);
            if l in link.registrations && link.registrations[l].expires > input.now then
              && reaction.link.waiting == link.waiting && reaction.link.asked == link.asked
              && reaction.link.registrations ==
                   (if reaction.sent == [Unregistered(sender)] then link.registrations[l := link.registrations[l].(told := input.now)]
                    else link.registrations)
              && reaction.sent ==
                   if link.registrations[l].registered then [Answered(sender, link.registrations[l].account, text)]
                   else if link.registrations[l].told + config.registrationSeconds <= input.now then [Unregistered(sender)]
                   else []
            else
              && reaction.link.waiting == link.waiting + [Waiting(sender, text, input.now + config.whoisSeconds)]
              && l in reaction.link.asked && reaction.link.registrations == link.registrations
              && reaction.sent == if l in link.asked then [] else [Whois(sender)]
  {
    hide Lower; hide NickOf; hide React;
    WritesCommand(config, link, input, forBot, l);
  }

  // ---------------------------------------------------------------- what WHOIS says is kept

  /** Nothing that would take a registration back: no reconnection, no departure, no other WHOIS ended, and no tick past its time. */
  predicate Keeps(link: Link, input: Input, l: string, expires: int) {
    && !Departs(link, input, l) && !Ends(input, l) && (input.Ticks? ==> input.now < expires)
  }

  lemma KeptOn(config: Config, link: Link, input: Input, forBot: string -> bool, l: string)
    requires l in link.registrations && link.registrations[l].registered && Keeps(link, input, l, link.registrations[l].expires)
    ensures var after := React(config, link, input, forBot).link;
            l in after.registrations && after.registrations[l] == link.registrations[l]
  {
    hide Lower; hide NickOf; hide Others; hide AnswersFor; hide WarningsFor; hide ToldAfter; hide OldTold; hide Late; hide OnTime;
    hide IsCommand; hide SameName; hide OwnAffair;
  }

  lemma {:induction false} KeptThrough(config: Config, history: seq<Input>, forBot: string -> bool, l: string, from: nat, k: nat,
                                       kept: Registration)
    requires from <= k <= |history| && kept.registered
    requires l in Run(config, history[..from], forBot).registrations && Run(config, history[..from], forBot).registrations[l] == kept
    requires forall r | from <= r < k :: Keeps(Run(config, history[..r], forBot), history[r], l, kept.expires)
    ensures l in Run(config, history[..k], forBot).registrations && Run(config, history[..k], forBot).registrations[l] == kept
    decreases k
  {
    hide React; hide Keeps;
    if from < k {
      KeptThrough(config, history, forBot, l, from, k - 1, kept);
      KeptOn(config, Run(config, history[..k - 1], forBot), history[k - 1], forBot, l);
      OneInput(config, history, forBot, k - 1);
    }
  }

  lemma OneInput(config: Config, history: seq<Input>, forBot: string -> bool, k: nat)
    requires k < |history|
    ensures Run(config, history[..k + 1], forBot) == React(config, Run(config, history[..k], forBot), history[k], forBot).link
  {
    hide React;
    assert history[..k + 1][..k] == history[..k];
  }

  /** A WHOIS of the nick is under way all along. */
  ghost predicate UnderWay(config: Config, history: seq<Input>, forBot: string -> bool, l: string, from: int, to: int) {
    0 <= from <= to <= |history| && forall r: nat | from <= r <= to :: l in Run(config, history[..r], forBot).asked
  }

  /** The account told there; the nick itself if none was. */
  ghost function AccountTold(config: Config, history: seq<Input>, forBot: string -> bool, l: string, q: nat): string
    requires q < |history| && l in Run(config, history[..q], forBot).asked
  {
    if history[q].Handles? && history[q].message.command == "330" then history[q].message.Param(2)
    else
      var before := Run(config, history[..q], forBot).asked[l].account;
      if before == "" then l else before
  }

  lemma IdentifiedOn(config: Config, link: Link, input: Input, forBot: string -> bool, l: string)
    requires l in link.asked && l in React(config, link, input, forBot).link.asked
    ensures React(config, link, input, forBot).link.asked[l] ==
              if !Identifies(input, l) then link.asked[l]
              else if input.message.command == "330" then Identity(true, input.message.Param(2))
              else Identity(true, link.asked[l].account)
  {
    hide Lower; hide NickOf; hide Others; hide AnswersFor; hide WarningsFor; hide ToldAfter; hide OldTold; hide Late; hide OnTime;
    hide IsCommand; hide SameName; hide OwnAffair;
  }

  /** What the last identifying reply said stands until the WHOIS ends. */
  lemma {:induction false} IdentityStands(config: Config, history: seq<Input>, forBot: string -> bool, l: string, q: nat, p: nat)
    requires q < p <= |history| && UnderWay(config, history, forBot, l, q, p) && Identifies(history[q], l)
    requires forall r | q < r < p :: !Identifies(history[r], l)
    ensures var identity := Run(config, history[..p], forBot).asked[l];
            && identity.registered
            && (if identity.account == "" then l else identity.account) == AccountTold(config, history, forBot, l, q)
    decreases p
  {
    hide React; hide Identifies;
    OneInput(config, history, forBot, p - 1);
    IdentifiedOn(config, Run(config, history[..p - 1], forBot), history[p - 1], forBot, l);
    if q < p - 1 {
      IdentityStands(config, history, forBot, l, q, p - 1);
    } else {
      IdentifiesHow(history[q], l);
    }
  }

  lemma IdentifiesHow(input: Input, l: string)
    requires Identifies(input, l)
    ensures input.Handles? && (input.message.command == "330" ==> input.message.Param(2) != "")
  {
    hide Lower;
  }

  /** The end of a WHOIS deals with the nick's lines at once, and is remembered. */
  lemma EndedNow(config: Config, link: Link, input: Input, forBot: string -> bool, l: string)
    requires Ends(input, l) && l in link.asked && link.asked[l].registered
    ensures var reaction := React(config, link, input, forBot);
            var account := if link.asked[l].account == "" then l else link.asked[l].account;
            && l in reaction.link.registrations && reaction.link.registrations[l].registered
            && reaction.link.registrations[l].account == account
            && reaction.link.registrations[l].expires == input.now + config.registrationSeconds
            && AnsweredTo(reaction.sent, l) == TextsOf(link.waiting, l) && TextsOf(reaction.link.waiting, l) == []
            && forall sent | sent in reaction.sent :: sent.Answered? && Lower(sent.nick) == l && sent.account == account
  {
    hide Others; hide AnswersFor; hide WarningsFor; hide ToldAfter; hide OldTold; hide IsCommand; hide SameName; hide OwnAffair; hide Lower;
    hide TextsOf; hide AnsweredTo;
    var account := if link.asked[l].account == "" then l else link.asked[l].account;
    AnsweredTexts(link.waiting, l, account, l);
    TextsOfOthers(link.waiting, l, l);
    AnsweredWith(link.waiting, l, account);
  }

  lemma {:induction false} AnsweredWith(waiting: seq<Waiting>, l: string, account: string)
    ensures forall sent | sent in AnswersFor(waiting, l, account) :: sent.Answered? && Lower(sent.nick) == l && sent.account == account
  {
    if waiting != [] {
      AnsweredWith(waiting[..|waiting| - 1], l, account);
    }
  }

  /** Over every run: a 318 that ends a WHOIS in which the nick was identified answers every line of his that still waits, in order. */
  lemma AllWaitingAnswered(config: Config, history: seq<Input>, forBot: string -> bool, l: string, q: nat, p: nat)
    requires q < p < |history| && UnderWay(config, history, forBot, l, q, p) && Identifies(history[q], l) && Ends(history[p], l)
    requires forall r | q < r < p :: !Identifies(history[r], l)
    ensures var link := Run(config, history[..p], forBot);
            && AnsweredTo(SentAt(config, history, p, forBot), l) == TextsOf(link.waiting, l)
            && forall sent | sent in SentAt(config, history, p, forBot) ::
                 sent.Answered? && Lower(sent.nick) == l && sent.account == AccountTold(config, history, forBot, l, q)
  {
    hide React; hide Identifies; hide Ends; hide TextsOf; hide AnsweredTo; hide Run; hide AccountTold;
    IdentityStands(config, history, forBot, l, q, p);
    EndedNow(config, Run(config, history[..p], forBot), history[p], forBot, l);
  }

  /** Over every run: a command of a nick whose last WHOIS identified it is answered there and then, with its own text and account, as
      long as the nick has not left since and the time a registration is kept is not over. */
  lemma VouchedAnswered(config: Config, history: seq<Input>, forBot: string -> bool, l: string, q: nat, p: nat, k: nat)
    requires q < p < k < |history| && UnderWay(config, history, forBot, l, q, p) && Identifies(history[q], l) && Ends(history[p], l)
    requires forall r | q < r < p :: !Identifies(history[r], l)
    requires forall r | p < r < k :: Keeps(Run(config, history[..r], forBot), history[r], l, history[p].now + config.registrationSeconds)
    requires Writes(config, Run(config, history[..k], forBot), history[k], forBot, l)
    requires history[k].now < history[p].now + config.registrationSeconds
    ensures SentAt(config, history, k, forBot) ==
              [Answered(NickOf(history[k].message.prefix), AccountTold(config, history, forBot, l, q), history[k].message.Param(1))]
  {
    hide React; hide Identifies; hide TextsOf; hide AnsweredTo; hide Run; hide AccountTold; hide Keeps; hide NickOf;
    IdentityStands(config, history, forBot, l, q, p);
    EndedNow(config, Run(config, history[..p], forBot), history[p], forBot, l);
    OneInput(config, history, forBot, p);
    var kept := Run(config, history[..p + 1], forBot).registrations[l];
    KeptThrough(config, history, forBot, l, p + 1, k, kept);
    WrittenNow(config, Run(config, history[..k], forBot), history[k], forBot, l);
  }

  // ---------------------------------------------------------------- what becomes of a line that waits

  /** A line is dealt with: answered or told off as its WHOIS ends, or given up by a 401, its deadline or a reconnection. */
  ghost predicate IsDealtWith(config: Config, link: Link, input: Input, forBot: string -> bool, w: Waiting) {
    var l, sent := Lower(w.nick), React(config, link, input, forBot).sent;
    || input.Connects?
    || (input.Ticks? && input.now >= w.deadline)
    || (input.Handles? && input.message.command == "401" && Lower(input.message.Param(1)) == l)
    || (Ends(input, l) && l in link.asked
        && (link.asked[l].registered ==> exists account :: Answered(w.nick, account, w.text) in sent))
  }

  lemma {:induction false} AnsweredIn(waiting: seq<Waiting>, l: string, account: string, w: Waiting)
    requires w in waiting && Lower(w.nick) == l
    ensures Answered(w.nick, account, w.text) in AnswersFor(waiting, l, account)
  {
    var last := waiting[|waiting| - 1];
    if w == last {
    } else {
      assert w in waiting[..|waiting| - 1];
      AnsweredIn(waiting[..|waiting| - 1], l, account, w);
    }
  }

  lemma WaitsOn(config: Config, link: Link, input: Input, forBot: string -> bool, w: Waiting)
    requires w in link.waiting
    ensures w in React(config, link, input, forBot).link.waiting || IsDealtWith(config, link, input, forBot, w)
  {
    hide Lower; hide NickOf; hide AnswersFor; hide WarningsFor; hide ToldAfter; hide OldTold; hide Late;
    hide IsCommand; hide SameName; hide OwnAffair;
    var l := Lower(w.nick);
    if l in link.asked {
      AnsweredIn(link.waiting, l, if link.asked[l].account == "" then l else link.asked[l].account, w);
    }
  }

  /** Over every run: a line that waits still waits at the end, or was dealt with on the way. */
  lemma {:induction false} NoLineLost(config: Config, history: seq<Input>, forBot: string -> bool, from: nat, w: Waiting)
    requires from <= |history| && w in Run(config, history[..from], forBot).waiting
    ensures || w in Run(config, history, forBot).waiting
            || exists m: nat :: from <= m < |history| && IsDealtWith(config, Run(config, history[..m], forBot), history[m], forBot, w)
    decreases |history|
  {
    hide React; hide IsDealtWith;
    if from == |history| {
      assert history[..from] == history;
    } else {
      var front, last := history[..|history| - 1], |history| - 1;
      assert front[..from] == history[..from];
      NoLineLost(config, front, forBot, from, w);
      if w in Run(config, front, forBot).waiting {
        WaitsOn(config, Run(config, front, forBot), history[last], forBot, w);
      } else {
        var m: nat :| from <= m < |front| && IsDealtWith(config, Run(config, front[..m], forBot), front[m], forBot, w);
        assert front[..m] == history[..m] && front[m] == history[m];
      }
    }
  }

  /** Over every run, every command written is answered, warned or silenced there and then, still waits, or was dealt with since. */
  lemma EveryCommandFares(config: Config, history: seq<Input>, forBot: string -> bool, l: string, j: nat)
    requires j < |history| && Writes(config, Run(config, history[..j], forBot), history[j], forBot, l)
    ensures var link, sender, text := Run(config, history[..j], forBot), NickOf(history[j].message.prefix), history[j].message.Param(1);
            var w := Waiting(sender, text, history[j].now + config.whoisSeconds);
            if l in link.registrations && link.registrations[l].expires > history[j].now then
              SentAt(config, history, j, forBot) ==
                if link.registrations[l].registered then [Answered(sender, link.registrations[l].account, text)]
                else if link.registrations[l].told + config.registrationSeconds <= history[j].now then [Unregistered(sender)]
                else []
            else
              || w in Run(config, history, forBot).waiting
              || exists m: nat :: j < m < |history| && IsDealtWith(config, Run(config, history[..m], forBot), history[m], forBot, w)
  {
    hide React; hide IsDealtWith; hide NickOf; hide Lower; hide Run;
    var link, sender, text := Run(config, history[..j], forBot), NickOf(history[j].message.prefix), history[j].message.Param(1);
    WrittenNow(config, link, history[j], forBot, l);
    if !(l in link.registrations && link.registrations[l].expires > history[j].now) {
      var w := Waiting(sender, text, history[j].now + config.whoisSeconds);
      OneInput(config, history, forBot, j);
      assert w in Run(config, history[..j + 1], forBot).waiting by { LastOf(link.waiting, w); }
      NoLineLost(config, history, forBot, j + 1, w);
    }
  }

  lemma LastOf(waiting: seq<Waiting>, w: Waiting)
    ensures w in waiting + [w]
  {
    assert (waiting + [w])[|waiting|] == w;
  }
}

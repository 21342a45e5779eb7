/** src/irc_session.cpp: which messages are answered on IRC, and when. A player is answered once WHOIS vouches for his nick. */
module IrcSession {
  import opened Text
  import opened IrcProtocol

  datatype Config = Config(nick: string, password: string, channel: string, registrationSeconds: int, whoisSeconds: int)

  datatype Registration = Registration(registered: bool, account: string, expires: int, told: int)

  datatype Identity = Identity(registered: bool, account: string)

  datatype Waiting = Waiting(nick: string, text: string, deadline: int)

  /** What the bot sends. Answered is the responder at work on a command: whatever it has to say goes to the channel. */
  datatype Sent =
    | SaysNick(nick: string) | SaysUser | Pong(text: string) | Identify | Joins | Whois(nick: string)
    | Answered(nick: string, account: string, text: string) | Unregistered(nick: string)

  /** The session: the fields of the class as one value. */
  datatype Link = Link(nick: string, joined: bool, registrations: map<string, Registration>, asked: map<string, Identity>,
                       waiting: seq<Waiting>)

  datatype Reaction = Reaction(link: Link, sent: seq<Sent>)

  // ---------------------------------------------------------------- releasing

  predicate IsFrom(waiting: Waiting, lowered: string) {
    Lower(waiting.nick) == lowered
  }

  /** The lines of everybody else. */
  function Others(waiting: seq<Waiting>, lowered: string): (others: seq<Waiting>)
    ensures forall w :: w in others <==> w in waiting && !IsFrom(w, lowered)
  {
    if waiting == [] then [] else
    var last, before := waiting[|waiting| - 1], Others(waiting[..|waiting| - 1], lowered);
    if IsFrom(last, lowered) then before else before + [last]
  }

  /** When he was last told that he needs a registered nick: no more than once in so many seconds. */
  function ToldAfter(waiting: seq<Waiting>, lowered: string, told: int, now: int, seconds: int): int {
    if waiting == [] then told else
    var before := ToldAfter(waiting[..|waiting| - 1], lowered, told, now, seconds);
    if IsFrom(waiting[|waiting| - 1], lowered) && before + seconds <= now then now else before
  }

  function WarningsFor(waiting: seq<Waiting>, lowered: string, told: int, now: int, seconds: int): (sent: seq<Sent>)
    ensures forall s | s in sent :: s.Unregistered?
  {
    if waiting == [] then [] else
    var last, before := waiting[|waiting| - 1], waiting[..|waiting| - 1];
    var sent := WarningsFor(before, lowered, told, now, seconds);
    if IsFrom(last, lowered) && ToldAfter(before, lowered, told, now, seconds) + seconds <= now
    then sent + [Unregistered(last.nick)] else sent
  }

  function AnswersFor(waiting: seq<Waiting>, lowered: string, account: string): (sent: seq<Sent>)
    ensures forall s | s in sent :: s.Answered? && Lower(s.nick) == lowered
  {
    if waiting == [] then [] else
    var last, sent := waiting[|waiting| - 1], AnswersFor(waiting[..|waiting| - 1], lowered, account);
    if IsFrom(last, lowered) then sent + [Answered(last.nick, account, last.text)] else sent
  }

  function OldTold(link: Link, lowered: string): int {
    if lowered in link.registrations then link.registrations[lowered].told else 0
  }

  /** release: what WHOIS said of a nick is kept for a while, and every line of his that waited for it is dealt with. */
  function Released(config: Config, link: Link, lowered: string, identity: Identity, now: int): (reaction: Reaction)
    ensures reaction.link == link.(registrations := reaction.link.registrations, waiting := reaction.link.waiting)
  {
    var account := if identity.account == "" then lowered else identity.account;
    var told := OldTold(link, lowered);
    var after := if identity.registered then told else ToldAfter(link.waiting, lowered, told, now, config.registrationSeconds);
    Reaction(
      link.(registrations := link.registrations[lowered :=
                               Registration(identity.registered, account, now + config.registrationSeconds, after)],
            waiting := Others(link.waiting, lowered)),
      if identity.registered then AnswersFor(link.waiting, lowered, account)
      else WarningsFor(link.waiting, lowered, told, now, config.registrationSeconds))
  }

  // ---------------------------------------------------------------- one message

  predicate IsDeparture(command: string) {
    command == "NICK" || command == "QUIT" || command == "PART" || command == "KICK"
  }

  /** The bot itself is kicked out. */
  predicate KicksBot(link: Link, message: Message) {
    message.command == "KICK" && SameName(message.Param(1), link.nick)
  }

  /** A command written in the channel by somebody else. */
  predicate IsCommand(config: Config, link: Link, message: Message, forBot: string -> bool) {
    && message.command == "PRIVMSG" && SameName(message.Param(0), config.channel)
    && NickOf(message.prefix) != "" && !SameName(NickOf(message.prefix), link.nick)
    && forBot(message.Param(1))
  }

  /** A command of somebody WHOIS has lately spoken of. */
  function OfKnown(config: Config, link: Link, sender: string, text: string, now: int): (reaction: Reaction)
    requires Lower(sender) in link.registrations
    ensures reaction.link == link.(registrations := reaction.link.registrations)
  {
    var known := link.registrations[Lower(sender)];
    if known.registered then Reaction(link, [Answered(sender, known.account, text)])
    else if known.told + config.registrationSeconds <= now then
      Reaction(link.(registrations := link.registrations[Lower(sender) := known.(told := now)]), [Unregistered(sender)])
    else Reaction(link, [])
  }

  /** A command of somebody to be asked about: it waits, and WHOIS is sent unless it is under way. */
  function OfUnknown(config: Config, link: Link, sender: string, text: string, now: int): Reaction {
    var lowered := Lower(sender);
    Reaction(link.(waiting := link.waiting + [Waiting(sender, text, now + config.whoisSeconds)],
                   asked := if lowered in link.asked then link.asked else link.asked[lowered := Identity(false, "")]),
             if lowered in link.asked then [] else [Whois(sender)])
  }

  predicate IsKnown(link: Link, lowered: string, now: int) {
    lowered in link.registrations && link.registrations[lowered].expires > now
  }

  function Commanded(config: Config, link: Link, sender: string, text: string, now: int): Reaction {
    if IsKnown(link, Lower(sender), now) then OfKnown(config, link, sender, text, now)
    else OfUnknown(config, link, sender, text, now)
  }

  /** What the numerics of a WHOIS tell of a nick. */
  function Identified(link: Link, message: Message): Link {
    var lowered := Lower(message.Param(1));
    if lowered !in link.asked then link
    else if message.command == "307" then link.(asked := link.asked[lowered := link.asked[lowered].(registered := true)])
    else if message.Param(2) == "" then link
    else link.(asked := link.asked[lowered := Identity(true, message.Param(2))])
  }

  function Ended(config: Config, link: Link, lowered: string, now: int): Reaction {
    if lowered !in link.asked then Reaction(link, [])
    else Released(config, link.(asked := link.asked - {lowered}), lowered, link.asked[lowered], now)
  }

  /** What concerns the bot itself: its link to the server, its nick, and whether it is in the channel. */
  predicate IsOwnAffair(link: Link, message: Message) {
    || message.command in {"PING", "ERROR", "001", "376", "422", "433", "437"}
    || (message.command == "JOIN" && SameName(NickOf(message.prefix), link.nick))
    || KicksBot(link, message)
  }

  function OwnAffair(config: Config, link: Link, message: Message): (reaction: Reaction)
    ensures reaction.link == link.(nick := reaction.link.nick, joined := reaction.link.joined)
    ensures forall s | s in reaction.sent :: !s.Answered?
  {
    match message.command
    case "PING" => Reaction(link, [Pong(message.Param(0))])
    case "001" => Reaction(link.(nick := message.Param(0)), if config.password != "" then [Identify] else [])
    case "376" => Reaction(link, [Joins])
    case "422" => Reaction(link, [Joins])
    case "433" => Reaction(link.(nick := link.nick + "_"), [SaysNick(link.nick + "_")])
    case "437" => Reaction(link.(nick := link.nick + "_"), [SaysNick(link.nick + "_")])
    case "JOIN" => Reaction(link.(joined := true), [])
    case "KICK" => Reaction(link.(joined := false), [Joins])
    case _ => Reaction(link, [])
  }

  /** handle. */
  function Handled(config: Config, link: Link, message: Message, now: int, forBot: string -> bool): Reaction {
    var sender, named := NickOf(message.prefix), Lower(message.Param(1));
    if IsOwnAffair(link, message) then OwnAffair(config, link, message)
    else if message.command == "307" || message.command == "330" then Reaction(Identified(link, message), [])
    else if message.command == "318" then Ended(config, link, named, now)
    else if message.command == "401" then
      Reaction(link.(asked := link.asked - {named}, waiting := Others(link.waiting, named)), [])
    else if IsDeparture(message.command) then Reaction(link.(registrations := link.registrations - {Lower(sender)}), [])
    else if IsCommand(config, link, message, forBot) then Commanded(config, link, sender, message.Param(1), now)
    else Reaction(link, [])
  }

  // ---------------------------------------------------------------- connecting and ticking

  /** connected: whatever was known is forgotten. */
  function Connected(config: Config): Reaction {
    Reaction(Link(config.nick, false, map[], map[], []), [SaysNick(config.nick), SaysUser])
  }

  function OnTime(waiting: seq<Waiting>, now: int): (kept: seq<Waiting>)
    ensures forall w :: w in kept <==> w in waiting && w.deadline > now
  {
    if waiting == [] then [] else
    var last, before := waiting[|waiting| - 1], OnTime(waiting[..|waiting| - 1], now);
    if last.deadline > now then before + [last] else before
  }

  function Late(waiting: seq<Waiting>, now: int): (nicks: set<string>)
    ensures forall nick :: nick in nicks <==> exists k :: 0 <= k < |waiting| && waiting[k].deadline <= now && IsFrom(waiting[k], nick)
  {
    if waiting == [] then {} else
    var last, before := waiting[|waiting| - 1], Late(waiting[..|waiting| - 1], now);
    assert forall k | 0 <= k < |waiting| - 1 :: waiting[..|waiting| - 1][k] == waiting[k];
    if last.deadline <= now then before + {Lower(last.nick)} else before
  }

  /** tick: the WHOIS replies that never came are given up, and stale answers forgotten. */
  function Ticked(link: Link, now: int): Link {
    link.(asked := link.asked - Late(link.waiting, now), waiting := OnTime(link.waiting, now),
          registrations := map nick | nick in link.registrations && link.registrations[nick].expires > now ::
                             link.registrations[nick])
  }

  // ---------------------------------------------------------------- every run

  datatype Input = Connects | Handles(message: Message, now: int) | Ticks(now: int)

  function React(config: Config, link: Link, input: Input, forBot: string -> bool): Reaction {
    match input
    case Connects => Connected(config)
    case Handles(message, now) => Handled(config, link, message, now, forBot)
    case Ticks(now) => Reaction(Ticked(link, now), [])
  }

  function Run(config: Config, history: seq<Input>, forBot: string -> bool): Link {
    if history == [] then Connected(config).link
    else React(config, Run(config, history[..|history| - 1], forBot), history[|history| - 1], forBot).link
  }

  function SentAt(config: Config, history: seq<Input>, k: nat, forBot: string -> bool): seq<Sent>
    requires k < |history|
  {
    React(config, Run(config, history[..k], forBot), history[k], forBot).sent
  }

  // ---------------------------------------------------------------- only vouched nicks are answered

  /** WHOIS says a nick is identified. */
  predicate Identifies(input: Input, lowered: string) {
    && input.Handles? && Lower(input.message.Param(1)) == lowered
    && (input.message.command == "307" || (input.message.command == "330" && input.message.Param(2) != ""))
  }

  predicate Ends(input: Input, lowered: string) {
    input.Handles? && input.message.command == "318" && Lower(input.message.Param(1)) == lowered
  }

  /** What a WHOIS does not live through. */
  predicate Closes(input: Input, lowered: string) {
    || input.Connects? || Ends(input, lowered)
    || (input.Handles? && input.message.command == "401" && Lower(input.message.Param(1)) == lowered)
  }

  /** The nick leaves, or changes. */
  predicate Departs(link: Link, input: Input, lowered: string) {
    || input.Connects?
    || (input.Handles? && IsDeparture(input.message.command) && !KicksBot(link, input.message)
        && Lower(NickOf(input.message.prefix)) == lowered)
  }

  /** WHOIS identified the nick there, and the reply was not over before the end of that stretch. */
  ghost predicate IdentifiedAt(history: seq<Input>, lowered: string, q: int, end: int) {
    0 <= q < end <= |history| && Identifies(history[q], lowered) && forall r | q < r < end :: !Closes(history[r], lowered)
  }

  /** A WHOIS of the nick ended there, and in it the nick was identified. */
  ghost predicate VouchedAt(history: seq<Input>, lowered: string, p: int) {
    0 <= p < |history| && Ends(history[p], lowered) && exists q :: IdentifiedAt(history, lowered, q, p)
  }

  /** From there on the nick has stayed. */
  ghost predicate Stays(config: Config, history: seq<Input>, forBot: string -> bool, lowered: string, p: int, end: int) {
    0 <= p <= end <= |history|
    && forall r | p < r < end :: !Departs(Run(config, history[..r], forBot), history[r], lowered)
  }

  ghost predicate AskedSound(history: seq<Input>, asked: map<string, Identity>) {
    forall l | l in asked && asked[l].registered :: exists q :: IdentifiedAt(history, l, q, |history|)
  }

  ghost predicate Backs(config: Config, history: seq<Input>, forBot: string -> bool, l: string, expires: int, p: int) {
    && VouchedAt(history, l, p) && Stays(config, history, forBot, l, p, |history|)
    && expires == history[p].now + config.registrationSeconds
  }

  ghost predicate RegistrationsSound(config: Config, history: seq<Input>, forBot: string -> bool,
                                     registrations: map<string, Registration>) {
    forall l | l in registrations && registrations[l].registered ::
      exists p :: Backs(config, history, forBot, l, registrations[l].expires, p)
  }

  lemma IdentifiedLater(history: seq<Input>, input: Input, l: string, q: int)
    requires IdentifiedAt(history, l, q, |history|) && !Closes(input, l)
    ensures IdentifiedAt(history + [input], l, q, |history| + 1)
  {
    hide Identifies; hide Closes;
  }

  lemma IdentifiedPrefix(history: seq<Input>, input: Input, l: string, q: int, end: int)
    requires IdentifiedAt(history, l, q, end)
    ensures IdentifiedAt(history + [input], l, q, end)
  {
    hide Identifies; hide Closes;
  }

  /** What an input does to the WHOIS replies under way. */
  lemma AskedStep(config: Config, link: Link, input: Input, forBot: string -> bool, l: string)
    ensures var after := React(config, link, input, forBot).link;
            l in after.asked && after.asked[l].registered ==>
              Identifies(input, l) || (l in link.asked && link.asked[l].registered && !Closes(input, l))
  {
    hide Lower; hide NickOf; hide Others; hide AnswersFor; hide WarningsFor; hide ToldAfter; hide OldTold; hide Late; hide OnTime;
    hide IsCommand; hide OfKnown; hide SameName; hide Released; hide OwnAffair;
  }

  lemma AskedKeeps(config: Config, history: seq<Input>, input: Input, forBot: string -> bool, link: Link)
    requires AskedSound(history, link.asked)
    ensures AskedSound(history + [input], React(config, link, input, forBot).link.asked)
  {
    hide React; hide Identifies; hide Closes;
    var asked, more := React(config, link, input, forBot).link.asked, history + [input];
    forall l | l in asked && asked[l].registered
      ensures exists q :: IdentifiedAt(more, l, q, |more|)
    {
      AskedStep(config, link, input, forBot, l);
      if Identifies(input, l) {
        assert IdentifiedAt(more, l, |history|, |more|);
      } else {
        var q :| IdentifiedAt(history, l, q, |history|);
        IdentifiedLater(history, input, l, q);
      }
    }
  }

  /** What an input does to the registrations that are kept. */
  lemma RegistrationStep(config: Config, link: Link, input: Input, forBot: string -> bool, l: string)
    ensures var after := React(config, link, input, forBot).link;
            l in after.registrations && after.registrations[l].registered ==>
              || (Ends(input, l) && l in link.asked && link.asked[l].registered
                  && after.registrations[l].expires == input.now + config.registrationSeconds)
              || (!Departs(link, input, l) && l in link.registrations && link.registrations[l].registered
                  && after.registrations[l].expires == link.registrations[l].expires)
  {
    hide Lower; hide NickOf; hide Others; hide AnswersFor; hide WarningsFor; hide ToldAfter; hide OldTold; hide Late; hide OnTime;
    hide IsCommand; hide OwnAffair;
  }

  lemma BacksLater(config: Config, history: seq<Input>, input: Input, forBot: string -> bool, l: string, expires: int, p: int)
    requires Backs(config, history, forBot, l, expires, p)
    requires !Departs(Run(config, history, forBot), input, l)
    ensures Backs(config, history + [input], forBot, l, expires, p)
  {
    hide Departs; hide Ends; hide Run;
    var q :| IdentifiedAt(history, l, q, p);
    IdentifiedPrefix(history, input, l, q, p);
    forall r | p < r < |history| + 1
      ensures !Departs(Run(config, (history + [input])[..r], forBot), (history + [input])[r], l)
    {
      assert (history + [input])[..r] == history[..r];
      assert history[..|history|] == history;
    }
  }

  lemma RegistrationsKeep(config: Config, history: seq<Input>, input: Input, forBot: string -> bool)
    requires var link := Run(config, history, forBot);
             AskedSound(history, link.asked) && RegistrationsSound(config, history, forBot, link.registrations)
    ensures RegistrationsSound(config, history + [input], forBot,
                               React(config, Run(config, history, forBot), input, forBot).link.registrations)
  {
    hide React; hide Run; hide Departs; hide Ends; hide Identifies; hide Closes;
    var link := Run(config, history, forBot);
    var after := React(config, link, input, forBot).link.registrations;
    var more := history + [input];
    forall l | l in after && after[l].registered
      ensures exists p :: Backs(config, more, forBot, l, after[l].expires, p)
    {
      RegistrationStep(config, link, input, forBot, l);
      if !Departs(link, input, l) && l in link.registrations && link.registrations[l].registered
         && after[l].expires == link.registrations[l].expires {
        var p :| Backs(config, history, forBot, l, link.registrations[l].expires, p);
        BacksLater(config, history, input, forBot, l, link.registrations[l].expires, p);
      } else {
        var q :| IdentifiedAt(history, l, q, |history|);
        IdentifiedPrefix(history, input, l, q, |history|);
        assert more[|history|] == input;
        assert VouchedAt(more, l, |history|);
        assert Backs(config, more, forBot, l, after[l].expires, |history|);
      }
    }
  }

  lemma {:induction false} AlwaysVouched(config: Config, history: seq<Input>, forBot: string -> bool)
    ensures var link := Run(config, history, forBot);
            AskedSound(history, link.asked) && RegistrationsSound(config, history, forBot, link.registrations)
  {
    if history != [] {
      hide AskedSound; hide RegistrationsSound; hide React;
      var before, input := history[..|history| - 1], history[|history| - 1];
      AlwaysVouched(config, before, forBot);
      AskedKeeps(config, before, input, forBot, Run(config, before, forBot));
      RegistrationsKeep(config, before, input, forBot);
      assert before + [input] == history;
    }
  }

  /** Who is answered when. */
  lemma AnswerStep(config: Config, link: Link, input: Input, forBot: string -> bool, s: Sent)
    requires s in React(config, link, input, forBot).sent && s.Answered?
    ensures var l := Lower(s.nick);
            || (Ends(input, l) && l in link.asked && link.asked[l].registered)
            || (input.Handles? && l in link.registrations && link.registrations[l].registered
                && link.registrations[l].expires > input.now)
  {
  }

  /** Over every run, whoever is answered is a nick for which a WHOIS ended in which it was identified: at that very moment, or
      no longer ago than its registration is kept, with the nick never gone since. */
  lemma OnlyVouchedAnswered(config: Config, history: seq<Input>, k: nat, forBot: string -> bool, s: Sent)
    requires k < |history| && s in SentAt(config, history, k, forBot) && s.Answered?
    ensures exists p ::
              && VouchedAt(history, Lower(s.nick), p) && Stays(config, history, forBot, Lower(s.nick), p, k)
              && (p == k || (p < k && history[k].Handles? && history[k].now < history[p].now + config.registrationSeconds))
  {
    hide React; hide Ends; hide Departs; hide Identifies; hide Closes;
    var before, input, l := history[..k], history[k], Lower(s.nick);
    var link := Run(config, before, forBot);
    AlwaysVouched(config, before, forBot);
    AnswerStep(config, link, input, forBot, s);
    if Ends(input, l) && l in link.asked && link.asked[l].registered {
      var q :| IdentifiedAt(before, l, q, |before|);
      IdentifiedWithin(history, k, l, q, k);
      assert VouchedAt(history, l, k);
      assert Stays(config, history, forBot, l, k, k);
    } else {
      var p :| Backs(config, before, forBot, l, link.registrations[l].expires, p);
      var q :| IdentifiedAt(before, l, q, p);
      IdentifiedWithin(history, k, l, q, p);
      assert VouchedAt(history, l, p);
      StaysWithin(config, history, k, forBot, l, p);
    }
  }

  lemma IdentifiedWithin(history: seq<Input>, k: nat, l: string, q: int, end: int)
    requires k <= |history| && IdentifiedAt(history[..k], l, q, end)
    ensures IdentifiedAt(history, l, q, end)
  {
    hide Identifies; hide Closes;
    forall r | q < r < end
      ensures !Closes(history[r], l)
    {
      assert history[..k][r] == history[r];
    }
  }

  lemma StaysWithin(config: Config, history: seq<Input>, k: nat, forBot: string -> bool, l: string, p: int)
    requires k <= |history| && Stays(config, history[..k], forBot, l, p, k)
    ensures Stays(config, history, forBot, l, p, k)
  {
    hide Departs; hide Run;
    forall r | p < r < k
      ensures !Departs(Run(config, history[..r], forBot), history[r], l)
    {
      assert history[..k][..r] == history[..r] && history[..k][r] == history[r];
    }
  }

  // ---------------------------------------------------------------- every WHOIS has a line waiting for it

  ghost predicate AllWaitedFor(link: Link) {
    forall l | l in link.asked :: exists k :: 0 <= k < |link.waiting| && IsFrom(link.waiting[k], l)
  }

  lemma StillThere(waiting: seq<Waiting>, kept: seq<Waiting>, l: string)
    requires forall w | w in waiting && IsFrom(w, l) :: w in kept
    requires exists k :: 0 <= k < |waiting| && IsFrom(waiting[k], l)
    ensures exists k :: 0 <= k < |kept| && IsFrom(kept[k], l)
  {
    var k :| 0 <= k < |waiting| && IsFrom(waiting[k], l);
    assert waiting[k] in kept;
  }

  lemma EndedWaitedFor(link: Link, lowered: string)
    requires AllWaitedFor(link)
    ensures AllWaitedFor(link.(asked := link.asked - {lowered}, waiting := Others(link.waiting, lowered)))
  {
    forall l | l in link.asked && l != lowered
      ensures exists k :: 0 <= k < |Others(link.waiting, lowered)| && IsFrom(Others(link.waiting, lowered)[k], l)
    {
      StillThere(link.waiting, Others(link.waiting, lowered), l);
    }
  }

  lemma TickedWaitedFor(link: Link, now: int)
    requires AllWaitedFor(link)
    ensures AllWaitedFor(Ticked(link, now))
  {
    forall l | l in link.asked && l !in Late(link.waiting, now)
      ensures exists k :: 0 <= k < |OnTime(link.waiting, now)| && IsFrom(OnTime(link.waiting, now)[k], l)
    {
      StillThere(link.waiting, OnTime(link.waiting, now), l);
    }
  }

  lemma UnknownWaitedFor(config: Config, link: Link, sender: string, text: string, now: int)
    requires AllWaitedFor(link)
    ensures AllWaitedFor(OfUnknown(config, link, sender, text, now).link)
  {
    var after := OfUnknown(config, link, sender, text, now).link;
    assert IsFrom(after.waiting[|link.waiting|], Lower(sender));
    forall l | l in link.asked
      ensures exists k :: 0 <= k < |after.waiting| && IsFrom(after.waiting[k], l)
    {
      StillThere(link.waiting, after.waiting, l);
    }
  }

  /** The fields a reaction may have changed, input by input. */
  lemma AllWaitedForStays(link: Link, after: Link)
    requires AllWaitedFor(link) && after.waiting == link.waiting && after.asked.Keys == link.asked.Keys
    ensures AllWaitedFor(after)
  {
    hide IsFrom;
  }

  lemma WaitedForStep(config: Config, link: Link, input: Input, forBot: string -> bool)
    requires AllWaitedFor(link)
    ensures AllWaitedFor(React(config, link, input, forBot).link)
  {
    hide AllWaitedFor; hide Others; hide Late; hide OnTime; hide IsCommand; hide Lower; hide NickOf; hide OwnAffair; hide IsOwnAffair;
    hide OfKnown; hide OfUnknown; hide IsKnown; hide Ticked; hide IsDeparture;
    var after := React(config, link, input, forBot).link;
    match input
    case Connects => assert AllWaitedFor(after) by { NobodyAsked(after); }
    case Ticks(now) => TickedWaitedFor(link, now);
    case Handles(message, now) =>
      var named := Lower(message.Param(1));
      EndedWaitedFor(link, named);
      UnknownWaitedFor(config, link, NickOf(message.prefix), message.Param(1), now);
      if after.waiting == link.waiting && after.asked.Keys == link.asked.Keys {
        AllWaitedForStays(link, after);
      } else if message.command == "318" && named in link.asked {
        var ended := link.(asked := link.asked - {named}, waiting := Others(link.waiting, named));
        AllWaitedForStays(ended, after);
      }
  }

  lemma NobodyAsked(link: Link)
    requires link.asked == map[]
    ensures AllWaitedFor(link)
  {
  }

  /** Over every run, each WHOIS under way has a line that waits for it. */
  lemma {:induction false} AlwaysWaitedFor(config: Config, history: seq<Input>, forBot: string -> bool)
    ensures AllWaitedFor(Run(config, history, forBot))
  {
    hide AllWaitedFor; hide React;
    if history == [] {
      NobodyAsked(Connected(config).link);
    } else {
      AlwaysWaitedFor(config, history[..|history| - 1], forBot);
      WaitedForStep(config, Run(config, history[..|history| - 1], forBot), history[|history| - 1], forBot);
    }
  }

  // ---------------------------------------------------------------- each line once, and in order

  /** Some of them, in their order, each once. */
  predicate Sub(few: seq<string>, many: seq<string>) {
    if few == [] then true
    else if many == [] then false
    else
      var f, m := |few| - 1, |many| - 1;
      (few[f] == many[m] && Sub(few[..f], many[..m])) || Sub(few, many[..m])
  }

  lemma {:induction false} SubSelf(all: seq<string>)
    ensures Sub(all, all)
  {
    if all != [] {
      SubSelf(all[..|all| - 1]);
    }
  }

  lemma SubMore(few: seq<string>, many: seq<string>, more: string)
    requires Sub(few, many)
    ensures Sub(few, many + [more]) && Sub(few + [more], many + [more])
  {
    assert (many + [more])[..|many|] == many && (few + [more])[..|few|] == few;
  }

  lemma {:induction false} SubOn(few: seq<string>, some: seq<string>, many: seq<string>)
    requires Sub(few, some) && Sub(some, many)
    ensures Sub(few, many)
    decreases |many|
  {
    if few != [] {
      var s, m := |some| - 1, |many| - 1;
      if Sub(some, many[..m]) {
        SubOn(few, some, many[..m]);
      } else if Sub(few, some[..s]) {
        SubOn(few, some[..s], many[..m]);
      } else {
        SubOn(few[..|few| - 1], some[..s], many[..m]);
      }
    }
  }

  lemma SubLast(few: seq<string>, many: seq<string>)
    requires Sub(few, many)
    ensures many == [] ==> few == []
    ensures many != [] ==>
              || Sub(few, many[..|many| - 1])
              || (few != [] && few[|few| - 1] == many[|many| - 1] && Sub(few[..|few| - 1], many[..|many| - 1]))
  {
  }

  lemma {:induction false} SubAfter(front: seq<string>, few: seq<string>, many: seq<string>)
    requires Sub(few, many)
    ensures Sub(front + few, front + many)
  {
    hide Sub;
    SubLast(few, many);
    if many == [] {
      SubSelf(front + few);
    } else {
      var f, m := |few| - 1, |many| - 1;
      assert front + many[..m] + [many[m]] == front + many;
      if Sub(few, many[..m]) {
        SubAfter(front, few, many[..m]);
        SubMore(front + few, front + many[..m], many[m]);
      } else {
        SubAfter(front, few[..f], many[..m]);
        SubMore(front + few[..f], front + many[..m], many[m]);
        assert front + few[..f] + [few[f]] == front + few;
      }
    }
  }

  /** The lines of one nick that wait. */
  function TextsOf(waiting: seq<Waiting>, l: string): seq<string> {
    if waiting == [] then [] else
    var last, before := waiting[|waiting| - 1], TextsOf(waiting[..|waiting| - 1], l);
    if IsFrom(last, l) then before + [last.text] else before
  }

  /** The lines of one nick that are answered. */
  function AnsweredTo(sent: seq<Sent>, l: string): seq<string> {
    if sent == [] then [] else
    var last, before := sent[|sent| - 1], AnsweredTo(sent[..|sent| - 1], l);
    if last.Answered? && Lower(last.nick) == l then before + [last.text] else before
  }

  lemma {:induction false} TextsOfOthers(waiting: seq<Waiting>, lowered: string, l: string)
    ensures TextsOf(Others(waiting, lowered), l) == if l == lowered then [] else TextsOf(waiting, l)
  {
    if waiting != [] {
      var last, before := waiting[|waiting| - 1], Others(waiting[..|waiting| - 1], lowered);
      TextsOfOthers(waiting[..|waiting| - 1], lowered, l);
      assert (before + [last])[..|before|] == before;
    }
  }

  lemma {:induction false} AnsweredTexts(waiting: seq<Waiting>, lowered: string, account: string, l: string)
    ensures AnsweredTo(AnswersFor(waiting, lowered, account), l) == if l == lowered then TextsOf(waiting, l) else []
  {
    if waiting != [] {
      var last, before := waiting[|waiting| - 1], AnswersFor(waiting[..|waiting| - 1], lowered, account);
      AnsweredTexts(waiting[..|waiting| - 1], lowered, account, l);
      assert (before + [Answered(last.nick, account, last.text)])[..|before|] == before;
    }
  }

  lemma {:induction false} NotAnswered(sent: seq<Sent>, l: string)
    requires forall s | s in sent :: !s.Answered?
    ensures AnsweredTo(sent, l) == []
  {
    if sent != [] {
      assert sent[|sent| - 1] in sent;
      NotAnswered(sent[..|sent| - 1], l);
    }
  }

  lemma {:induction false} OnTimeSub(waiting: seq<Waiting>, now: int, l: string)
    ensures Sub(TextsOf(OnTime(waiting, now), l), TextsOf(waiting, l))
  {
    if waiting != [] {
      var last, before := waiting[|waiting| - 1], OnTime(waiting[..|waiting| - 1], now);
      OnTimeSub(waiting[..|waiting| - 1], now, l);
      assert (before + [last])[..|before|] == before;
      SubMore(TextsOf(before, l), TextsOf(waiting[..|waiting| - 1], l), last.text);
    }
  }

  lemma TextsOfMore(waiting: seq<Waiting>, last: Waiting, l: string)
    ensures TextsOf(waiting + [last], l) == if IsFrom(last, l) then TextsOf(waiting, l) + [last.text] else TextsOf(waiting, l)
  {
    assert (waiting + [last])[..|waiting|] == waiting;
  }

  /** A line of that nick, if the input is a command of his. */
  function CommandOf(config: Config, link: Link, input: Input, forBot: string -> bool, l: string): seq<string> {
    if input.Handles? && !IsOwnAffair(link, input.message) && IsCommand(config, link, input.message, forBot)
       && Lower(NickOf(input.message.prefix)) == l
    then [input.message.Param(1)] else []
  }

  function CommandsOf(config: Config, history: seq<Input>, forBot: string -> bool, l: string): seq<string> {
    if history == [] then [] else
    var before := history[..|history| - 1];
    CommandsOf(config, before, forBot, l) + CommandOf(config, Run(config, before, forBot), history[|history| - 1], forBot, l)
  }

  function AnswersOf(config: Config, history: seq<Input>, forBot: string -> bool, l: string): seq<string> {
    if history == [] then [] else
    var before := history[..|history| - 1];
    AnswersOf(config, before, forBot, l)
      + AnsweredTo(React(config, Run(config, before, forBot), history[|history| - 1], forBot).sent, l)
  }

  /** What one input does to the lines of a nick: what waits is answered, or kept, or given up; his command is answered at once
      only when none of his lines waits. */
  ghost predicate Moves(before: seq<string>, command: seq<string>, answered: seq<string>, after: seq<string>) {
    || (answered == [] && Sub(after, before + command))
    || (answered == before && after == [] && command == [])
    || (answered == command && before == [] && after == [])
  }

  /** Only when the clock goes back is a command answered while older lines of the nick wait. */
  ghost predicate Overtakes(before: seq<string>, command: seq<string>, answered: seq<string>, after: seq<string>) {
    answered == command && after == before
  }

  lemma MovesOn(answers: seq<string>, commands: seq<string>, before: seq<string>, command: seq<string>, answered: seq<string>,
                after: seq<string>)
    requires Sub(answers + before, commands) && Moves(before, command, answered, after) && |command| <= 1
    ensures Sub(answers + answered + after, commands + command)
  {
    if |command| == 1 {
      SubMore(answers + before, commands, command[0]);
      assert command == [command[0]];
      assert answers + before + command == answers + (before + command);
    }
    assert command == [] ==> commands + command == commands && before + command == before;
    if answered == [] && Sub(after, before + command) {
      SubAfter(answers, after, before + command);
      assert answers + answered + after == answers + after;
      SubOn(answers + after, answers + (before + command), commands + command);
    } else {
      assert answers + answered + after == answers + answered;
      assert before == [] ==> answers + before == answers;
    }
  }

  /** A nick whose registration still holds has no line waiting. */
  ghost predicate NoneWaits(link: Link, l: string, now: int) {
    IsKnown(link, l, now) ==> TextsOf(link.waiting, l) == []
  }

  lemma CommandMoves(config: Config, link: Link, sender: string, text: string, now: int, l: string)
    ensures var reaction := Commanded(config, link, sender, text, now);
            var before, command := TextsOf(link.waiting, l), if Lower(sender) == l then [text] else [];
            var answered, after := AnsweredTo(reaction.sent, l), TextsOf(reaction.link.waiting, l);
            && (Moves(before, command, answered, after) || Overtakes(before, command, answered, after))
            && (NoneWaits(link, Lower(sender), now) ==> Moves(before, command, answered, after))
  {
    hide Lower;
    var before := TextsOf(link.waiting, l);
    TextsOfMore(link.waiting, Waiting(sender, text, now + config.whoisSeconds), l);
    SubSelf(before);
    SubSelf(before + [text]);
    SubMore(before, before, text);
    assert before + [] == before;
    assert AnsweredTo([], l) == [];
    Alone(Whois(sender), l);
    Alone(Unregistered(sender), l);
    if IsKnown(link, Lower(sender), now) {
      Alone(Answered(sender, link.registrations[Lower(sender)].account, text), l);
    }
  }

  lemma Alone(s: Sent, l: string)
    ensures AnsweredTo([s], l) == if s.Answered? && Lower(s.nick) == l then [s.text] else []
  {
    assert [s][..0] == [];
  }

  lemma EndedMoves(config: Config, link: Link, lowered: string, now: int, l: string)
    ensures var reaction := Ended(config, link, lowered, now);
            Moves(TextsOf(link.waiting, l), [], AnsweredTo(reaction.sent, l), TextsOf(reaction.link.waiting, l))
  {
    hide AnswersFor; hide WarningsFor; hide ToldAfter; hide TextsOf; hide AnsweredTo; hide Others; hide Lower;
    var before := TextsOf(link.waiting, l);
    SubSelf(before);
    assert before + [] == before;
    TextsOfOthers(link.waiting, lowered, l);
    NotAnswered([], l);
    if lowered in link.asked {
      var identity := link.asked[lowered];
      AnsweredTexts(link.waiting, lowered, if identity.account == "" then lowered else identity.account, l);
      NotAnswered(WarningsFor(link.waiting, lowered, OldTold(link, lowered), now, config.registrationSeconds), l);
    }
  }

  lemma ReactMoves(config: Config, link: Link, input: Input, forBot: string -> bool, l: string)
    ensures var reaction := React(config, link, input, forBot);
            var before, command := TextsOf(link.waiting, l), CommandOf(config, link, input, forBot, l);
            var answered, after := AnsweredTo(reaction.sent, l), TextsOf(reaction.link.waiting, l);
            && (Moves(before, command, answered, after) || Overtakes(before, command, answered, after))
            && ((input.Handles? ==> NoneWaits(link, Lower(NickOf(input.message.prefix)), input.now)) ==>
                  Moves(before, command, answered, after))
  {
    hide TextsOf; hide AnsweredTo; hide Others; hide Lower; hide NickOf; hide OnTime; hide Late; hide NoneWaits; hide Commanded; hide Ended;
    hide IsOwnAffair; hide IsCommand; hide OwnAffair; hide IsDeparture;
    var before, reaction := TextsOf(link.waiting, l), React(config, link, input, forBot);
    SubSelf(before);
    assert before + [] == before;
    NotAnswered([], l);
    match input
    case Connects =>
      NotAnswered(reaction.sent, l);
      assert TextsOf([], l) == [] by { NobodyWaits(l); }
    case Ticks(now) => OnTimeSub(link.waiting, now, l);
    case Handles(message, now) =>
      EndedMoves(config, link, Lower(message.Param(1)), now, l);
      TextsOfOthers(link.waiting, Lower(message.Param(1)), l);
      CommandMoves(config, link, NickOf(message.prefix), message.Param(1), now, l);
      NotAnswered(OwnAffair(config, link, message).sent, l);
      CommandIsNoReply(config, link, message, forBot);
  }

  lemma NobodyWaits(l: string)
    ensures TextsOf([], l) == []
  {
  }

  lemma CommandIsNoReply(config: Config, link: Link, message: Message, forBot: string -> bool)
    ensures IsCommand(config, link, message, forBot) ==>
              message.command !in {"307", "330", "318", "401"} && !IsDeparture(message.command)
  {
    hide SameName; hide NickOf;
  }

  /** The instants of the inputs never go back. */
  ghost predicate InTime(history: seq<Input>) {
    forall j, k | 0 <= j < k < |history| && !history[j].Connects? && !history[k].Connects? :: history[j].now <= history[k].now
  }

  /** Whoever has a line waiting has no registration that holds: it ran out no later than some input. */
  ghost predicate RunOut(history: seq<Input>, link: Link) {
    forall l | l in link.registrations && TextsOf(link.waiting, l) != [] ::
      exists k :: 0 <= k < |history| && !history[k].Connects? && link.registrations[l].expires <= history[k].now
  }

  lemma RunOutStep(config: Config, history: seq<Input>, link: Link, input: Input, forBot: string -> bool)
    requires RunOut(history, link)
    ensures RunOut(history + [input], React(config, link, input, forBot).link)
  {
    hide React;
    var after, more := React(config, link, input, forBot).link, history + [input];
    forall l | l in after.registrations && TextsOf(after.waiting, l) != []
      ensures exists k :: 0 <= k < |more| && !more[k].Connects? && after.registrations[l].expires <= more[k].now
    {
      WaitsStep(config, link, input, forBot, l);
      assert more[|history|] == input;
      if l in link.registrations && TextsOf(link.waiting, l) != [] && after.registrations[l].expires == link.registrations[l].expires {
        var k :| 0 <= k < |history| && !history[k].Connects? && link.registrations[l].expires <= history[k].now;
        assert more[k] == history[k];
      }
    }
  }

  lemma WaitsStep(config: Config, link: Link, input: Input, forBot: string -> bool, l: string)
    ensures var after := React(config, link, input, forBot).link;
            l in after.registrations && TextsOf(after.waiting, l) != [] ==>
              && !input.Connects? && l in link.registrations
              && after.registrations[l].expires == link.registrations[l].expires
              && (TextsOf(link.waiting, l) != [] || link.registrations[l].expires <= input.now)
  {
    hide TextsOf; hide Others; hide Lower; hide NickOf; hide OnTime; hide Late; hide IsCommand; hide OwnAffair; hide IsOwnAffair;
    hide AnswersFor; hide WarningsFor; hide ToldAfter; hide IsDeparture; hide IsFrom;
    NobodyWaits(l);
    match input
    case Connects =>
    case Ticks(now) =>
      OnTimeSub(link.waiting, now, l);
      assert Sub(TextsOf(OnTime(link.waiting, now), l), []) ==> TextsOf(OnTime(link.waiting, now), l) == [];
    case Handles(message, now) =>
      TextsOfOthers(link.waiting, Lower(message.Param(1)), l);
      var sender := NickOf(message.prefix);
      TextsOfMore(link.waiting, Waiting(sender, message.Param(1), now + config.whoisSeconds), l);
      FromSender(sender, message.Param(1), now + config.whoisSeconds, l);
  }

  lemma FromSender(sender: string, text: string, deadline: int, l: string)
    ensures IsFrom(Waiting(sender, text, deadline), l) <==> Lower(sender) == l
  {
  }

  lemma {:induction false} AnsweredInOrder(config: Config, history: seq<Input>, forBot: string -> bool, l: string)
    requires InTime(history)
    ensures RunOut(history, Run(config, history, forBot))
    ensures Sub(AnswersOf(config, history, forBot, l) + TextsOf(Run(config, history, forBot).waiting, l),
                CommandsOf(config, history, forBot, l))
  {
    hide React; hide RunOut; hide CommandOf; hide AnsweredTo; hide TextsOf; hide Sub;
    if history == [] {
      NothingYet(config, l);
    } else {
      var before, input := history[..|history| - 1], history[|history| - 1];
      var link := Run(config, before, forBot);
      AnsweredInOrder(config, before, forBot, l);
      RunOutStep(config, before, link, input, forBot);
      assert before + [input] == history;
      if input.Handles? {
        RunOutNone(before, link, input, Lower(NickOf(input.message.prefix)));
      }
      ReactMoves(config, link, input, forBot, l);
      OneAtMost(config, link, input, forBot, l);
      MovesOn(AnswersOf(config, before, forBot, l), CommandsOf(config, before, forBot, l), TextsOf(link.waiting, l),
              CommandOf(config, link, input, forBot, l), AnsweredTo(React(config, link, input, forBot).sent, l),
              TextsOf(React(config, link, input, forBot).link.waiting, l));
    }
  }

  lemma NothingYet(config: Config, l: string)
    ensures RunOut([], Connected(config).link) && Sub([] + TextsOf(Connected(config).link.waiting, l), [])
  {
  }

  lemma OneAtMost(config: Config, link: Link, input: Input, forBot: string -> bool, l: string)
    ensures |CommandOf(config, link, input, forBot, l)| <= 1
  {
  }

  lemma RunOutNone(before: seq<Input>, link: Link, input: Input, l: string)
    requires RunOut(before, link) && InTime(before + [input]) && input.Handles?
    ensures NoneWaits(link, l, input.now)
  {
    var history := before + [input];
    assert history[|before|] == input;
    assert forall k | 0 <= k < |before| :: history[k] == before[k];
  }

  /** Over every run in time, the lines of a nick that are answered are some of the commands it wrote, each once and in order. */
  lemma AnsweredOnce(config: Config, history: seq<Input>, forBot: string -> bool, l: string)
    requires InTime(history)
    ensures Sub(AnswersOf(config, history, forBot, l), CommandsOf(config, history, forBot, l))
  {
    hide Sub; hide TextsOf; hide Run; hide AnswersOf; hide CommandsOf;
    var answers, waits := AnswersOf(config, history, forBot, l), TextsOf(Run(config, history, forBot).waiting, l);
    AnsweredInOrder(config, history, forBot, l);
    SubNone(waits);
    SubAfter(answers, [], waits);
    assert answers + [] == answers;
    SubOn(answers, answers + waits, CommandsOf(config, history, forBot, l));
  }

  lemma {:induction false} SubCounts(few: seq<string>, many: seq<string>)
    requires Sub(few, many)
    ensures multiset(few) <= multiset(many)
  {
    if few != [] {
      var f, m := |few| - 1, |many| - 1;
      assert few == few[..f] + [few[f]] && many == many[..m] + [many[m]];
      if Sub(few, many[..m]) {
        SubCounts(few, many[..m]);
      } else {
        SubCounts(few[..f], many[..m]);
      }
    }
  }

  lemma MovesCount(before: seq<string>, command: seq<string>, answered: seq<string>, after: seq<string>)
    requires Moves(before, command, answered, after) || Overtakes(before, command, answered, after)
    ensures multiset(answered) + multiset(after) <= multiset(before) + multiset(command)
  {
    if answered == [] && Sub(after, before + command) {
      SubCounts(after, before + command);
    }
  }

  lemma {:induction false} AnsweredWithin(config: Config, history: seq<Input>, forBot: string -> bool, l: string)
    ensures multiset(AnswersOf(config, history, forBot, l)) + multiset(TextsOf(Run(config, history, forBot).waiting, l))
         <= multiset(CommandsOf(config, history, forBot, l))
  {
    hide React; hide CommandOf; hide AnsweredTo; hide TextsOf; hide Moves; hide Overtakes; hide NoneWaits;
    if history == [] {
      NobodyWaits(l);
    } else {
      var before, input := history[..|history| - 1], history[|history| - 1];
      var link := Run(config, before, forBot);
      AnsweredWithin(config, before, forBot, l);
      ReactMoves(config, link, input, forBot, l);
      var waited, command := TextsOf(link.waiting, l), CommandOf(config, link, input, forBot, l);
      var answered := AnsweredTo(React(config, link, input, forBot).sent, l);
      var waits := TextsOf(React(config, link, input, forBot).link.waiting, l);
      MovesCount(waited, command, answered, waits);
      CountsOn(AnswersOf(config, before, forBot, l), CommandsOf(config, before, forBot, l), waited, command, answered, waits);
    }
  }

  lemma CountsOn(answers: seq<string>, commands: seq<string>, before: seq<string>, command: seq<string>, answered: seq<string>,
                 after: seq<string>)
    requires multiset(answers) + multiset(before) <= multiset(commands)
    requires multiset(answered) + multiset(after) <= multiset(before) + multiset(command)
    ensures multiset(answers + answered) + multiset(after) <= multiset(commands + command)
  {
    forall text: string
      ensures multiset(answers + answered)[text] + multiset(after)[text] <= multiset(commands + command)[text]
    {
      assert (multiset(answers) + multiset(before))[text] <= multiset(commands)[text];
      assert (multiset(answered) + multiset(after))[text] <= (multiset(before) + multiset(command))[text];
    }
  }

  /** Over every run, whatever the clock does, no line of a nick is answered more often than it was written. */
  lemma AnsweredAtMost(config: Config, history: seq<Input>, forBot: string -> bool, l: string)
    ensures multiset(AnswersOf(config, history, forBot, l)) <= multiset(CommandsOf(config, history, forBot, l))
  {
    hide AnswersOf; hide CommandsOf; hide TextsOf; hide Run;
    AnsweredWithin(config, history, forBot, l);
  }

  lemma SubNone(many: seq<string>)
    ensures Sub([], many)
  {
  }
}

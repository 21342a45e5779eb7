/** src/irc_session.cpp, the class: the fields of a session, changed in place message by message. */
module IrcClass {
  import opened Text
  import opened IrcProtocol
  import opened IrcSession

  // ---------------------------------------------------------------- a queue with a line taken out of it

  lemma TakenOut<T>(front: seq<T>, rest: seq<T>)
    requires rest != []
    ensures (front + rest)[|front|] == rest[0]
    ensures (front + rest)[..|front|] + (front + rest)[|front| + 1..] == front + rest[1..]
    ensures front + rest == (front + [rest[0]]) + rest[1..]
  {
  }

  lemma OthersStep(done: seq<Waiting>, w: Waiting, lowered: string)
    ensures Others(done + [w], lowered) == if IsFrom(w, lowered) then Others(done, lowered) else Others(done, lowered) + [w]
  {
    assert (done + [w])[..|done|] == done;
  }

  lemma DealtStep(done: seq<Waiting>, w: Waiting, lowered: string, account: string, told: int, now: int, seconds: int)
    ensures var sofar := ToldAfter(done, lowered, told, now, seconds);
            var warns := IsFrom(w, lowered) && sofar + seconds <= now;
            && ToldAfter(done + [w], lowered, told, now, seconds) == (if warns then now else sofar)
            && WarningsFor(done + [w], lowered, told, now, seconds)
                 == (if warns then WarningsFor(done, lowered, told, now, seconds) + [Unregistered(w.nick)]
                     else WarningsFor(done, lowered, told, now, seconds))
            && AnswersFor(done + [w], lowered, account)
                 == (if IsFrom(w, lowered) then AnswersFor(done, lowered, account) + [Answered(w.nick, account, w.text)]
                     else AnswersFor(done, lowered, account))
  {
    hide IsFrom;
    assert (done + [w])[..|done|] == done;
  }

  lemma OnTimeStep(done: seq<Waiting>, w: Waiting, now: int)
    ensures OnTime(done + [w], now) == if w.deadline > now then OnTime(done, now) + [w] else OnTime(done, now)
    ensures Late(done + [w], now) == if w.deadline <= now then Late(done, now) + {Lower(w.nick)} else Late(done, now)
  {
    assert (done + [w])[..|done|] == done;
  }

  lemma NobodyLate(now: int)
    ensures OnTime([], now) == [] && Late([], now) == {}
  {
  }

  lemma NobodyThere(lowered: string, account: string, told: int, now: int, seconds: int)
    ensures Others([], lowered) == [] && ToldAfter([], lowered, told, now, seconds) == told
    ensures AnswersFor([], lowered, account) == [] && WarningsFor([], lowered, told, now, seconds) == []
  {
  }

  class Session {
    const config: Config
    const forBot: string -> bool
    var nick: string
    var joined: bool
    var registrations: map<string, Registration>
    var asked: map<string, Identity>
    var waiting: seq<Waiting>

    /** The session as one value. */
    ghost function Now(): Link
      reads this
    {
      Link(nick, joined, registrations, asked, waiting)
    }

    constructor (config: Config, forBot: string -> bool)
      ensures this.config == config && this.forBot == forBot
      ensures Now() == Connected(config).link
    {
      this.config := config;
      this.forBot := forBot;
      nick := config.nick;
      joined := false;
      registrations := map[];
      asked := map[];
      waiting := [];
    }

    method Connect() returns (sent: seq<Sent>)
      modifies this
      ensures Reaction(Now(), sent) == Connected(config)
    {
      joined := false;
      nick := config.nick;
      registrations := map[];
      asked := map[];
      waiting := [];
      sent := [SaysNick(nick), SaysUser];
    }

    /** The lines of a nick are taken off the queue one by one, answered or warned as they go. */
    method Release(lowered: string, identity: Identity, now: int) returns (sent: seq<Sent>)
      modifies this
      ensures Reaction(Now(), sent) == Released(config, old(Now()), lowered, identity, now)
    {
      hide IsFrom; hide Others; hide ToldAfter; hide AnswersFor; hide WarningsFor; hide Lower;
      var account := if identity.account == "" then lowered else identity.account;
      var entry := Registration(identity.registered, account, now + config.registrationSeconds,
                                if lowered in registrations then registrations[lowered].told else 0);
      ghost var told0 := entry.told;
      sent := [];
      var at := 0;
      ghost var done: seq<Waiting>, rest := [], waiting;
      NobodyThere(lowered, account, told0, now, config.registrationSeconds);
      while at < |waiting|
        invariant old(waiting) == done + rest && at == |Others(done, lowered)|
        invariant waiting == Others(done, lowered) + rest
        invariant entry == Registration(identity.registered, account, now + config.registrationSeconds,
                                        if identity.registered then told0
                                        else ToldAfter(done, lowered, told0, now, config.registrationSeconds))
        invariant sent == if identity.registered then AnswersFor(done, lowered, account)
                          else WarningsFor(done, lowered, told0, now, config.registrationSeconds)
        modifies this`waiting
        decreases |rest|
      {
        ghost var w := rest[0];
        TakenOut(Others(done, lowered), rest);
        TakenOut(done, rest);
        OthersStep(done, w, lowered);
        DealtStep(done, w, lowered, account, told0, now, config.registrationSeconds);
        if !IsFrom(waiting[at], lowered) {
          at := at + 1;
        } else {
          if identity.registered {
            sent := sent + [Answered(waiting[at].nick, account, waiting[at].text)];
          } else if entry.told + config.registrationSeconds <= now {
            entry := entry.(told := now);
            sent := sent + [Unregistered(waiting[at].nick)];
          }
          waiting := waiting[..at] + waiting[at + 1..];
        }
        done, rest := done + [w], rest[1..];
      }
      registrations := registrations[lowered := entry];
      assert rest == [] && done + [] == done && Others(done, lowered) + [] == Others(done, lowered);
    }

    /** A command of somebody else, in the channel. */
    method Command(sender: string, text: string, now: int) returns (sent: seq<Sent>)
      modifies this
      ensures Reaction(Now(), sent) == Commanded(config, old(Now()), sender, text, now)
    {
      var lowered := Lower(sender);
      sent := [];
      if lowered in registrations && registrations[lowered].expires > now {
        var known := registrations[lowered];
        if known.registered {
          sent := [Answered(sender, known.account, text)];
        } else if known.told + config.registrationSeconds <= now {
          registrations := registrations[lowered := known.(told := now)];
          sent := [Unregistered(sender)];
        }
        return;
      }
      waiting := waiting + [Waiting(sender, text, now + config.whoisSeconds)];
      if lowered !in asked {
        asked := asked[lowered := Identity(false, "")];
        sent := [Whois(sender)];
      }
    }

    method Handle(message: Message, now: int) returns (sent: seq<Sent>)
      modifies this
      ensures Reaction(Now(), sent) == Handled(config, old(Now()), message, now, forBot)
    {
      hide Released; hide Others; hide Commanded; hide Lower; hide NickOf;
      sent := [];
      var command := message.command;
      var sender := NickOf(message.prefix);
      var named := Lower(message.Param(1));
      if command == "PING" {
        sent := [Pong(message.Param(0))];
      } else if command == "ERROR" {
      } else if command == "001" {
        nick := message.Param(0);
        if config.password != "" {
          sent := [Identify];
        }
      } else if command == "376" || command == "422" {
        sent := [Joins];
      } else if command == "433" || command == "437" {
        nick := nick + "_";
        sent := [SaysNick(nick)];
      } else if command == "JOIN" && SameName(sender, nick) {
        joined := true;
      } else if command == "KICK" && SameName(message.Param(1), nick) {
        joined := false;
        sent := [Joins];
      } else if command == "307" {
        if named in asked {
          asked := asked[named := asked[named].(registered := true)];
        }
      } else if command == "330" {
        if named in asked && message.Param(2) != "" {
          asked := asked[named := Identity(true, message.Param(2))];
        }
      } else if command == "318" {
        if named in asked {
          var identity := asked[named];
          asked := asked - {named};
          sent := Release(named, identity, now);
        }
      } else if command == "401" {
        asked := asked - {named};
        Forget(named);
      } else if IsDeparture(command) {
        registrations := registrations - {Lower(sender)};
      } else if command == "PRIVMSG" && SameName(message.Param(0), config.channel) && sender != "" && !SameName(sender, nick)
                && forBot(message.Param(1)) {
        sent := Command(sender, message.Param(1), now);
      }
    }

    /** The lines of a nick that is gone. */
    method Forget(lowered: string)
      modifies this`waiting
      ensures waiting == Others(old(waiting), lowered)
    {
      var kept := [];
      for k := 0 to |waiting|
        invariant waiting == old(waiting) && kept == Others(waiting[..k], lowered)
      {
        assert waiting[..k + 1][..k] == waiting[..k];
        if !IsFrom(waiting[k], lowered) {
          kept := kept + [waiting[k]];
        }
      }
      assert waiting[..|waiting|] == waiting;
      waiting := kept;
    }

    method Tick(now: int)
      modifies this
      ensures Now() == Ticked(old(Now()), now)
    {
      hide OnTime; hide Late; hide Lower;
      var at := 0;
      ghost var done: seq<Waiting>, rest := [], waiting;
      NobodyLate(now);
      while at < |waiting|
        invariant old(waiting) == done + rest && at == |OnTime(done, now)|
        invariant waiting == OnTime(done, now) + rest
        invariant asked == old(asked) - Late(done, now)
        modifies this`waiting, this`asked
        decreases |rest|
      {
        ghost var w := rest[0];
        TakenOut(OnTime(done, now), rest);
        TakenOut(done, rest);
        OnTimeStep(done, w, now);
        if waiting[at].deadline > now {
          at := at + 1;
        } else {
          asked := asked - {Lower(waiting[at].nick)};
          waiting := waiting[..at] + waiting[at + 1..];
        }
        done, rest := done + [w], rest[1..];
      }
      assert rest == [] && done + [] == done && OnTime(done, now) + [] == OnTime(done, now);
      registrations := map name | name in registrations && registrations[name].expires > now :: registrations[name];
    }
  }
}

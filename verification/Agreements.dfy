/** src/game.cpp, player_link: over a run, nobody is linked who did not ask for it. */
module Agreements {
  import opened Basics
  import opened World
  import opened Rides
  import opened Naming
  import opened Claims
  import opened Journeys
  import opened Household
  import opened Linking
  import opened Runs
  import Burning
  import Quoting
  import Family

  /** The command asks, in the name of that account, to be one player with another. */
  ghost predicate Asks(s: State, command: Command, mine: string, theirs: string) {
    command.LinkAccounts? && command.mine == mine && Named(s, command.userId, command.other) == Some(theirs)
  }

  /** Every request after the command was there before it or is its own. */
  ghost predicate OwnRequest(s: State, command: Command, after: map<string, string>) {
    forall a | a in after :: (a in s.names.linkRequests && s.names.linkRequests[a] == after[a]) || Asks(s, command, a, after[a])
  }

  lemma RequestsStay(s: State, command: Command)
    ensures OwnRequest(s, command, s.names.linkRequests)
  {
  }

  lemma RememberedRequests(names: Names, player: string, userId: int)
    ensures Remembered(names, player, userId).linkRequests == names.linkRequests
  {
  }

  lemma ReadyRequests(s: State, userId: int, player: string)
    ensures Ready(s, userId, player).names.linkRequests == s.names.linkRequests
  {
    hide Remembered;
    RememberedRequests(s.names, player, userId);
  }

  lemma ClaimRequests(s: State, userId: int, player: string, now: int, rules: ClaimRules)
    ensures var t := Claim(s, userId, player, now, rules); t.Done? ==> t.value.names.linkRequests == s.names.linkRequests
  {
    hide Ready; hide SentAway; hide Met; hide MovedIn;
    ReadyRequests(s, userId, player);
  }

  lemma RaidStartRequests(s: State, userId: int, player: string, known: Option<string>, homewards: bool, load: Load, now: int,
                          rules: Rules)
    ensures var t := RaidStart(s, userId, player, known, homewards, load, now, rules);
            t.Done? ==> t.value.names.linkRequests == s.names.linkRequests
  {
    hide Remembered; hide RaidAnswer; hide Homewards; hide SetOff; hide PickedUp; hide IsLate;
    RememberedRequests(s.names, player, userId);
    var u := s.(names := Remembered(s.names, player, userId));
    var t := PickedUp(u, player, load.gift);
    assert t.names == u.names by { PickedUpNames(u, player, load.gift); }
    if homewards {
      HomewardsNames(u, player, now);
    } else if RaidAnswer(s, player, known, homewards, load, now, rules) == Started {
      SetOffNames(t, player, known.value, load, now, rules);
    }
  }

  lemma PickedUpNames(s: State, player: string, gift: int)
    ensures PickedUp(s, player, gift).names == s.names
  {
    hide PickedUp;
  }

  lemma HomewardsNames(s: State, player: string, now: int)
    ensures var t := Homewards(s, player, now); t.Done? ==> t.value.names == s.names
  {
    hide Homewards;
  }

  lemma SetOffNames(s: State, player: string, target: string, load: Load, now: int, rules: Rules)
    ensures var t := SetOff(s, player, target, load, now, rules); t.Done? ==> t.value.names == s.names
  {
    hide SetOff;
  }

  lemma MadeOneRequests(s: State, mine: string, theirs: string)
    requires mine in s.names.accounts && theirs in s.names.accounts
    ensures forall a | a in MadeOne(s, mine, theirs).names.linkRequests ::
              a in s.names.linkRequests && s.names.linkRequests[a] == MadeOne(s, mine, theirs).names.linkRequests[a]
  {
    hide MadeOne;
    MadeOneNames(s, mine, theirs);
  }

  lemma LinkAsks(s: State, mine: string, userId: int, other: Option<string>)
    ensures var t := Linking.Link(s, mine, userId, other);
            t.Done? ==> OwnRequest(s, LinkAccounts(mine, userId, other), t.value.names.linkRequests)
  {
    hide Linking.Link; hide Named; hide LinkAnswer; hide MadeOne; hide IsTheirs;
    var t, theirs := Linking.Link(s, mine, userId, other), Named(s, userId, other);
    if mine !in s.names.accounts {
      NotSeen(s, mine, userId, other);
    } else {
      LinkDoes(s, mine, userId, other);
      if theirs.Some? && theirs.value in s.names.accounts {
        MadeOneRequests(s, mine, theirs.value);
      }
    }
  }

  lemma LinkRequests(s: State, mine: string, userId: int, other: Option<string>)
    ensures OwnRequest(s, LinkAccounts(mine, userId, other), Next(s, LinkAccounts(mine, userId, other)).names.linkRequests)
  {
    hide Linking.Link; hide OwnRequest;
    LinkAsks(s, mine, userId, other);
    RequestsStay(s, LinkAccounts(mine, userId, other));
  }

  /** Only linking asks, and in one's own name only. */
  lemma NextRequests(s: State, command: Command)
    ensures OwnRequest(s, command, Next(s, command).names.linkRequests)
  {
    hide OwnRequest; hide Claim; hide RaidStart; hide Buy; hide Move; hide Take; hide Store; hide Burning.Burn; hide Burning.BurnPalle;
    hide Seen; hide Linking.Link; hide InviteDue; hide Family.Round; hide Linking.RecordInvite; hide HandedOut;
    hide Quoting.AddQuote; hide Quoting.DeleteQuote;
    RequestsStay(s, command);
    match command
    case ClaimPlace(userId, player, now, claims) => ClaimRequests(s, userId, player, now, claims);
    case StartRaid(userId, player, known, homewards, load, now, rules) =>
      RaidStartRequests(s, userId, player, known, homewards, load, now, rules);
    case LinkAccounts(mine, userId, other) => LinkRequests(s, mine, userId, other);
    case _ => OtherRequests(s, command);
  }

  lemma OtherRequests(s: State, command: Command)
    requires !command.ClaimPlace? && !command.StartRaid? && !command.LinkAccounts?
    ensures Next(s, command).names.linkRequests == s.names.linkRequests
  {
    hide Buy; hide Move; hide Take; hide Store; hide Burning.Burn; hide Burning.BurnPalle; hide Seen; hide InviteDue; hide Family.Round;
    hide Linking.RecordInvite; hide HandedOut; hide Quoting.AddQuote; hide Quoting.DeleteQuote;
  }

  /** In the run, somebody asked that. */
  ghost predicate AskedAt(s: State, commands: seq<Command>, k: int, mine: string, theirs: string) {
    0 <= k < |commands| && Asks(Run(s, commands[..k]), commands[k], mine, theirs)
  }

  lemma AskedBefore(s: State, commands: seq<Command>, k: int, mine: string, theirs: string)
    requires commands != [] && AskedAt(s, commands[..|commands| - 1], k, mine, theirs)
    ensures AskedAt(s, commands, k, mine, theirs)
  {
    hide Asks; hide Run;
    assert commands[..|commands| - 1][..k] == commands[..k];
  }

  lemma AskedLast(s: State, commands: seq<Command>, mine: string, theirs: string)
    requires commands != [] && Asks(Run(s, commands[..|commands| - 1]), commands[|commands| - 1], mine, theirs)
    ensures AskedAt(s, commands, |commands| - 1, mine, theirs)
  {
    hide Asks; hide Run;
  }

  /** Every request on file was made, by whoever it is filed under. */
  lemma {:induction false} RequestsMade(s: State, commands: seq<Command>, mine: string)
    requires s.names.linkRequests == map[] && mine in Run(s, commands).names.linkRequests
    ensures exists k :: AskedAt(s, commands, k, mine, Run(s, commands).names.linkRequests[mine])
  {
    hide Asks; hide Next; hide AskedAt;
    if commands != [] {
      var front, last := commands[..|commands| - 1], commands[|commands| - 1];
      var t, theirs := Run(s, front), Run(s, commands).names.linkRequests[mine];
      NextRequests(t, last);
      if mine in t.names.linkRequests && t.names.linkRequests[mine] == theirs {
        RequestsMade(s, front, mine);
        var k :| AskedAt(s, front, k, mine, theirs);
        AskedBefore(s, commands, k, mine, theirs);
      } else {
        AskedLast(s, commands, mine, theirs);
      }
    }
  }

  /** Over every run, two accounts become one player only when each has asked for the other: the other one at some time before,
      and this one now. */
  lemma RunAgreed(s: State, commands: seq<Command>, mine: string, userId: int, other: Option<string>)
    requires s.names.linkRequests == map[]
    requires var t := Run(s, commands); Next(t, LinkAccounts(mine, userId, other)).names.accounts != t.names.accounts
    ensures exists theirs: string, k: int ::
              && Named(Run(s, commands), userId, other) == Some(theirs)
              && AskedAt(s, commands, k, theirs, mine)
  {
    hide Named; hide AskedAt; hide Linking.Link; hide Run; hide NobodyElseAsks;
    var t := Run(s, commands);
    if mine !in t.names.accounts {
      NotSeen(t, mine, userId, other);
    }
    LinkAgreed(t, mine, userId, other);
    var theirs := Named(t, userId, other).value;
    RequestsMade(s, commands, theirs);
    var k :| AskedAt(s, commands, k, theirs, t.names.linkRequests[theirs]);
    assert AskedAt(s, commands, k, theirs, mine);
  }
}

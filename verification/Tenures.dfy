/** src/game.cpp: a hold from the claim that begins it to the transaction that ends it, over any run in between. */
module Tenures {
  import opened Basics
  import opened Powers
  import opened Places
  import opened World
  import opened Laws
  import opened Rides
  import opened Settling
  import opened Naming
  import opened Holds
  import opened Claims
  import opened Journeys
  import opened Household
  import opened Linking
  import opened Runs
  import opened Keeping
  import opened Telling
  import opened Entries
  import Burning
  import Quoting
  import Family
  import Belongings

  /** The place is as it was, or empty. */
  ghost predicate StaysOrLeaves(s: State, t: State) {
    t.current == s.current || t.current.None?
  }

  // ---------------------------------------------------------------- the round

  lemma {:induction false} WalkHolds(s: State, ride: nat, now: int, rules: Rules)
    requires Sound(s) && ride <= |s.raids|
    ensures StaysOrLeaves(s, Walk(s, ride, now, rules))
    decreases |s.raids| - ride
  {
    hide Sound; hide Arrived; hide CameHome;
    if ride < |s.raids| {
      var t := CameHome(Arrived(s, ride, now, rules), ride, now);
      RideHolds(s, ride, now, rules);
      RideTells(s, ride, now, rules);
      WalkHolds(t, ride + 1, now, rules);
    }
  }

  lemma RideHolds(s: State, ride: nat, now: int, rules: Rules)
    requires Sound(s) && ride < |s.raids|
    ensures StaysOrLeaves(s, CameHome(Arrived(s, ride, now, rules), ride, now))
  {
    hide Sound; hide Arrived; hide CameHome; hide Step; hide Standing;
    var t := Arrived(s, ride, now, rules);
    SoundStands(s);
    ArrivedSteps(s, ride, now, rules, "");
    StepHolds(s, t, ride, now);
  }

  lemma StepHolds(s: State, t: State, walked: int, now: int)
    requires Step(s, t, true, walked, now, "")
    ensures StaysOrLeaves(s, t)
  {
  }

  lemma RoundHolds(s: State, now: int, rules: Rules)
    requires Sound(s)
    ensures StaysOrLeaves(s, Family.Round(s, now, rules))
  {
    hide Sound; hide Walk; hide Walked; hide UnderWay; hide Fed; hide Standing; hide Step; hide Family.BeforeTheWalk;
    var a, t := Fed(s, now, rules), Family.BeforeTheWalk(s, now, rules);
    FedWalks(s, now, rules, "");
    SoundAfter(s, a, 0, 0, now, "");
    SoundStands(a);
    BeforeTheWalkSteps(s, now, rules, "");
    StepHolds(a, t, 0, now);
    assert a.current == s.current by { FedHolds(s, now, rules); }
    BeforeTheWalkKeeps(s, now, rules, "");
    WalkHolds(t, 0, now, rules);
  }

  lemma FedHolds(s: State, now: int, rules: Rules)
    ensures Fed(s, now, rules).current == s.current
  {
    hide Family.Washed; hide Family.LaidEggs;
  }

  // ---------------------------------------------------------------- burning

  /** The hold with the bolts it has left by then. */
  ghost predicate Loses(hold: Holder, after: Holder, now: int) {
    after.bolts >= 0 && LosingBolts(hold, after.bolts, now) == Done(after)
  }

  lemma LosesNothing(hold: Holder, now: int)
    requires hold.bolts >= 0
    ensures Loses(hold, hold, now)
  {
  }

  lemma LosesSome(hold: Holder, left: nat, now: int)
    requires hold.bolts >= 0
    ensures var after := LosingBolts(hold, left, now); after.Done? ==> Loses(hold, after.value, now)
  {
    hide Earned;
  }

  lemma LostBoltsHold(s: State, now: int)
    requires s.current.Some?
    ensures var t, after := LostBolts(s, now), LosingBolts(s.current.value, CarriedCopies(s, s.current.value.username, Bolt), now);
            t.Done? ==> after.Done? && t.value.current == Some(after.value)
  {
    hide CarriedCopies; hide LosingBolts;
  }

  lemma LostBoltsLoses(s: State, now: int)
    requires s.current.Some? && s.current.value.bolts >= 0
    ensures var t := LostBolts(s, now);
            t.Done? ==> t.value.current.Some? && Loses(s.current.value, t.value.current.value, now)
  {
    hide *;
    LostBoltsHold(s, now);
    LosesSome(s.current.value, CarriedCopies(s, s.current.value.username, Bolt), now);
  }

  lemma BombedHolds(s: State, thrower: string, victim: string, rules: Rules)
    ensures StaysOrLeaves(s, Bombed(s, thrower, victim, AtPlace, rules))
  {
    hide Bombed;
  }

  lemma ResetHolds(s: State, victim: string, now: int)
    ensures StaysOrLeaves(s, StartedOver(s, victim, 0, now))
  {
    hide StartedOver; hide HoldsPlace;
    StartedOverFields(s, victim, 0, now);
  }

  lemma LandedHolds(s: State, thrown: string, thrower: string, victim: string, now: int, rules: Rules)
    ensures StaysOrLeaves(s, Landed(s, thrown, thrower, victim, AtPlace, 0, now, rules))
  {
    hide PowerOf; hide Bombed; hide StartedOver; hide Smeared; hide Expecting; hide Rides.Frozen; hide StaysOrLeaves;
    assert StaysOrLeaves(s, s) by { NobodyLeaves(s, s); }
    BombedHolds(s, thrower, victim, rules);
    ResetHolds(s, victim, now);
    NobodyLeaves(s, Smeared(s, victim, now, rules));
    NobodyLeaves(s, Expecting(s, thrower, victim, now, rules));
    NobodyLeaves(s, Rides.Frozen(s, victim, now, rules));
  }

  lemma NobodyLeaves(s: State, t: State)
    requires t.current == s.current
    ensures StaysOrLeaves(s, t)
  {
  }

  lemma ThrownHolds(s: State, player: string, emoji: string, now: int, rules: Rules)
    ensures StaysOrLeaves(s, Burning.ThrownAtPlace(s, player, emoji, now, rules))
  {
    hide Landed; hide Burning.LandsOnHolder;
    if s.current.Some? {
      LandedHolds(s, emoji, player, s.current.value.username, now, rules);
    }
  }

  lemma BurnLoses(s: State, player: string, emoji: string, now: int, rules: Rules, destroy: bool)
    requires s.current.Some? && s.current.value.bolts >= 0
    ensures var t := Burning.Burn(s, player, emoji, now, rules, destroy);
            t.Done? && t.value.current.Some? ==> Loses(s.current.value, t.value.current.value, now)
  {
    hide Burning.Gone; hide Belongings.Finding; hide Burning.FirstChildLike; hide Burning.BurntChild; hide LostBolts; hide Loses;
    hide Burning.ThrownAtPlace; hide Burning.StartedAgain; hide IsPower; hide Burning.BurnAnswer;
    LosesNothing(s.current.value, now);
    var t := Burning.Gone(s, player, emoji);
    var u := Burning.ThrownAtPlace(t, player, emoji, now, rules);
    LostBoltsLoses(t, now);
    AgainHolds(t);
    ThrownHolds(t, player, emoji, now, rules);
    if u.current.Some? {
      LostBoltsLoses(u, now);
    } else {
      NobodyLoses(u, now);
    }
  }

  lemma NobodyLoses(s: State, now: int)
    requires s.current.None?
    ensures LostBolts(s, now) == Done(s)
  {
  }

  lemma AgainHolds(s: State)
    ensures Burning.StartedAgain(s).current.None?
  {
    hide Burning.KnownPlayers;
  }

  // ---------------------------------------------------------------- any transaction

  lemma ClaimHolds(s: State, userId: int, player: string, now: int, rules: ClaimRules, username: string)
    requires IsHolder(s.current, username)
    ensures var t := Claim(s, userId, player, now, rules); t.Done? && IsHolder(t.value.current, username) ==> t.value.current == s.current
  {
    hide Claim; hide PaidOff; hide RideOf; hide FrozenFor;
    ClaimPays(s, userId, player, now, rules);
  }

  /** A transaction that leaves him in the place leaves his hold as it was, but for the bolts a fire takes off it. */
  lemma NextHolds(s: State, command: Command)
    requires Sound(s) && s.current.Some?
    ensures var t, hold := Next(s, command), s.current.value;
            IsHolder(t.current, hold.username) ==>
              if command.BurnEmoji? then Loses(hold, t.current.value, command.now) else t.current == s.current
  {
    hide Sound; hide Claim; hide RaidStart; hide Buy; hide Move; hide Take; hide Store; hide Burning.Burn; hide Burning.BurnPalle;
    hide Seen; hide Linking.Link; hide InviteDue; hide Family.Round; hide Linking.RecordInvite; hide HandedOut; hide PaidOff;
    hide Quoting.AddQuote; hide Quoting.DeleteQuote; hide Loses; hide GoneHome; hide Bill;
    assert s.current.value.bolts >= 0 by { BoltsCount(s); }
    LosesNothing(s.current.value, if command.BurnEmoji? then command.now else 0);
    match command
    case ClaimPlace(userId, player, now, claims) => ClaimHolds(s, userId, player, now, claims, s.current.value.username);
    case StartRaid(userId, player, known, homewards, load, now, rules) =>
      RaidStartPays(s, userId, player, known, homewards, load, now, rules);
    case BuyEmoji(player, emoji, position, cost, limit, now, inflation) =>
      BuyPays(s, player, emoji, position, cost, limit, now, inflation);
    case MoveEmoji(player, from, to, limit, now) => MovePays(s, player, from, to, limit, now);
    case TakeGear(player, emoji, swap, now) => TakePays(s, player, emoji, swap, now);
    case StoreGear(player, emoji, limit, now) => StorePays(s, player, emoji, limit, now);
    case BurnEmoji(player, emoji, now, rules, destroy) => BurnLoses(s, player, emoji, now, rules, destroy);
    case LinkAccounts(mine, userId, other) => LinkHolds(s, mine, userId, other);
    case HandOutBalloons(players, limit) => HandedOutHolds(s, players, limit);
    case KeepRound(now, rules) => RoundHolds(s, now, rules);
    case _ => PaperHolds(s, command);
  }

  lemma BoltsCount(s: State)
    requires Sound(s) && s.current.Some?
    ensures s.current.value.bolts >= 0
  {
    hide Standing;
  }

  lemma PaperHolds(s: State, command: Command)
    requires command.DestroyPalle? || command.BeSeen? || command.RecordInvite? || command.SettleInvite? || command.AddQuote? || command.DeleteQuote?
    ensures Next(s, command).current == s.current
  {
    hide Burning.BurnPalle; hide Seen; hide InviteDue; hide Linking.RecordInvite; hide Quoting.AddQuote; hide Quoting.DeleteQuote;
  }

  lemma AskedHolds(s: State, mine: string, theirs: string)
    ensures Asked(s, mine, theirs).current == s.current
  {
    hide Asked;
  }

  lemma MadeOneHolds(s: State, mine: string, theirs: string)
    requires mine in s.names.accounts && theirs in s.names.accounts
    ensures MadeOne(s, mine, theirs).current == s.current
  {
    hide MergedNames; hide HasAssets; hide SlotsIn;
  }

  lemma LinkHolds(s: State, mine: string, userId: int, other: Option<string>)
    ensures var t := Linking.Link(s, mine, userId, other); t.Done? ==> t.value.current == s.current
  {
    hide *;
    var t, theirs := Linking.Link(s, mine, userId, other), Named(s, userId, other);
    if mine !in s.names.accounts {
      NotSeen(s, mine, userId, other);
    } else {
      LinkDoes(s, mine, userId, other);
      if theirs.Some? && t == Done(Asked(s, mine, theirs.value)) {
        AskedHolds(s, mine, theirs.value);
      } else if theirs.Some? && theirs.value in s.names.accounts {
        MadeOneHolds(s, mine, theirs.value);
      }
    }
  }

  lemma {:induction false} HandedOutHolds(s: State, players: seq<string>, limit: nat)
    ensures HandedOut(s, players, limit).current == s.current
  {
    hide Greeted;
    if players != [] {
      HandedOutHolds(s, players[..|players| - 1], limit);
    }
  }

  // ---------------------------------------------------------------- a hold over a run

  /** He is in the place after every transaction. */
  ghost predicate StaysIn(s: State, commands: seq<Command>, username: string) {
    forall k: nat | k <= |commands| :: IsHolder(Run(s, commands[..k]).current, username)
  }

  lemma StaysInBefore(s: State, commands: seq<Command>, username: string)
    requires StaysIn(s, commands, username)
    ensures IsHolder(Run(s, commands).current, username)
    ensures commands != [] ==> StaysIn(s, commands[..|commands| - 1], username)
  {
    hide Run; hide IsHolder;
    assert commands[..|commands|] == commands;
    if commands != [] {
      var front := commands[..|commands| - 1];
      forall k: nat | k <= |front|
        ensures IsHolder(Run(s, front[..k]).current, username)
      {
        assert front[..k] == commands[..k];
      }
    }
  }

  /** The fires of a run, each with the bolts the holder has left. */
  ghost function Losses(s: State, commands: seq<Command>): seq<Loss> {
    if commands == [] then [] else
    var front, last := commands[..|commands| - 1], commands[|commands| - 1];
    var t := Next(Run(s, front), last);
    Losses(s, front) + (if last.BurnEmoji? && t.current.Some? then [Loss(last.now, Max(t.current.value.bolts, 0))] else [])
  }

  lemma {:induction false} ThroughOn(hold: Holder, losses: seq<Loss>, loss: Loss)
    requires Through(hold, losses).Done?
    ensures Through(hold, losses + [loss]) == LosingBolts(Through(hold, losses).value, loss.left, loss.at)
    decreases |losses|
  {
    hide LosingBolts;
    if losses == [] {
      assert [loss][1..] == [];
      assert losses + [loss] == [loss];
    } else {
      assert (losses + [loss])[1..] == losses[1..] + [loss];
      ThroughOn(LosingBolts(hold, losses[0].left, losses[0].at).value, losses[1..], loss);
    }
  }

  /** While he stays, his hold is the one he came in with, through every fire. */
  lemma {:induction false} HoldThrough(s: State, commands: seq<Command>)
    requires Sound(s) && s.current.Some? && StaysIn(s, commands, s.current.value.username)
    requires forall k | 0 <= k < |commands| :: IsSensible(commands[k])
    ensures Run(s, commands).current.Some?
    ensures Through(s.current.value, Losses(s, commands)) == Done(Run(s, commands).current.value)
  {
    hide Sound; hide Next; hide IsSensible; hide StaysIn; hide Plays; hide Through; hide LosingBolts;
    StaysInBefore(s, commands, s.current.value.username);
    if commands == [] {
      assert Through(s.current.value, []) == Done(s.current.value) by { NotLost(s.current.value); }
    } else {
      var front, last := commands[..|commands| - 1], commands[|commands| - 1];
      var t := Run(s, front);
      HoldThrough(s, front);
      StaysInBefore(s, front, s.current.value.username);
      RunKeeps(s, front, "");
      PlayedSound(s, t, "");
      NextHolds(t, last);
      if last.BurnEmoji? {
        var after := Next(t, last).current.value;
        ThroughOn(s.current.value, Losses(s, front), Loss(last.now, Max(after.bolts, 0)));
      } else {
        assert Losses(s, front) + [] == Losses(s, front);
      }
    }
  }

  lemma NotLost(hold: Holder)
    ensures Through(hold, []) == Done(hold)
  {
  }

  // ---------------------------------------------------------------- what ends it

  ghost predicate IsToldPaid(told: seq<Event>, told': seq<Event>, player: string, palle: int) {
    exists k :: |told| <= k < |told'| && told'[k] == Paid(player, palle)
  }

  /** Whoever is told to be paid is whoever held the place, for what the hold made and had put aside. */
  lemma PaidIsPayout(s: State, command: Command, player: string, palle: int)
    requires Sound(s) && IsToldPaid(s.told, Next(s, command).told, player, palle)
    ensures (PaysOnly(command) || command.BuyEmoji?) && s.current.Some? && player == s.current.value.username
    ensures Earned(s.current.value, command.now).Done?
    ensures palle == Earned(s.current.value, command.now).value + s.current.value.banked
  {
    hide Sound; hide Next; hide Earned; hide PaysOnly;
    var t := Next(s, command);
    var k :| |s.told| <= k < |t.told| && t.told[k] == Paid(player, palle);
    NextTells(s, command);
    assert PaysOnly(command) || command.BuyEmoji? by { MayPay(command, t.told[k]); }
    if PaysOnly(command) {
      OnlyPays(s, command);
    } else {
      BoughtPays(s, command, k);
    }
  }

  lemma MayPay(command: Command, event: Event)
    requires MayTell(command, event) && event.Paid?
    ensures PaysOnly(command) || command.BuyEmoji?
  {
  }

  lemma BoughtPays(s: State, command: Command, k: nat)
    requires command.BuyEmoji? && |s.told| <= k < |Next(s, command).told| && Next(s, command).told[k].Paid?
    ensures s.current.Some? && Earned(s.current.value, command.now).Done?
    ensures Next(s, command).told[k] == Paid(s.current.value.username, Earned(s.current.value, command.now).value + s.current.value.banked)
  {
    hide Earned; hide GoneHome; hide Buy;
    var u := GoneHome(s, command.player, command.now);
    BuyPays(s, command.player, command.emoji, command.position, command.cost, command.limit, command.now, command.inflation);
    BillPaysNobody(u.value, command);
  }

  lemma BillPaysNobody(s: State, command: Command)
    requires command.BuyEmoji?
    ensures var bill := Bill(s, command.player, command.emoji, command.position, command.cost, command.limit, command.inflation);
            forall k | 0 <= k < |bill| :: !bill[k].Paid?
  {
    hide BuyAnswer; hide SpotFor; hide Price; hide Replaced;
  }

  /** The hold somebody came in with. */
  ghost predicate IsFresh(hold: Holder, gear: Place, kicked: string, rules: ClaimRules) {
    hold.since >= 0 && hold == FreshHold(gear, hold.userId, hold.username, kicked, hold.since, rules)
  }

  /** The transactions that can end a hold with a pay, and when. */
  predicate CanEnd(command: Command) {
    PaysOnly(command) || command.BuyEmoji?
  }

  function Ends(command: Command): int
    requires CanEnd(command)
  {
    command.now
  }

  /** Over any run from the claim on, with its fires in the order of time: whoever is told to be paid as the hold ends is its holder,
      and the pay is the sum, stretch by stretch, of the seconds between one fire and the next at the bolts he had then; a palla a
      second at the least, and the percent he came in at for all of it at the most. */
  lemma TenurePaid(s: State, commands: seq<Command>, last: Command, gear: Place, kicked: string, rules: ClaimRules, player: string,
                   palle: int)
    requires Sound(s) && s.current.Some? && IsFresh(s.current.value, gear, kicked, rules) && CanEnd(last)
    requires StaysIn(s, commands, s.current.value.username) && forall k | 0 <= k < |commands| :: IsSensible(commands[k])
    requires InTime(Losses(s, commands), s.current.value.since, Ends(last))
    requires IsToldPaid(Run(s, commands).told, Next(Run(s, commands), last).told, player, palle)
    ensures player == s.current.value.username
    ensures palle == Stretches(s.current.value.bolts, Max(rules.lightning, 1), Losses(s, commands), s.current.value.since, Ends(last))
    ensures var seconds := Ends(last) - s.current.value.since;
            seconds <= palle <= seconds * Max(s.current.value.percent, 100) / 100
  {
    hide Sound; hide Next; hide Run; hide IsSensible; hide StaysIn; hide Plays; hide Losses; hide Through; hide Stretches; hide Earned;
    hide IsToldPaid; hide FreshHold; hide InTime;
    var hold, t := s.current.value, Run(s, commands);
    HoldThrough(s, commands);
    RunKeeps(s, commands, "");
    PlayedSound(s, t, "");
    PaidIsPayout(t, last, player, palle);
    FreshShare(gear, hold.userId, hold.username, kicked, hold.since, rules);
    HoldPays(hold, Max(rules.lightning, 1), Losses(s, commands), Ends(last));
    StaysInBefore(s, commands, hold.username);
  }

  lemma FreshShare(gear: Place, userId: int, player: string, kicked: string, now: int, rules: ClaimRules)
    ensures var hold := FreshHold(gear, userId, player, kicked, now, rules);
            && hold.bolts >= 0 && hold.percent == PercentOf(hold.bolts, Max(rules.lightning, 1))
            && hold.banked == 0 && hold.countedFrom == 0
  {
    hide LobstersCopying; hide ShownGear;
  }
}

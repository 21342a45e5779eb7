/** Every run of the game: transactions one after the other, each on the state the one before it saved. */
module Runs {
  import opened Basics
  import opened Ledger
  import opened World
  import opened Laws
  import opened Rides
  import opened Journeys
  import opened Claims
  import opened Household
  import opened Naming
  import opened Linking
  import Burning
  import Quoting
  import Belongings
  import Family
  import Slots
  import Keeping

  datatype Command =
    | ClaimPlace(userId: int, player: string, now: int, claims: ClaimRules)
    | StartRaid(userId: int, player: string, known: Option<string>, homewards: bool, load: Load, now: int, rules: Rules)
    | BuyEmoji(player: string, emoji: string, position: int, cost: int, limit: nat, now: int, inflation: int)
    | MoveEmoji(player: string, from: int, to: int, limit: nat, now: int)
    | TakeGear(player: string, emoji: string, swap: string, now: int)
    | StoreGear(player: string, emoji: string, limit: nat, now: int)
    | BurnEmoji(player: string, emoji: string, now: int, rules: Rules, destroy: bool)
    | DestroyPalle(player: string, amount: int)
    | BeSeen(userId: int, username: string, account: string, candidate: Option<string>, limit: nat, now: int, today: int)
    | LinkAccounts(mine: string, userId: int, other: Option<string>)
    | RecordInvite(newcomer: string, inviter: Option<string>, now: int)
    | SettleInvite(newcomer: string, samePerson: bool)
    | HandOutBalloons(players: seq<string>, limit: nat)
    | AddQuote(player: string, quote: string, cost: int)
    | DeleteQuote(selector: string)
    | KeepRound(now: int, rules: Rules)

  /** What a transaction makes of the state, if it is not abandoned. */
  ghost function Made(s: State, command: Command): Result<State> {
    match command
    case ClaimPlace(userId, player, now, claims) => Claim(s, userId, player, now, claims)
    case StartRaid(userId, player, known, homewards, load, now, rules) =>
      RaidStart(s, userId, player, known, homewards, load, now, rules)
    case BuyEmoji(player, emoji, position, cost, limit, now, inflation) =>
      Buy(s, player, emoji, position, cost, limit, now, inflation)
    case MoveEmoji(player, from, to, limit, now) => Move(s, player, from, to, limit, now)
    case TakeGear(player, emoji, swap, now) => Take(s, player, emoji, swap, now)
    case StoreGear(player, emoji, limit, now) => Store(s, player, emoji, limit, now)
    case BurnEmoji(player, emoji, now, rules, destroy) => Burning.Burn(s, player, emoji, now, rules, destroy)
    case DestroyPalle(player, amount) => Done(Burning.BurnPalle(s, player, amount))
    case BeSeen(userId, username, account, candidate, limit, now, today) =>
      Done(Seen(s, userId, username, account, candidate, limit, now, today))
    case LinkAccounts(mine, userId, other) => Linking.Link(s, mine, userId, other)
    case RecordInvite(newcomer, inviter, now) => Done(Linking.RecordInvite(s, newcomer, inviter, now))
    case SettleInvite(newcomer, samePerson) => Done(InviteDue(s, newcomer, samePerson))
    case HandOutBalloons(players, limit) => Done(HandedOut(s, players, limit))
    case AddQuote(player, quote, cost) => Quoting.AddQuote(s, player, quote, cost)
    case DeleteQuote(selector) => Done(Quoting.DeleteQuote(s, selector))
    case KeepRound(now, rules) => Done(Family.Round(s, now, rules))
  }

  /** A transaction that is abandoned saves nothing. */
  ghost function Next(s: State, command: Command): State {
    var t := Made(s, command);
    if t.Done? then t.value else s
  }

  /** What the commands never ask for: palle and an emoji on the same ride, or a price the machine cannot write. */
  predicate IsModest(command: Command) {
    && (command.StartRaid? ==> command.load.gift == 0 || command.load.emoji == "")
    && (command.BuyEmoji? ==> command.cost <= MOST)
  }

  /** An emoji that is bought or carried is one no neighbour changes. The slots stand for the strings they are stored as only as
      long as it is. */
  predicate IsPlain(command: Command) {
    && (command.BuyEmoji? ==> Slots.Fits(command.emoji))
    && (command.StartRaid? ==> Slots.Fits(command.load.emoji))
  }

  predicate IsSensible(command: Command) {
    IsModest(command) && IsPlain(command)
  }

  ghost function Run(s: State, commands: seq<Command>): State {
    if commands == [] then s else Next(Run(s, commands[..|commands| - 1]), commands[|commands| - 1])
  }

  lemma RoundPlays(s: State, now: int, rules: Rules, face: string)
    requires Sound(s)
    ensures Plays(s, Family.Round(s, now, rules), face)
  {
    hide Family.Round; hide Sound; hide OnTheRoad; hide Total; hide PalleMade; hide EmojiMade;
    var t := Family.Round(s, now, rules);
    Keeping.RoundKeeps(s, now, rules, face);
    RoadUnwalked(s.raids, 0, 0, now, 0, LOAD);
    RoadUnwalked(t.raids, 0, 0, now, 0, LOAD);
    RoadUnwalked(s.raids, 0, 0, now, 0, GiftCopies(face));
    RoadUnwalked(t.raids, 0, 0, now, 0, GiftCopies(face));
  }

  lemma RidePlays(s: State, userId: int, player: string, known: Option<string>, homewards: bool, load: Load, now: int,
                  rules: Rules, face: string)
    requires Sound(s) && (load.gift == 0 || load.emoji == "")
    ensures var t := RaidStart(s, userId, player, known, homewards, load, now, rules); t.Done? ==> Plays(s, t.value, face)
  {
    hide Sound; hide Plays; hide RaidStart; hide KeptBack; hide IsRiding; hide CanReceive; hide Belongings.Finding;
    if RaidStart(s, userId, player, known, homewards, load, now, rules).Done? {
      RaidStartPlays(s, userId, player, known, homewards, load, now, rules, face);
    }
  }

  lemma MadePlays(s: State, command: Command, face: string)
    requires Sound(s) && IsModest(command)
    ensures Made(s, command).Done? ==> Plays(s, Made(s, command).value, face)
  {
    hide Sound; hide Plays; hide Claim; hide RaidStart; hide Buy; hide Move; hide Take; hide Store; hide Burning.Burn; hide Burning.BurnPalle;
    hide Seen; hide Linking.Link; hide InviteDue; hide Family.Round; hide Linking.RecordInvite; hide HandedOut;
    hide Quoting.AddQuote; hide Quoting.DeleteQuote;
    match command
    case ClaimPlace(userId, player, now, claims) => ClaimPlays(s, userId, player, now, claims, face);
    case StartRaid(userId, player, known, homewards, load, now, rules) =>
      RidePlays(s, userId, player, known, homewards, load, now, rules, face);
    case BuyEmoji(player, emoji, position, cost, limit, now, inflation) =>
      BuyPlays(s, player, emoji, position, cost, limit, now, inflation, face);
    case MoveEmoji(player, from, to, limit, now) => MovePlays(s, player, from, to, limit, now, face);
    case TakeGear(player, emoji, swap, now) => TakePlays(s, player, emoji, swap, now, face);
    case StoreGear(player, emoji, limit, now) => StorePlays(s, player, emoji, limit, now, face);
    case BurnEmoji(player, emoji, now, rules, destroy) => Burning.BurnPlays(s, player, emoji, now, rules, destroy, face);
    case DestroyPalle(player, amount) => Burning.BurnPallePlays(s, player, amount, face);
    case BeSeen(userId, username, account, candidate, limit, now, today) =>
      SeenPlays(s, userId, username, account, candidate, limit, now, today, face);
    case LinkAccounts(mine, userId, other) => LinkPlays(s, mine, userId, other, face);
    case RecordInvite(newcomer, inviter, now) => QuietPlay(s, Linking.RecordInvite(s, newcomer, inviter, now), face);
    case SettleInvite(newcomer, samePerson) => InvitePlays(s, newcomer, samePerson, face);
    case HandOutBalloons(players, limit) => HandedOutPlays(s, players, limit, face);
    case AddQuote(player, quote, cost) => Quoting.AddQuotePlays(s, player, quote, cost, face);
    case DeleteQuote(selector) => QuietPlay(s, Quoting.DeleteQuote(s, selector), face);
    case KeepRound(now, rules) => RoundPlays(s, now, rules, face);
  }

  /** On the slots as they are here, whatever is bought. */
  lemma {:induction false} RunPlays(s: State, commands: seq<Command>, face: string)
    requires Sound(s) && forall k | 0 <= k < |commands| :: IsModest(commands[k])
    ensures Plays(s, Run(s, commands), face)
  {
    hide Sound; hide Plays; hide Made; hide IsModest;
    if commands == [] {
      QuietPlay(s, s, face);
    } else {
      var before, last := Run(s, commands[..|commands| - 1]), commands[|commands| - 1];
      RunPlays(s, commands[..|commands| - 1], face);
      PlayedSound(s, before, face);
      MadePlays(before, last, face);
      if Made(before, last).Done? {
        PlaysOn(s, before, Made(before, last).value, face);
      }
    }
  }

  /** Over every run of the game the laws hold, and no palla and no emoji comes or goes untold. */
  lemma RunKeeps(s: State, commands: seq<Command>, face: string)
    requires Sound(s) && forall k | 0 <= k < |commands| :: IsSensible(commands[k])
    ensures Plays(s, Run(s, commands), face)
  {
    hide Sound; hide Plays; hide Run; hide IsModest; hide IsPlain;
    RunPlays(s, commands, face);
  }

  /** On slots, whatever emoji are bought and carried, nobody ever owes palle and no palla comes or goes untold. */
  lemma RunPalle(s: State, commands: seq<Command>)
    requires Sound(s) && forall k | 0 <= k < |commands| :: IsModest(commands[k])
    ensures var t := Run(s, commands);
            && Solvent(t.scores)
            && Palle(t.scores, t.raids, 0, 0) - PalleMade(t.told) == Palle(s.scores, s.raids, 0, 0) - PalleMade(s.told)
  {
    hide Sound; hide Run; hide IsModest; hide Palle; hide PalleMade; hide Stock; hide Solvent;
    RunPlays(s, commands, "");
    SoundSolvent(Run(s, commands));
  }

  /** From the first day on, the palle there are and the copies of an emoji are what was told to come in, less what was told
      to leave. */
  lemma FromNothing(luck: seq<nat>, commands: seq<Command>, face: string)
    requires forall k | 0 <= k < |commands| :: IsSensible(commands[k])
    ensures var t := Run(Unplayed(luck), commands);
            && Sound(t)
            && Palle(t.scores, t.raids, 0, 0) == PalleMade(t.told)
            && Stock(t.house, t.gear, t.raids, 0, 0, face) == EmojiMade(t.told, face)
  {
    hide Sound; hide IsSensible; hide Run;
    UnplayedSound(luck);
    RunKeeps(Unplayed(luck), commands, face);
    NothingYet(luck, face);
  }

  lemma NothingYet(luck: seq<nat>, face: string)
    ensures Books(Unplayed(luck), 0, 0) == 0 && EmojiBooks(Unplayed(luck), 0, 0, face) == 0
  {
  }

  // ---------------------------------------------------------------- who is who

  /** No old name looks like an account, and an account speaks for its own platform. */
  predicate IsHonest(command: Command) {
    && (command.BeSeen? && command.candidate.Some? ==> !LooksLikeAccount(command.candidate.value))
    && (command.LinkAccounts? ==> OfPlatform(command.mine, Mine(command.userId)))
  }

  /** Only speaking and linking bind accounts. */
  lemma AccountsStay(s: State, command: Command)
    requires !command.BeSeen? && !command.LinkAccounts?
    ensures Next(s, command).names.accounts == s.names.accounts
  {
    hide Claim; hide RaidStart; hide Buy; hide Move; hide Take; hide Store; hide Burning.Burn; hide Burning.BurnPalle;
    hide InviteDue; hide Family.Round; hide Linking.RecordInvite; hide HandedOut;
    hide Quoting.AddQuote; hide Quoting.DeleteQuote;
  }

  /** Over every run a player has at most one account on each platform. */
  lemma {:induction false} RunBinds(s: State, commands: seq<Command>)
    requires Bound(s.names.accounts) && forall k | 0 <= k < |commands| :: IsHonest(commands[k])
    ensures Bound(Run(s, commands).names.accounts)
  {
    hide Bound; hide Next; hide LooksLikeAccount; hide OfPlatform;
    if commands != [] {
      var before, last := Run(s, commands[..|commands| - 1]), commands[|commands| - 1];
      RunBinds(s, commands[..|commands| - 1]);
      NextBinds(before, last);
    }
  }

  lemma NextBinds(s: State, command: Command)
    requires Bound(s.names.accounts) && IsHonest(command)
    ensures Bound(Next(s, command).names.accounts)
  {
    hide Bound; hide Claim; hide RaidStart; hide Buy; hide Move; hide Take; hide Store; hide Burning.Burn; hide Burning.BurnPalle;
    hide InviteDue; hide Family.Round; hide Linking.RecordInvite; hide HandedOut;
    hide Quoting.AddQuote; hide Quoting.DeleteQuote; hide Seen; hide Linking.Link; hide LooksLikeAccount; hide OfPlatform; hide PlatformKey; hide BoundTo;
    match command
    case BeSeen(userId, username, account, candidate, limit, now, today) =>
      PlatformKeyLooks(userId, username, account);
      SeenBinds(s, PlatformKey(userId, username, account), candidate);
    case LinkAccounts(mine, userId, other) => LinkBinds(s, mine, userId, other);
    case _ => AccountsStay(s, command);
  }
}

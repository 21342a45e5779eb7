/** src/game.cpp, player_seen, invites and quotes: what speaking, inviting and quoting do, told from what is on file. */
module Acquaintances {
  import opened Basics
  import opened Text
  import opened Powers
  import opened Ledger
  import opened Places
  import opened World
  import opened Naming
  import opened Linking
  import opened Facts
  import Claims
  import Departures
  import Journeys
  import Numbers
  import Quoting
  import Rides

  // ---------------------------------------------------------------- being seen

  /** The balloon everybody starts with: on him if he has a slot free, else in his house, if he has none yet and there is room at all. */
  ghost predicate IsWelcomed(s: State, t: State, player: string, limit: nat) {
    if Counter(s.welcomed, player) != 0 then t == s
    else
      && t == s.(welcomed := s.welcomed[player := 1], house := t.house, gear := t.gear, told := t.told)
      && IsHung(s, t, player, limit)
  }

  ghost predicate IsHung(s: State, t: State, player: string, limit: nat) {
    if limit == 0 || SlotsWith(SlotsIn(s.house, player), Balloon) != {} || SlotsWith(SlotsIn(s.gear, player), Balloon) != {} then
      t.house == s.house && t.gear == s.gear
    else if Departures.HasRoom(SlotsIn(s.gear, player), CARRIED_LIMIT) then
      t.house == s.house
      && exists k: nat | IsFirstFree(SlotsIn(s.gear, player), k) :: t.gear == Put(s.gear, player, k, BALLOON)
    else if Departures.HasRoom(SlotsIn(s.house, player), limit) then
      t.gear == s.gear
      && exists k: nat | IsFirstFree(SlotsIn(s.house, player), k) :: t.house == Put(s.house, player, k, BALLOON)
    else t.house == s.house && t.gear == s.gear
  }

  lemma HasBalloonIs(s: State, player: string)
    ensures HasBalloon(s, player) <==>
              SlotsWith(SlotsIn(s.house, player), Balloon) != {} || SlotsWith(SlotsIn(s.gear, player), Balloon) != {}
  {
    hide CountPower; hide SlotsWith;
    CountedAll(SlotsIn(s.house, player), Balloon);
    CountedAll(SlotsIn(s.gear, player), Balloon);
  }

  lemma HandedIs(s: State, player: string, limit: nat)
    ensures var t, free, there := BalloonHanded(s, player, limit), FreeSlot(SlotsIn(s.gear, player), CARRIED_LIMIT),
                                  FreeSlot(SlotsIn(s.house, player), limit);
            t == if limit == 0 then None
                 else if free.Some? then Some(s.(gear := Put(s.gear, player, free.value, BALLOON)))
                 else if there.Some? then Some(s.(house := Put(s.house, player, there.value, BALLOON)))
                 else None
  {
    hide FreeSlot; hide Put;
  }

  lemma GreetedOf(s: State, player: string, limit: nat)
    requires Counter(s.welcomed, player) == 0
    ensures var t := s.(welcomed := s.welcomed[player := 1]);
            var handed, u := BalloonHanded(t, player, limit), Greeted(s, player, limit);
            && u == t.(house := u.house, gear := u.gear, told := u.told)
            && (HasBalloon(t, player) || handed.None? ==> u.house == s.house && u.gear == s.gear)
            && (!HasBalloon(t, player) && handed.Some? ==> u.house == handed.value.house && u.gear == handed.value.gear)
  {
    hide HasBalloon; hide BalloonHanded;
  }

  lemma GreetedIs(s: State, player: string, limit: nat)
    ensures IsWelcomed(s, Greeted(s, player, limit), player, limit)
  {
    hide FreeSlot; hide Put; hide HasBalloon; hide BalloonHanded; hide SlotsWith; hide IsFirstFree; hide Departures.HasRoom; hide Greeted;
    if Counter(s.welcomed, player) == 0 {
      var t := s.(welcomed := s.welcomed[player := 1]);
      HasBalloonIs(s, player);
      SameBalloons(s, t, player);
      GreetedOf(s, player, limit);
      HandedIs(t, player, limit);
      FreeFirst(SlotsIn(s.gear, player), CARRIED_LIMIT);
      FreeFirst(SlotsIn(s.house, player), limit);
      Departures.RoomIs(SlotsIn(s.gear, player), CARRIED_LIMIT);
      Departures.RoomIs(SlotsIn(s.house, player), limit);
    } else {
      GreetedBefore(s, player, limit);
    }
  }

  lemma GreetedBefore(s: State, player: string, limit: nat)
    requires Counter(s.welcomed, player) != 0
    ensures Greeted(s, player, limit) == s
  {
    hide HasBalloon; hide BalloonHanded;
  }

  lemma SameBalloons(s: State, t: State, player: string)
    requires t.house == s.house && t.gear == s.gear
    ensures HasBalloon(t, player) == HasBalloon(s, player)
  {
    hide CountPower;
  }

  /** A newcomer counts from now, and each new day he plays until his invite is settled is one more. */
  ghost predicate IsCounted(s: State, t: State, player: string, now: int, today: int) {
    var joined := if now > 0 && Counter(s.welcomed, player) == 0 && player !in s.joined then s.joined[player := now] else s.joined;
    && t.joined == joined
    && if now > 0 && player in joined && player !in s.invites.paid && Counter(s.invites.lastDay, player) != today then
         t.invites == s.invites.(lastDay := s.invites.lastDay[player := today],
                                 days := s.invites.days[player := Counter(s.invites.days, player) + 1])
       else t.invites == s.invites
  }

  /** On each platform a name stands for one player: his new one for him, and no other one does. */
  ghost predicate IsNamed(names: map<string, string>, names': map<string, string>, player: string, name: string) {
    && (forall other :: other in names' <==> other == name || (other in names && names[other] != player))
    && (forall other | other in names' :: names'[other] == if other == name then player else names[other])
  }

  /** He is on file on that platform: his number there, or his nick, in whatever spelling. */
  ghost predicate IsOnFile(names: Names, names': Names, player: string, userId: int) {
    if userId != 0 then names'.telegramIds == names.telegramIds[player := userId] && names'.ircNames == names.ircNames
    else
      && names'.telegramIds == names.telegramIds
      && names'.ircNames == if exists known :: known in names.ircNames && Lower(known) == Lower(player) then names.ircNames
                            else names.ircNames[player := 1]
  }

  /** It is he who is called so now, on that platform. */
  ghost predicate IsCalled(names: Names, names': Names, player: string, userId: int, username: string) {
    && names' == names.(accounts := names'.accounts, telegramNames := names'.telegramNames, ircNicks := names'.ircNicks,
                        displayNames := names'.displayNames, telegramIds := names'.telegramIds, ircNames := names'.ircNames)
    && names'.displayNames == (if userId != 0 || Counter(names.telegramIds, player) == 0 then names.displayNames[player := username]
                               else names.displayNames)
    && IsOnFile(names, names', player, userId)
    && if userId != 0 then
         IsNamed(names.telegramNames, names'.telegramNames, player, Lower(username)) && names'.ircNicks == names.ircNicks
       else IsNamed(names.ircNicks, names'.ircNicks, player, Lower(username)) && names'.telegramNames == names.telegramNames
  }

  /** The account of a Telegram number reads back as the number; that of a nick is its IRC account, or itself if it has none. */
  lemma AccountIs(userId: int, username: string, account: string)
    requires Numbers.LEAST <= userId <= Numbers.GREATEST
    ensures var key := PlatformKey(userId, username, account);
            if userId == 0 then key == "irc:" + Lower(if account != "" then account else username)
            else key[..3] == "tg:" && Numbers.ParseInt64(key[3..]) == Some(userId)
  {
    hide Lower; hide Decimal;
    if userId != 0 {
      Numbers.ReadDecimal(userId);
      assert PlatformKey(userId, username, account)[3..] == Decimal(userId);
    }
  }

  /** Nobody can tell which platform that old name is of. */
  ghost predicate IsOfBoth(s: State, key: string) {
    && key !in s.names.displayNames
    && ((IsIn(s, key) && s.current.value.userId != 0) || exists known :: known in s.names.telegramIds && Lower(known) == Lower(key))
    && ((IsIn(s, key) && s.current.value.userId == 0) || exists known :: known in s.names.ircNames && Lower(known) == Lower(key))
  }

  /** An account seen for the first time is the old name it was known by, unless that could be of both platforms or is another account's
      already; else it is a new player. */
  lemma NewcomerIs(s: State, account: string, candidate: Option<string>)
    requires account !in s.names.accounts
    ensures BoundTo(s, account, candidate) ==
              s.names.accounts[account :=
                if candidate.Some? && !IsOfBoth(s, candidate.value)
                   && !(exists a :: a in s.names.accounts && s.names.accounts[a] == candidate.value) then candidate.value
                else account]
  {
    hide Lower;
  }

  lemma SeenOf(s: State, userId: int, username: string, account: string, candidate: Option<string>, limit: nat, now: int, today: int)
    ensures var mine := PlatformKey(userId, username, account);
            var accounts := BoundTo(s, mine, candidate);
            var key := accounts[mine];
            var u := FirstSeen(s.(names := Called(s.names.(accounts := accounts), key, userId, username)), key, now);
            Seen(s, userId, username, account, candidate, limit, now, today) == DayCounted(Greeted(u, key, limit), key, now, today)
  {
    hide Greeted; hide BoundTo; hide PlatformKey; hide Called; hide DayCounted; hide FirstSeen;
  }

  lemma JoinedIs(s: State, u: State, player: string, now: int)
    requires u == FirstSeen(s.(names := u.names), player, now)
    ensures u.invites == s.invites && u.welcomed == s.welcomed
    ensures u.joined == if now > 0 && Counter(s.welcomed, player) == 0 && player !in s.joined then s.joined[player := now] else s.joined
  {
  }

  lemma DaysIs(v: State, player: string, now: int, today: int)
    ensures var t := DayCounted(v, player, now, today);
            && t.joined == v.joined
            && t.invites ==
                 if now > 0 && player in v.joined && player !in v.invites.paid && Counter(v.invites.lastDay, player) != today then
                   v.invites.(lastDay := v.invites.lastDay[player := today],
                              days := v.invites.days[player := Counter(v.invites.days, player) + 1])
                 else v.invites
  {
  }

  lemma CountedIs(s: State, u: State, v: State, t: State, player: string, now: int, today: int)
    requires u == FirstSeen(s.(names := u.names), player, now) && t == DayCounted(v, player, now, today)
    requires v.joined == u.joined && v.invites == u.invites
    ensures IsCounted(s, t, player, now, today)
  {
    hide FirstSeen; hide DayCounted; hide Counter;
    JoinedIs(s, u, player, now);
    DaysIs(v, player, now, today);
  }

  /** player_seen: the account is a player's, it is he who is called so now, and he is welcomed once. */
  lemma SeenSo(s: State, userId: int, username: string, account: string, candidate: Option<string>, limit: nat, now: int, today: int)
    ensures var t, mine := Seen(s, userId, username, account, candidate, limit, now, today), PlatformKey(userId, username, account);
            && mine in t.names.accounts && (mine in s.names.accounts ==> t.names.accounts == s.names.accounts)
            && var player := t.names.accounts[mine];
               && IsCalled(s.names, t.names, player, userId, username)
               && IsWelcomed(s.(names := t.names, joined := t.joined, invites := t.invites), t, player, limit)
               && IsCounted(s, t, player, now, today)
  {
    hide Greeted; hide IsWelcomed; hide BoundTo; hide PlatformKey; hide Called; hide IsCalled; hide IsCounted; hide Seen;
    var mine := PlatformKey(userId, username, account);
    var accounts := BoundTo(s, mine, candidate);
    BoundStays(s, mine, candidate);
    var key := accounts[mine];
    var names := Called(s.names.(accounts := accounts), key, userId, username);
    CalledSo(s.names, accounts, key, userId, username);
    SeenOf(s, userId, username, account, candidate, limit, now, today);
    var u := FirstSeen(s.(names := names), key, now);
    GreetedIs(u, key, limit);
    var v := Greeted(u, key, limit);
    var t := DayCounted(v, key, now, today);
    CountedIs(s, u, v, t, key, now, today);
    WelcomedSame(u, v, t, key, limit);
  }

  lemma BoundStays(s: State, account: string, candidate: Option<string>)
    ensures account in s.names.accounts ==> BoundTo(s, account, candidate) == s.names.accounts
  {
    hide LegacyOwner;
  }

  lemma NamedSo(names: map<string, string>, player: string, name: string)
    ensures IsNamed(names, NamesOfOthers(names, player)[name := player], player, name)
  {
  }

  lemma RememberedSo(names: Names, player: string, userId: int)
    ensures IsOnFile(names, Remembered(names, player, userId), player, userId)
  {
    hide Lower;
  }

  lemma CalledOf(names: Names, key: string, userId: int, username: string)
    ensures var after, name := Called(names, key, userId, username), Lower(username);
            && after == names.(telegramNames := after.telegramNames, ircNicks := after.ircNicks, displayNames := after.displayNames,
                               telegramIds := after.telegramIds, ircNames := after.ircNames)
            && after.telegramNames == (if userId != 0 then NamesOfOthers(names.telegramNames, key)[name := key] else names.telegramNames)
            && after.ircNicks == (if userId == 0 then NamesOfOthers(names.ircNicks, key)[name := key] else names.ircNicks)
            && after.displayNames == (if userId != 0 || Counter(names.telegramIds, key) == 0 then names.displayNames[key := username]
                                      else names.displayNames)
            && exists between: Names :: between.telegramIds == names.telegramIds && between.ircNames == names.ircNames
                 && after == Remembered(between, key, userId)
  {
    hide Lower; hide NamesOfOthers; hide Remembered; hide Counter;
  }

  lemma CalledSo(names: Names, accounts: map<string, string>, key: string, userId: int, username: string)
    ensures var after := Called(names.(accounts := accounts), key, userId, username);
            IsCalled(names, after, key, userId, username) && after.accounts == accounts
  {
    hide Lower; hide NamesOfOthers; hide Remembered; hide Counter; hide IsNamed; hide Called; hide IsOnFile;
    var before := names.(accounts := accounts);
    CalledOf(before, key, userId, username);
    NamedSo(names.telegramNames, key, Lower(username));
    NamedSo(names.ircNicks, key, Lower(username));
    var after := Called(before, key, userId, username);
    var between: Names :| between.telegramIds == names.telegramIds && between.ircNames == names.ircNames
                          && after == Remembered(between, key, userId);
    RememberedSo(between, key, userId);
    OnFileSame(between, names, after, key, userId);
  }

  lemma OnFileSame(names: Names, others: Names, names': Names, player: string, userId: int)
    requires IsOnFile(names, names', player, userId) && others.telegramIds == names.telegramIds && others.ircNames == names.ircNames
    ensures IsOnFile(others, names', player, userId)
  {
    hide Lower;
  }

  lemma HungSame(s: State, u: State, v: State, t: State, player: string, limit: nat)
    requires IsHung(s, u, player, limit)
    requires v.house == s.house && v.gear == s.gear && t.house == u.house && t.gear == u.gear
    ensures IsHung(v, t, player, limit)
  {
    hide IsFirstFree; hide Put; hide SlotsWith; hide Departures.HasRoom;
  }

  /** The days he plays are none of the balloon's business. */
  lemma WelcomedSame(s: State, u: State, t: State, player: string, limit: nat)
    requires IsWelcomed(s, u, player, limit) && t == u.(invites := t.invites)
    ensures IsWelcomed(s.(invites := t.invites), t, player, limit)
  {
    hide IsHung;
    if Counter(s.welcomed, player) == 0 {
      HungSame(s, u, s.(invites := t.invites), t, player, limit);
    }
  }

  /** conquister_claim files him in the same way. */
  lemma ClaimFiles(s: State, userId: int, player: string, now: int, rules: Claims.ClaimRules)
    ensures var t := Claims.Claim(s, userId, player, now, rules); t.Done? ==> IsOnFile(s.names, t.value.names, player, userId)
  {
    hide IsOnFile; hide Remembered; hide Claims.SentAway; hide Claims.HolderThere;
    RememberedSo(s.names, player, userId);
  }

  /** And so does raid_start. */
  lemma RideFiles(s: State, userId: int, player: string, known: Option<string>, homewards: bool, load: Journeys.Load, now: int,
                  rules: Rides.Rules)
    ensures var t := Journeys.RaidStart(s, userId, player, known, homewards, load, now, rules);
            t.Done? ==> IsOnFile(s.names, t.value.names, player, userId)
  {
    hide IsOnFile; hide Remembered; hide Journeys.RaidAnswer; hide Journeys.PickedUp; hide Journeys.Homewards; hide Journeys.SetOff;
    RememberedSo(s.names, player, userId);
  }

  // ---------------------------------------------------------------- invites and quotes

  /** invite_record: in his first three days a newcomer names somebody else, once. */
  lemma RecordsExactly(s: State, newcomer: string, inviter: Option<string>, now: int)
    ensures var t := RecordInvite(s, newcomer, inviter, now);
            if newcomer in s.joined && now - s.joined[newcomer] < 259_200 && newcomer !in s.invites.invitedBy
               && inviter.Some? && inviter.value != newcomer
            then t == s.(invites := s.invites.(invitedBy := s.invites.invitedBy[newcomer := inviter.value]))
            else t == s
  {
  }

  /** invite_due: after three days played both are paid, a thousand and five hundred, once; one person behind both names gets nothing. */
  lemma SettlesExactly(s: State, newcomer: string, samePerson: bool)
    ensures var t := InviteDue(s, newcomer, samePerson);
            if newcomer in s.invites.invitedBy && newcomer !in s.invites.paid && Counter(s.invites.days, newcomer) >= 3 then
              && newcomer in t.invites.paid
              && forall q :: Counter(t.scores, q) == Counter(s.scores, q)
                   + (if samePerson then 0
                      else (if q == s.invites.invitedBy[newcomer] then 1000 else 0) + (if q == newcomer then 500 else 0))
            else t == s
  {
  }

  /** quote_add: added and paid for exactly when he has the palle and it is not there yet. */
  ghost predicate IsQuoted(s: State, t: State, player: string, quote: string, cost: int) {
    && t.quotes.kept == s.quotes.kept + [quote]
    && t.quotes.authors == s.quotes.authors[quote := player]
    && (forall q :: Counter(t.quotes.added, q) == Counter(s.quotes.added, q) + if q == player then 1 else 0)
    && forall q :: Counter(t.scores, q) == Counter(s.scores, q) - if q == player then cost else 0
  }

  lemma QuoteTaken(s: State, player: string, quote: string, cost: int)
    ensures (Quoting.AddAnswer(s, player, quote, cost) == Quoting.QuoteAdded)
        <==> Counter(s.scores, player) >= cost && quote !in s.quotes.kept
  {
    hide Counter;
  }

  lemma OneMore(counters: map<string, int>, player: string, change: int)
    ensures forall q :: Counter(counters[player := Counter(counters, player) + change], q)
                        == Counter(counters, q) + if q == player then change else 0
  {
  }

  lemma QuotesExactly(s: State, player: string, quote: string, cost: int)
    ensures var t := Quoting.AddQuote(s, player, quote, cost);
            t.Done? ==>
              if Counter(s.scores, player) >= cost && quote !in s.quotes.kept then IsQuoted(s, t.value, player, quote, cost)
              else t.value == s
  {
    hide Counter; hide Quoting.AddAnswer;
    QuoteTaken(s, player, quote, cost);
    OneMore(s.quotes.added, player, 1);
    OneMore(s.scores, player, -cost);
  }

  /** The quote at the position that is read, else the first one with that text. */
  ghost predicate IsMeant(kept: seq<string>, selector: string, k: nat) {
    var position := Numbers.ParseInt64(selector);
    && k < |kept|
    && if position.Some? && 1 <= position.value <= |kept| then k == position.value - 1 else kept[k] == selector && selector !in kept[..k]
  }

  /** It is gone, and counts no more for whoever added it. */
  ghost predicate IsUnquoted(s: State, t: State, k: nat)
    requires k < |s.quotes.kept|
  {
    var quote := s.quotes.kept[k];
    && t.quotes.kept == s.quotes.kept[..k] + s.quotes.kept[k + 1..]
    && t.quotes.authors == s.quotes.authors - {quote}
    && forall q :: Counter(t.quotes.added, q) == Counter(s.quotes.added, q)
                     - if quote in s.quotes.authors && s.quotes.authors[quote] == q && Counter(s.quotes.added, q) > 0 then 1 else 0
  }

  lemma SelectedIs(kept: seq<string>, selector: string)
    ensures var at := Quoting.Selected(kept, selector);
            forall k: nat :: IsMeant(kept, selector, k) <==> at == Some(k)
  {
    hide Numbers.ParseInt64; hide Quoting.FindQuote;
    var at := Quoting.FindQuote(kept, selector);
    assert forall k: nat | k < |kept| && kept[k] == selector && selector !in kept[..k] ::
      at.Some? && !(at.value < k) && !(k < at.value);
  }

  lemma UncountedIs(quotes: Quotes, quote: string)
    ensures forall q :: Counter(Quoting.Uncounted(quotes, quote).added, q) == Counter(quotes.added, q)
                          - if quote in quotes.authors && quotes.authors[quote] == q && Counter(quotes.added, q) > 0 then 1 else 0
  {
  }

  /** quote_delete: the quote meant is gone, and nothing else. */
  lemma DeletesExactly(s: State, selector: string)
    ensures var t := Quoting.DeleteQuote(s, selector);
            && t == s.(quotes := t.quotes)
            && (forall k: nat | IsMeant(s.quotes.kept, selector, k) :: IsUnquoted(s, t, k))
            && ((forall k: nat :: !IsMeant(s.quotes.kept, selector, k)) ==> t == s)
  {
    hide IsMeant; hide Quoting.Selected; hide Quoting.Uncounted; hide Counter;
    SelectedIs(s.quotes.kept, selector);
    var at := Quoting.Selected(s.quotes.kept, selector);
    if at.Some? {
      UncountedIs(s.quotes.(kept := s.quotes.kept[..at.value] + s.quotes.kept[at.value + 1..]), s.quotes.kept[at.value]);
      assert IsMeant(s.quotes.kept, selector, at.value);
    }
  }
}

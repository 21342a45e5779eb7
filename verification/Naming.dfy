/** src/game.cpp, player_seen and player_link: which accounts a player has, and how two of them come to share one. */
module Naming {
  import opened Basics
  import opened Text
  import opened Powers
  import opened Ledger
  import opened World
  import opened Rides

  // ---------------------------------------------------------------- accounts

  const TELEGRAM := "tg:"
  const IRC := "irc:"

  /** platform_key. */
  function PlatformKey(userId: int, username: string, account: string): string {
    if userId != 0 then TELEGRAM + Decimal(userId) else IRC + Lower(if account == "" then username else account)
  }

  predicate OfPlatform(account: string, platform: string) {
    platform <= account
  }

  predicate LooksLikeAccount(key: string) {
    OfPlatform(key, TELEGRAM) || OfPlatform(key, IRC)
  }

  /** A player has at most one account on each platform. */
  ghost predicate BoundOnce(accounts: map<string, string>) {
    forall a, b, platform: string |
      && a in accounts && b in accounts && a != b && accounts[a] == accounts[b]
      && (platform == TELEGRAM || platform == IRC) && OfPlatform(a, platform)
      :: !OfPlatform(b, platform)
  }

  /** A key that looks like an account is one that was seen; and so is every account. */
  ghost predicate KeysSeen(accounts: map<string, string>) {
    forall a | a in accounts :: LooksLikeAccount(a) && (LooksLikeAccount(accounts[a]) ==> accounts[a] in accounts)
  }

  ghost predicate Bound(accounts: map<string, string>) {
    BoundOnce(accounts) && KeysSeen(accounts)
  }

  // ---------------------------------------------------------------- names

  predicate OnIrc(names: Names, player: string) {
    exists known :: known in names.ircNames && SameName(known, player)
  }

  predicate OnTelegram(names: Names, player: string) {
    exists known :: known in names.telegramIds && SameName(known, player)
  }

  /** remember_platform. */
  function Remembered(names: Names, player: string, userId: int): (after: Names)
    ensures after == names.(telegramIds := after.telegramIds, ircNames := after.ircNames)
  {
    if userId == 0 then
      if OnIrc(names, player) then names else names.(ircNames := names.ircNames[player := 1])
    else if Counter(names.telegramIds, player) != userId then
      names.(telegramIds := names.telegramIds[player := userId])
    else names
  }

  function DisplayName(names: Names, key: string): string {
    if key in names.displayNames then names.displayNames[key] else key
  }

  /** ambiguous_legacy: an old name that could be of either platform. */
  predicate IsAmbiguous(s: State, key: string) {
    var held := HoldsPlace(s, key);
    && key !in s.names.displayNames
    && (OnTelegram(s.names, key) || (held && s.current.value.userId != 0))
    && (OnIrc(s.names, key) || (held && s.current.value.userId == 0))
  }

  /** legacy_owner, once the old names on file were looked through: it is his unless it is somebody's already. */
  function LegacyOwner(s: State, account: string, candidate: Option<string>): (owner: Option<string>)
    ensures owner.Some? ==> owner == candidate
    ensures owner.Some? ==> forall a | a in s.names.accounts && a != account :: s.names.accounts[a] != owner.value
  {
    if candidate.None? || IsAmbiguous(s, candidate.value) then None
    else if exists a :: a in s.names.accounts && s.names.accounts[a] == candidate.value && a != account then None
    else candidate
  }

  // ---------------------------------------------------------------- being seen

  /** Whoever speaks is bound, once and for good unless he links. */
  function BoundTo(s: State, account: string, candidate: Option<string>): (accounts: map<string, string>)
    ensures account in accounts
  {
    if account in s.names.accounts then s.names.accounts else
    var owner := LegacyOwner(s, account, candidate);
    s.names.accounts[account := if owner.Some? then owner.value else account]
  }

  /** The names that stand for somebody else. */
  function NamesOfOthers(names: map<string, string>, key: string): map<string, string> {
    map name | name in names && names[name] != key :: names[name]
  }

  function Called(names: Names, key: string, userId: int, username: string): (after: Names)
    ensures after.accounts == names.accounts && after.linkRequests == names.linkRequests
  {
    var telegram := if userId != 0 then NamesOfOthers(names.telegramNames, key)[Lower(username) := key] else names.telegramNames;
    var irc := if userId == 0 then NamesOfOthers(names.ircNicks, key)[Lower(username) := key] else names.ircNicks;
    var shown := if userId != 0 || Counter(names.telegramIds, key) == 0 then names.displayNames[key := username]
                 else names.displayNames;
    Remembered(names.(telegramNames := telegram, ircNicks := irc, displayNames := shown), key, userId)
  }

  /** hang_balloon: on him if there is room, else in the house; nowhere with no room at all. */
  function BalloonHanded(s: State, player: string, limit: nat): (t: Option<State>)
    ensures t.Some? ==> t.value == s.(house := t.value.house, gear := t.value.gear)
  {
    hide *;
    if limit == 0 then None else
    var on := PutOn(s, player, BALLOON);
    if on.Some? then on else PutInHouse(s, player, BALLOON, limit)
  }

  /** welcome: the balloon everybody starts with, once. */
  function Greeted(s: State, player: string, limit: nat): (t: State)
    ensures t == s.(house := t.house, gear := t.gear, welcomed := t.welcomed, told := t.told)
  {
    hide *;
    if Counter(s.welcomed, player) != 0 then s else
    var t := s.(welcomed := s.welcomed[player := 1]);
    var handed := if HasBalloon(t, player) then None else BalloonHanded(t, player, limit);
    if handed.Some? then Tell(handed.value, Came(BALLOON)) else t
  }

  /** A newcomer is told from the day he comes. */
  function FirstSeen(s: State, player: string, now: int): (t: State)
    ensures t == s.(joined := t.joined)
  {
    if now > 0 && Counter(s.welcomed, player) == 0 && player !in s.joined then s.(joined := s.joined[player := now]) else s
  }

  /** The days he plays, until his invite is settled. */
  function DayCounted(s: State, player: string, now: int, today: int): (t: State)
    ensures t == s.(invites := t.invites)
  {
    if now > 0 && player in s.joined && player !in s.invites.paid && Counter(s.invites.lastDay, player) != today
    then s.(invites := s.invites.(lastDay := s.invites.lastDay[player := today],
                                  days := s.invites.days[player := Counter(s.invites.days, player) + 1]))
    else s
  }

  /** player_seen. */
  function Seen(s: State, userId: int, username: string, account: string, candidate: Option<string>, limit: nat, now: int,
                today: int): (t: State)
    ensures t == s.(names := t.names, joined := t.joined, welcomed := t.welcomed, house := t.house, gear := t.gear,
                    invites := t.invites, told := t.told)
    ensures t.names.accounts == BoundTo(s, PlatformKey(userId, username, account), candidate)
    ensures t.names.linkRequests == s.names.linkRequests
  {
    hide *;
    var mine := PlatformKey(userId, username, account);
    var accounts := BoundTo(s, mine, candidate);
    var key := accounts[mine];
    var t := s.(names := Called(s.names.(accounts := accounts), key, userId, username));
    DayCounted(Greeted(FirstSeen(t, key, now), key, limit), key, now, today)
  }

  /** Whoever is seen is bound to one player, and nobody else on his platform is: given that no old name looks like an
      account. */
  lemma SeenBinds(s: State, account: string, candidate: Option<string>)
    requires Bound(s.names.accounts) && LooksLikeAccount(account)
    requires candidate.Some? ==> !LooksLikeAccount(candidate.value)
    ensures Bound(BoundTo(s, account, candidate))
    ensures forall a | a in s.names.accounts :: BoundTo(s, account, candidate)[a] == s.names.accounts[a]
  {
    hide IsAmbiguous; hide OfPlatform;
    var accounts := BoundTo(s, account, candidate);
    if account !in s.names.accounts {
      forall a | a in accounts && a != account
        ensures accounts[a] != accounts[account]
      {
        assert a in s.names.accounts;
      }
    }
  }

  /** What a platform calls an account can be told from what the other one does. */
  lemma PlatformKeyLooks(userId: int, username: string, account: string)
    ensures LooksLikeAccount(PlatformKey(userId, username, account))
    ensures OfPlatform(PlatformKey(userId, username, account), TELEGRAM) <==> userId != 0
  {
    var key := PlatformKey(userId, username, account);
    assert userId != 0 ==> key[0] == 't' && key[..3] == TELEGRAM;
    assert userId == 0 ==> key[0] == 'i' && key[..4] == IRC;
  }
}

/** src/game.cpp, player_link and invite_due: two accounts become one player, and a newcomer is paid for. */
module Linking {
  import opened Basics
  import opened Powers
  import opened Ledger
  import opened Places
  import opened World
  import opened Laws
  import opened Naming
  import Settling
  import Belongings
  import Claims

  datatype LinkStatus = Pending | Linked | UnknownAccount | Conflict | Self | AlreadyLinked

  function Mine(userId: int): string {
    if userId != 0 then TELEGRAM else IRC
  }

  function Theirs(userId: int): string {
    if userId != 0 then IRC else TELEGRAM
  }

  // ---------------------------------------------------------------- assets

  function NonEmpty(slots: seq<string>): (owned: seq<string>)
    ensures forall k | 0 <= k < |slots| && slots[k] != "" :: slots[k] in owned
    ensures forall emoji | emoji in owned :: emoji != "" && emoji in slots
  {
    if slots == [] then [] else
    var last, before := slots[|slots| - 1], NonEmpty(slots[..|slots| - 1]);
    if last == "" then before else before + [last]
  }

  function Owned(s: State, key: string): seq<string> {
    NonEmpty(HouseSlots(s, key) + GearSlots(s, key))
  }

  /** Nothing beyond the balloon everybody is handed for nothing. */
  predicate OnlyWelcome(owned: seq<string>) {
    owned == [] || (|owned| == 1 && IsPower(owned[0], Balloon))
  }

  predicate RidesFor(raids: seq<Raid>, key: string) {
    exists j :: 0 <= j < |raids| && (raids[j].raider == key || raids[j].target == key)
  }

  /** What is worth keeping: palle, quotes, the place, a ride, or emoji. */
  predicate HasAssets(s: State, key: string) {
    || Counter(s.scores, key) > 0 || Counter(s.quotes.added, key) > 0
    || IsHolder(s.current, key)
    || !OnlyWelcome(Owned(s, key))
    || RidesFor(s.raids, key)
    || key in s.quotes.authors.Values
  }

  // ---------------------------------------------------------------- linking

  /** The account of a player on a platform. */
  ghost predicate IsTheirs(accounts: map<string, string>, account: string, key: string, platform: string) {
    account in accounts && accounts[account] == key && OfPlatform(account, platform)
  }

  /** The first of them in the file: they have one. */
  ghost function AccountOf(accounts: map<string, string>, key: string, platform: string): (account: Option<string>)
    ensures account.Some? ==> IsTheirs(accounts, account.value, key, platform)
    ensures account.None? ==> forall a :: !IsTheirs(accounts, a, key, platform)
  {
    if exists a :: IsTheirs(accounts, a, key, platform) then
      var a :| IsTheirs(accounts, a, key, platform);
      Some(a)
    else None
  }

  /** Somebody else on one of the two platforms is already either of them. */
  ghost predicate AnotherLinked(accounts: map<string, string>, mine: string, theirs: string, userId: int)
    requires mine in accounts && theirs in accounts
  {
    exists a :: a in accounts &&
      ((accounts[a] == accounts[mine] && a != mine && OfPlatform(a, Theirs(userId))) ||
       (accounts[a] == accounts[theirs] && a != theirs && OfPlatform(a, Mine(userId))))
  }

  /** Which of the two players stays: the other one if he has something to keep. */
  function Primary(s: State, myKey: string, otherKey: string): string {
    if HasAssets(s, otherKey) then otherKey else myKey
  }

  function Secondary(s: State, myKey: string, otherKey: string): string {
    if HasAssets(s, otherKey) then myKey else otherKey
  }

  function Renamed(names: map<string, string>, from: string, to: string): map<string, string> {
    map name | name in names :: if names[name] == from then to else names[name]
  }

  function TelegramShown(names: Names, primary: string, secondary: string): string {
    if Counter(names.telegramIds, primary) != 0 then DisplayName(names, primary)
    else if Counter(names.telegramIds, secondary) != 0 then DisplayName(names, secondary) else ""
  }

  function MergedNames(names: Names, mine: string, theirs: string, primary: string, secondary: string): Names {
    var shown := TelegramShown(names, primary, secondary);
    var displayNames := names.displayNames - {secondary};
    Names(
      if secondary in names.telegramIds
      then (names.telegramIds - {secondary})[primary := names.telegramIds[secondary]] else names.telegramIds,
      if secondary in names.ircNames then (names.ircNames - {secondary})[primary := 1] else names.ircNames,
      Renamed(names.accounts, secondary, primary),
      if shown != "" then displayNames[primary := shown] else displayNames,
      Renamed(names.telegramNames, secondary, primary),
      Renamed(names.ircNicks, secondary, primary),
      names.linkRequests - {mine, theirs})
  }

  /** The one merged in had nothing worth keeping: what is left of him on file goes. */
  function Merged(s: State, names: Names, secondary: string): State {
    s.(names := names, scores := s.scores - {secondary}, quotes := s.quotes.(added := s.quotes.added - {secondary}),
       balloons := s.balloons - {secondary}, cooldowns := s.cooldowns - {secondary}, ids := s.ids - {secondary},
       welcomed := s.welcomed - {secondary}, smeared := s.smeared - {secondary}, frozen := s.frozen - {secondary},
       house := s.house - {secondary}, gear := s.gear - {secondary},
       told := s.told + [Wiped(secondary, Counter(s.scores, secondary), HouseSlots(s, secondary) + GearSlots(s, secondary))])
  }

  /** How it stands between the two accounts. */
  ghost function LinkAnswer(s: State, mine: string, userId: int, theirs: Option<string>): LinkStatus
    requires mine in s.names.accounts && (theirs.Some? ==> theirs.value in s.names.accounts)
  {
    if theirs.None? then UnknownAccount else
    var myKey, otherKey := s.names.accounts[mine], s.names.accounts[theirs.value];
    if myKey == otherKey then Self
    else if theirs.value !in s.names.linkRequests || s.names.linkRequests[theirs.value] != mine then Pending
    else if AnotherLinked(s.names.accounts, mine, theirs.value, userId) then AlreadyLinked
    else if HasAssets(s, myKey) && HasAssets(s, otherKey) then Conflict
    else Linked
  }

  /** The account on the other platform he would share a player with. */
  ghost function Named(s: State, userId: int, other: Option<string>): (theirs: Option<string>)
    ensures theirs.Some? ==> other.Some? && IsTheirs(s.names.accounts, theirs.value, other.value, Theirs(userId))
  {
    if other.Some? then AccountOf(s.names.accounts, other.value, Theirs(userId)) else None
  }

  function Asked(s: State, mine: string, theirs: string): (t: State)
    ensures t == s.(names := t.names)
  {
    s.(names := s.names.(linkRequests := s.names.linkRequests[mine := theirs]))
  }

  function MadeOne(s: State, mine: string, theirs: string): (t: State)
    requires mine in s.names.accounts && theirs in s.names.accounts
  {
    var myKey, otherKey := s.names.accounts[mine], s.names.accounts[theirs];
    var primary, secondary := Primary(s, myKey, otherKey), Secondary(s, myKey, otherKey);
    Merged(s, MergedNames(s.names, mine, theirs, primary, secondary), secondary)
  }

  /** player_link. other is the player found behind the name on the other platform. One the bot has not seen is refused. */
  ghost function Link(s: State, mine: string, userId: int, other: Option<string>): Result<State> {
    hide *;
    var theirs := Named(s, userId, other);
    if mine !in s.names.accounts then Abandoned
    else if theirs.None? || theirs.value !in s.names.accounts then Done(s)
    else
      match LinkAnswer(s, mine, userId, theirs)
      case Pending => Done(Asked(s, mine, theirs.value))
      case Linked => Done(MadeOne(s, mine, theirs.value))
      case _ => Done(s)
  }

  // ---------------------------------------------------------------- what it keeps

  /** Two accounts, of the two platforms, come to share a player; nobody else's accounts do. */
  lemma RenamedBound(accounts: map<string, string>, mine: string, theirs: string, userId: int, primary: string, secondary: string)
    requires Bound(accounts) && mine in accounts && theirs in accounts
    requires OfPlatform(mine, Mine(userId)) && OfPlatform(theirs, Theirs(userId))
    requires !AnotherLinked(accounts, mine, theirs, userId)
    requires {primary, secondary} == {accounts[mine], accounts[theirs]}
    ensures Bound(Renamed(accounts, secondary, primary))
  {
    hide OfPlatform;
    var after := Renamed(accounts, secondary, primary);
    assert primary == accounts[mine] || primary == accounts[theirs];
    assert secondary == accounts[mine] || secondary == accounts[theirs];
    forall a, b, platform: string |
      && a in after && b in after && a != b && after[a] == after[b]
      && (platform == TELEGRAM || platform == IRC) && OfPlatform(a, platform)
      ensures !OfPlatform(b, platform)
    {
      if OfPlatform(b, platform) {
        Shared(accounts, mine, theirs, userId, a, b, platform);
      }
    }
  }

  lemma OnePlatform(account: string)
    ensures !(OfPlatform(account, TELEGRAM) && OfPlatform(account, IRC))
  {
    assert TELEGRAM[0] == 't' && IRC[0] == 'i';
  }

  /** Two accounts of one platform are never the two players. */
  lemma Shared(accounts: map<string, string>, mine: string, theirs: string, userId: int, a: string, b: string, platform: string)
    requires Bound(accounts) && mine in accounts && theirs in accounts && a in accounts && b in accounts && a != b
    requires OfPlatform(mine, Mine(userId)) && OfPlatform(theirs, Theirs(userId))
    requires !AnotherLinked(accounts, mine, theirs, userId)
    requires (platform == TELEGRAM || platform == IRC) && OfPlatform(a, platform) && OfPlatform(b, platform)
    ensures accounts[a] != accounts[b]
    ensures !(accounts[a] in {accounts[mine], accounts[theirs]} && accounts[b] in {accounts[mine], accounts[theirs]})
  {
    hide OfPlatform;
    OnePlatform(a);
    OnePlatform(b);
  }

  /** What becoming one player does to the names. */
  lemma MadeOneNames(s: State, mine: string, theirs: string)
    requires mine in s.names.accounts && theirs in s.names.accounts
    ensures var t := MadeOne(s, mine, theirs);
            var myKey, otherKey := s.names.accounts[mine], s.names.accounts[theirs];
            && t.names.accounts == Renamed(s.names.accounts, Secondary(s, myKey, otherKey), Primary(s, myKey, otherKey))
            && t.names.linkRequests == s.names.linkRequests - {mine, theirs}
  {
    hide HasAssets; hide Renamed; hide TelegramShown;
  }

  /** No request is made in anybody else's name. */
  ghost predicate NobodyElseAsks(before: map<string, string>, after: map<string, string>, mine: string) {
    forall a | a in after && a != mine :: a in before && after[a] == before[a]
  }

  lemma Asking(requests: map<string, string>, mine: string, theirs: string)
    ensures NobodyElseAsks(requests, requests, mine)
    ensures NobodyElseAsks(requests, requests[mine := theirs], mine)
    ensures NobodyElseAsks(requests, requests - {mine, theirs}, mine)
  {
  }

  lemma LinkDoes(s: State, mine: string, userId: int, other: Option<string>)
    requires mine in s.names.accounts
    ensures var t, theirs := Link(s, mine, userId, other), Named(s, userId, other);
            || t == Done(s)
            || (theirs.Some? && t == Done(Asked(s, mine, theirs.value)))
            || (theirs.Some? && theirs.value in s.names.accounts && LinkAnswer(s, mine, userId, theirs) == Linked
                && t == Done(MadeOne(s, mine, theirs.value)))
  {
    hide Named; hide Asked; hide LinkAnswer; hide MadeOne; hide IsTheirs;
  }

  lemma LinkBinds(s: State, mine: string, userId: int, other: Option<string>)
    requires Bound(s.names.accounts) && OfPlatform(mine, Mine(userId))
    ensures var t := Link(s, mine, userId, other); t.Done? ==> Bound(t.value.names.accounts)
  {
    hide OfPlatform; hide Bound; hide Renamed; hide AnotherLinked; hide Named; hide MadeOne; hide Link; hide LinkAnswer; hide HasAssets;
    hide NobodyElseAsks;
    var theirs := Named(s, userId, other);
    if mine !in s.names.accounts {
      NotSeen(s, mine, userId, other);
    } else {
      LinkDoes(s, mine, userId, other);
    }
    if mine in s.names.accounts && theirs.Some? && LinkAnswer(s, mine, userId, theirs) == Linked {
      NoOtherLinked(s, mine, userId, theirs.value);
      var myKey, otherKey := s.names.accounts[mine], s.names.accounts[theirs.value];
      MadeOneNames(s, mine, theirs.value);
      RenamedBound(s.names.accounts, mine, theirs.value, userId, Primary(s, myKey, otherKey), Secondary(s, myKey, otherKey));
    }
  }

  lemma NotSeen(s: State, mine: string, userId: int, other: Option<string>)
    requires mine !in s.names.accounts
    ensures Link(s, mine, userId, other) == Abandoned
  {
  }

  lemma NoOtherLinked(s: State, mine: string, userId: int, theirs: string)
    requires mine in s.names.accounts && theirs in s.names.accounts && LinkAnswer(s, mine, userId, Some(theirs)) == Linked
    ensures !AnotherLinked(s.names.accounts, mine, theirs, userId)
  {
    hide HasAssets; hide AnotherLinked;
  }

  /** A link happens only after both asked for it, the other one first; and it is asked for in one's own name only. */
  lemma LinkAgreed(s: State, mine: string, userId: int, other: Option<string>)
    requires mine in s.names.accounts
    ensures var t, theirs := Link(s, mine, userId, other), Named(s, userId, other);
            && t.Done?
            && (t.value.names.accounts != s.names.accounts ==>
                  theirs.Some? && theirs.value in s.names.linkRequests && s.names.linkRequests[theirs.value] == mine)
            && NobodyElseAsks(s.names.linkRequests, t.value.names.linkRequests, mine)
  {
    hide Named; hide LinkAnswer; hide MadeOne; hide IsTheirs; hide Link; hide NobodyElseAsks; hide Renamed; hide Primary;
    hide Secondary;
    var theirs := Named(s, userId, other);
    LinkDoes(s, mine, userId, other);
    Asking(s.names.linkRequests, mine, if theirs.Some? then theirs.value else mine);
    if theirs.Some? && theirs.value in s.names.accounts && LinkAnswer(s, mine, userId, theirs) == Linked {
      BothAsked(s, mine, userId, theirs.value);
      MadeOneNames(s, mine, theirs.value);
    }
  }

  lemma BothAsked(s: State, mine: string, userId: int, theirs: string)
    requires mine in s.names.accounts && theirs in s.names.accounts && LinkAnswer(s, mine, userId, Some(theirs)) == Linked
    ensures theirs in s.names.linkRequests && s.names.linkRequests[theirs] == mine
  {
    hide HasAssets; hide AnotherLinked;
  }

  /** One without assets leaves nothing behind but, at the most, a welcome balloon. */
  lemma NothingLost(s: State, names: Names, secondary: string)
    requires Sound(s) && !HasAssets(s, secondary)
    ensures var t := Merged(s, names, secondary);
            && Total(t.scores, ITSELF) == Total(s.scores, ITSELF)
            && t.raids == s.raids && t.current == s.current && t.quotes.authors == s.quotes.authors
            && t.told == s.told + [Wiped(secondary, 0, HouseSlots(s, secondary) + GearSlots(s, secondary))]
            && OnlyWelcome(NonEmpty(HouseSlots(s, secondary) + GearSlots(s, secondary)))
  {
    hide Total; hide OnlyWelcome; hide NonEmpty; hide RidesFor; hide Standing; hide Holding;
    assert Solvent(s.scores) by { SoundSolvent(s); }
    Settling.Owes(s.scores, secondary);
    TotalDropped(s.scores, secondary, ITSELF);
  }

  lemma OwnedThere(s: State, key: string, slot: nat)
    requires At(s.house, key, slot) != ""
    ensures At(s.house, key, slot) in Owned(s, key)
  {
    assert (HouseSlots(s, key) + GearSlots(s, key))[slot] == At(s.house, key, slot);
  }

  lemma NoChildren(s: State, key: string)
    requires Sound(s) && OnlyWelcome(Owned(s, key))
    ensures forall j | 0 <= j < |s.children| :: s.children[j].owner != key
  {
    hide RidesSound; hide OnePlace; hide Mapped; hide Housed; hide Holding; hide Solvent; hide PowerOf; hide ChildEmoji; hide Owned;
    forall j | 0 <= j < |s.children|
      ensures s.children[j].owner != key
    {
      Faces();
      OwnedThere(s, s.children[j].owner, s.children[j].slot);
    }
  }

  lemma DroppedRaised(house: Place, children: seq<Child>, key: string)
    requires Raised(house, children) && forall j | 0 <= j < |children| :: children[j].owner != key
    ensures Raised(house - {key}, children)
  {
    hide IsChildFace;
    forall j | 0 <= j < |children|
      ensures At(house - {key}, children[j].owner, children[j].slot) == At(house, children[j].owner, children[j].slot)
    {
    }
  }

  lemma DroppedHoused(house: Place, gear: Place, key: string)
    requires Housed(house, gear)
    ensures Housed(house - {key}, gear - {key})
  {
    forall q: string
      ensures |SlotsIn(gear - {key}, q)| <= CARRIED_LIMIT
    {
      assert |SlotsIn(gear, q)| <= CARRIED_LIMIT;
    }
  }

  lemma DroppedMapped(ids: map<string, int>, raids: seq<Raid>, key: string)
    requires Mapped(ids, raids) && !RidesFor(raids, key)
    ensures Mapped(ids - {key}, raids)
  {
  }

  lemma DroppedScores(scores: map<string, int>, key: string)
    requires Solvent(scores)
    ensures Solvent(scores - {key})
  {
  }

  lemma MergedSound(s: State, names: Names, secondary: string)
    requires Sound(s) && !HasAssets(s, secondary)
    ensures Sound(Merged(s, names, secondary))
  {
    hide RidesSound; hide OnePlace; hide Mapped; hide Housed; hide Raised; hide Holding; hide Solvent; hide OnlyWelcome; hide RidesFor;
    hide Owned;
    NoChildren(s, secondary);
    DroppedScores(s.scores, secondary);
    DroppedRaised(s.house, s.children, secondary);
    DroppedHoused(s.house, s.gear, secondary);
    DroppedMapped(s.ids, s.raids, secondary);
    HoldingSame(s.current, s.gear, s.gear - {secondary});
  }

  lemma MergedPlays(s: State, names: Names, secondary: string, face: string)
    requires Sound(s) && !HasAssets(s, secondary)
    ensures Plays(s, Merged(s, names, secondary), face)
  {
    hide Sound; hide HasAssets; hide Total; hide OnTheRoad; hide PalleMade; hide EmojiMade; hide Copies;
    MergedSound(s, names, secondary);
    TotalDropped(s.scores, secondary, ITSELF);
    TotalDropped(s.house, secondary, CopiesOf(face));
    TotalDropped(s.gear, secondary, CopiesOf(face));
    Settling.CopiesNone(face);
    CopiesJoin(HouseSlots(s, secondary), GearSlots(s, secondary), face);
    ToldOne(s.told, Wiped(secondary, Counter(s.scores, secondary), HouseSlots(s, secondary) + GearSlots(s, secondary)), face);
  }

  lemma LinkPlays(s: State, mine: string, userId: int, other: Option<string>, face: string)
    requires Sound(s)
    ensures var t := Link(s, mine, userId, other); t.Done? ==> Plays(s, t.value, face)
  {
    hide Sound; hide Plays; hide HasAssets; hide MadeOne; hide Asked; hide AnotherLinked; hide Named;
    QuietPlay(s, s, face);
    var theirs := Named(s, userId, other);
    if mine in s.names.accounts && theirs.Some? {
      QuietPlay(s, Asked(s, mine, theirs.value), face);
      if LinkAnswer(s, mine, userId, theirs) == Linked {
        MadeOnePlays(s, mine, theirs.value, face);
      }
    }
  }

  lemma MadeOnePlays(s: State, mine: string, theirs: string, face: string)
    requires Sound(s) && mine in s.names.accounts && theirs in s.names.accounts
    requires !(HasAssets(s, s.names.accounts[mine]) && HasAssets(s, s.names.accounts[theirs]))
    ensures Plays(s, MadeOne(s, mine, theirs), face)
  {
    hide Sound; hide Plays; hide HasAssets; hide Merged; hide MergedNames;
    var myKey, otherKey := s.names.accounts[mine], s.names.accounts[theirs];
    var primary, secondary := Primary(s, myKey, otherKey), Secondary(s, myKey, otherKey);
    MergedPlays(s, MergedNames(s.names, mine, theirs, primary, secondary), secondary, face);
  }

  // ---------------------------------------------------------------- being seen keeps

  /** A balloon in an empty slot is no bolt, whoever gets it. */
  lemma BalloonHangs(current: Option<Holder>, gear: Place, player: string, slot: nat)
    requires Holding(current, gear) && At(gear, player, slot) == ""
    ensures Holding(current, Put(gear, player, slot, BALLOON))
  {
    hide CountPower; hide Put; hide HoldSound; hide IsLobster; hide PowerOf;
    PutAt(gear, player, slot, BALLOON);
    if IsHolder(current, player) {
      var before, after := ShownGear(current, gear, player), ShownGear(current, Put(gear, player, slot, BALLOON), player);
      BalloonShown(current, gear, player, slot);
      Belongings.CountAtMost(before, after, Bolt);
      Belongings.CountAtMost(after, before, Bolt);
    } else {
      HoldingSame(current, gear, Put(gear, player, slot, BALLOON));
    }
  }

  lemma BalloonShown(current: Option<Holder>, gear: Place, player: string, slot: nat)
    requires IsHolder(current, player) && At(gear, player, slot) == ""
    ensures var before, after := ShownGear(current, gear, player), ShownGear(current, Put(gear, player, slot, BALLOON), player);
            && (forall k: int | Belongings.IsPowerAt(after, k, Bolt) :: k < |before| && after[k] == before[k])
            && (forall k: int | Belongings.IsPowerAt(before, k, Bolt) :: k < |after| && after[k] == before[k])
  {
    hide Put; hide PowerOf;
    PutAt(gear, player, slot, BALLOON);
    Faces();
    var put := Put(gear, player, slot, BALLOON);
    var mine, more := SlotsIn(gear, player), SlotsIn(put, player);
    var before, after := ShownGear(current, gear, player), ShownGear(current, put, player);
    forall k: int | Belongings.IsPowerAt(before, k, Bolt)
      ensures k < |after| && after[k] == before[k]
    {
      assert At(put, player, k) == At(gear, player, k) == mine[k];
    }
    forall k: int | Belongings.IsPowerAt(after, k, Bolt)
      ensures k < |before| && after[k] == before[k]
    {
      assert At(put, player, k) == more[k];
    }
  }

  lemma BalloonGains(s: State, player: string, limit: nat, face: string)
    requires Sound(s)
    ensures BalloonHanded(s, player, limit).Some? ==> Settling.Gains(s, BalloonHanded(s, player, limit).value, BALLOON, face)
  {
    hide Put; hide Total; hide Housed; hide Holding; hide Raised; hide Copy; hide RidesSound; hide OnePlace; hide Mapped; hide PowerOf;
    var slot := FreeSlot(GearSlots(s, player), CARRIED_LIMIT);
    if slot.Some? {
      GearPut(s.house, s.gear, s.current, player, slot.value, BALLOON);
      CopiesPut(s.gear, player, slot.value, BALLOON, face);
      Belongings.NoCopy(face);
      BalloonHangs(s.current, s.gear, player, slot.value);
    } else if FreeSlot(HouseSlots(s, player), limit).Some? {
      Settling.InHouseGains(s, player, FreeSlot(HouseSlots(s, player), limit).value, BALLOON, face);
    }
  }

  lemma GainedPlays(s: State, t: State, emoji: string, face: string)
    requires Sound(s) && Settling.Gains(s, t, emoji, face)
    ensures Plays(s, Tell(t, Came(emoji)), face)
  {
    hide RidesSound; hide OnePlace; hide Mapped; hide Housed; hide Raised; hide Holding; hide Total; hide OnTheRoad;
    hide PalleMade; hide EmojiMade; hide Solvent; hide Copy;
    ToldOne(t.told, Came(emoji), face);
  }

  lemma WelcomedPlays(s: State, player: string, limit: nat, face: string)
    requires Sound(s)
    ensures Plays(s, Greeted(s, player, limit), face)
  {
    hide Sound; hide Plays; hide HasBalloon; hide BalloonHanded; hide Settling.Gains; hide Tell;
    QuietPlay(s, s, face);
    var t := s.(welcomed := s.welcomed[player := 1]);
    QuietPlay(s, t, face);
    PlayedSound(s, t, face);
    var handed := BalloonHanded(t, player, limit);
    BalloonGains(t, player, limit, face);
    if handed.Some? {
      GainedPlays(t, handed.value, BALLOON, face);
      PlaysOn(s, t, Tell(handed.value, Came(BALLOON)), face);
    }
  }

  lemma SeenPlays(s: State, userId: int, username: string, account: string, candidate: Option<string>, limit: nat, now: int,
                  today: int, face: string)
    requires Sound(s)
    ensures Plays(s, Seen(s, userId, username, account, candidate, limit, now, today), face)
  {
    hide Sound; hide Plays; hide PlatformKey; hide BoundTo; hide Called; hide FirstSeen; hide Greeted; hide DayCounted;
    var mine := PlatformKey(userId, username, account);
    var accounts := BoundTo(s, mine, candidate);
    var key := accounts[mine];
    var t := FirstSeen(s.(names := Called(s.names.(accounts := accounts), key, userId, username)), key, now);
    QuietPlay(s, t, face);
    PlayedSound(s, t, face);
    var u := Greeted(t, key, limit);
    WelcomedPlays(t, key, limit, face);
    PlaysOn(s, t, u, face);
    PlayedSound(s, u, face);
    QuietPlay(u, DayCounted(u, key, now, today), face);
    PlaysOn(s, u, DayCounted(u, key, now, today), face);
  }

  /** balloons_hand_out: everybody on file is handed the balloon he never had, one after the other. */
  function HandedOut(s: State, players: seq<string>, limit: nat): (t: State)
    ensures t.names == s.names
  {
    if players == [] then s else Greeted(HandedOut(s, players[..|players| - 1], limit), players[|players| - 1], limit)
  }

  lemma {:induction false} HandedOutPlays(s: State, players: seq<string>, limit: nat, face: string)
    requires Sound(s)
    ensures Plays(s, HandedOut(s, players, limit), face)
  {
    hide Sound; hide Plays; hide Greeted;
    if players == [] {
      QuietPlay(s, s, face);
    } else {
      var t := HandedOut(s, players[..|players| - 1], limit);
      HandedOutPlays(s, players[..|players| - 1], limit, face);
      PlayedSound(s, t, face);
      WelcomedPlays(t, players[|players| - 1], limit, face);
      PlaysOn(s, t, HandedOut(s, players, limit), face);
    }
  }

  // ---------------------------------------------------------------- invites

  const DAYS_NEEDED := 3
  const INVITER_REWARD := 1000
  const INVITED_REWARD := 500

  const INVITE_WINDOW := 3 * 24 * 60 * 60

  /** invite_record: a newcomer says once who brought him, in his first days. inviter is the player found behind the name. */
  function RecordInvite(s: State, newcomer: string, inviter: Option<string>, now: int): (t: State)
    ensures t == s.(invites := t.invites)
  {
    if newcomer !in s.joined || now - s.joined[newcomer] >= INVITE_WINDOW || newcomer in s.invites.invitedBy
       || inviter.None? || inviter.value == newcomer then s
    else s.(invites := s.invites.(invitedBy := s.invites.invitedBy[newcomer := inviter.value]))
  }

  predicate IsOwed(invites: Invites, newcomer: string) {
    newcomer in invites.invitedBy && newcomer !in invites.paid && Counter(invites.days, newcomer) >= DAYS_NEEDED
  }

  function Rewards(scores: map<string, int>, inviter: string, newcomer: string): map<string, int> {
    var paid := scores[inviter := Counter(scores, inviter) + INVITER_REWARD];
    paid[newcomer := Counter(paid, newcomer) + INVITED_REWARD]
  }

  /** invite_due: once the newcomer has played his days, both are paid; one person behind two names gets nothing. */
  function InviteDue(s: State, newcomer: string, samePerson: bool): (t: State)
    ensures t == s.(invites := t.invites, scores := t.scores, told := t.told)
  {
    if !IsOwed(s.invites, newcomer) then s
    else if samePerson then s.(invites := s.invites.(paid := s.invites.paid[newcomer := -1]))
    else
      s.(invites := s.invites.(paid := s.invites.paid[newcomer := 1]),
         scores := Rewards(s.scores, s.invites.invitedBy[newcomer], newcomer),
         told := s.told + [Rewarded(INVITER_REWARD + INVITED_REWARD)])
  }

  lemma RewardsAdd(scores: map<string, int>, inviter: string, newcomer: string)
    requires Solvent(scores)
    ensures Solvent(Rewards(scores, inviter, newcomer))
    ensures Total(Rewards(scores, inviter, newcomer), ITSELF) == Total(scores, ITSELF) + INVITER_REWARD + INVITED_REWARD
  {
    hide Solvent; hide Total;
    Settling.Owes(scores, inviter);
    Settling.PaidIn(scores, inviter, INVITER_REWARD);
    var paid := scores[inviter := Counter(scores, inviter) + INVITER_REWARD];
    Settling.Owes(paid, newcomer);
    Settling.PaidIn(paid, newcomer, INVITED_REWARD);
  }

  lemma RewardedPlays(s: State, t: State, inviter: string, newcomer: string, face: string)
    requires Sound(s)
    requires t == s.(scores := Rewards(s.scores, inviter, newcomer),
                     told := s.told + [Rewarded(INVITER_REWARD + INVITED_REWARD)])
    ensures Plays(s, t, face)
  {
    hide Sound; hide Plays; hide Total; hide Solvent; hide Rewards;
    SoundSolvent(s);
    RewardsAdd(s.scores, inviter, newcomer);
    Claims.ScoresPlay(s, t, Rewarded(INVITER_REWARD + INVITED_REWARD), face);
  }

  lemma InvitePlays(s: State, newcomer: string, samePerson: bool, face: string)
    requires Sound(s)
    ensures Plays(s, InviteDue(s, newcomer, samePerson), face)
  {
    hide Sound; hide Plays; hide Rewards;
    var u := InviteDue(s, newcomer, samePerson);
    var t := s.(invites := u.invites);
    QuietPlay(s, t, face);
    PlayedSound(s, t, face);
    if IsOwed(s.invites, newcomer) && !samePerson {
      RewardedPlays(t, u, s.invites.invitedBy[newcomer], newcomer, face);
      PlaysOn(s, t, u, face);
    }
  }

  /** An invite is settled once: from then on nobody is owed anything for that newcomer. */
  lemma InvitePaidOnce(s: State, newcomer: string, samePerson: bool, later: bool)
    ensures !IsOwed(InviteDue(s, newcomer, samePerson).invites, newcomer)
    ensures InviteDue(InviteDue(s, newcomer, samePerson), newcomer, later) == InviteDue(s, newcomer, samePerson)
  {
  }
}

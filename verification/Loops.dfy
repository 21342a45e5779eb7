/** src/game.cpp: the loops of the game that only look or count, each against the function it computes. */
module Loops {
  import opened Basics
  import opened Powers
  import opened Ledger
  import opened Places
  import opened World
  import opened Rides
  import opened Family
  import opened Holds
  import opened Naming
  import opened Belongings
  import opened Claims
  import opened Journeys
  import opened Household
  import opened Burning
  import opened Linking
  import opened Quoting
  import opened Numbers
  import Position

  // ---------------------------------------------------------------- slots, one after the other

  /** free_slot. */
  method FindFree(slots: seq<string>, limit: nat) returns (slot: Option<nat>)
    ensures slot == FreeSlot(slots, limit)
  {
    var at := 0;
    while at < |slots| && slots[at] != ""
      invariant at <= FirstEmpty(slots)
    {
      at := at + 1;
    }
    slot := if at < limit then Some(at) else None;
  }

  /** count_power. */
  method CountSlots(slots: seq<string>, power: Power) returns (count: nat)
    ensures count == CountPower(slots, power)
  {
    hide IsPower;
    count := 0;
    for k := 0 to |slots|
      invariant count == CountPower(slots[..k], power)
    {
      assert slots[..k + 1][..k] == slots[..k];
      if slots[k] != "" && IsPower(slots[k], power) {
        count := count + 1;
      }
    }
    assert slots[..|slots|] == slots;
  }

  /** The slots an explosion may hit. */
  method FindExposed(slots: seq<string>) returns (there: seq<nat>)
    ensures there == Exposed(slots, |slots|)
  {
    hide IsExposed;
    there := [];
    for slot := 0 to |slots|
      invariant there == Exposed(slots, slot)
    {
      if IsExposed(slots[slot]) {
        there := there + [slot];
      }
    }
  }

  /** gear_slot_holding. */
  method FindLike(slots: seq<string>, emoji: string) returns (slot: Option<nat>)
    ensures slot == FirstLike(slots, emoji)
  {
    hide Looks;
    for at := 0 to |slots|
      invariant forall k | 0 <= k < at :: !Looks(slots[k], emoji)
    {
      if Looks(slots[at], emoji) {
        return Some(at);
      }
    }
    return None;
  }

  method EraseMother(list: seq<Pregnancy>, player: string) returns (kept: seq<Pregnancy>)
    ensures kept == NotExpecting(list, player)
  {
    kept := [];
    for k := 0 to |list|
      invariant kept == NotExpecting(list[..k], player)
    {
      assert list[..k + 1][..k] == list[..k];
      if list[k].mother != player {
        kept := kept + [list[k]];
      }
    }
    assert list[..|list|] == list;
  }

  method EraseOwner(list: seq<Child>, player: string) returns (kept: seq<Child>)
    ensures kept == Elsewhere(list, player)
  {
    kept := [];
    for k := 0 to |list|
      invariant kept == Elsewhere(list[..k], player)
    {
      assert list[..k + 1][..k] == list[..k];
      if list[k].owner != player {
        kept := kept + [list[k]];
      }
    }
    assert list[..|list|] == list;
  }

  method EraseLate(list: seq<Knock>, now: int) returns (kept: seq<Knock>)
    ensures kept == Recent(list, now)
  {
    kept := [];
    for k := 0 to |list|
      invariant kept == Recent(list[..k], now)
    {
      assert list[..k + 1][..k] == list[..k];
      if now - list[k].at <= SALT_SECONDS {
        kept := kept + [list[k]];
      }
    }
    assert list[..|list|] == list;
  }

  method EraseSame(list: seq<Knock>, raider: string, target: string) returns (kept: seq<Knock>)
    ensures kept == Forgotten(list, raider, target)
  {
    kept := [];
    for k := 0 to |list|
      invariant kept == Forgotten(list[..k], raider, target)
    {
      assert list[..k + 1][..k] == list[..k];
      if list[k].raider != raider || list[k].target != target {
        kept := kept + [list[k]];
      }
    }
    assert list[..|list|] == list;
  }

  /** How many of some slots are a copy of an emoji. */
  method CountFace(slots: seq<string>, face: string) returns (count: int)
    ensures count == Copies(slots, face)
  {
    hide Copy;
    count := 0;
    for k := 0 to |slots|
      invariant count == Copies(slots[..k], face)
    {
      assert slots[..k + 1][..k] == slots[..k];
      count := count + Copy(slots[k], face);
    }
    assert slots[..|slots|] == slots;
  }

  /** The copies in the houses, or on the players. */
  method CountCopies(place: Place, face: string) returns (count: int)
    ensures count == Total(place, CopiesOf(face))
  {
    hide Total; hide Copies;
    count := 0;
    var rest := place;
    while rest != map[]
      invariant count + Total(rest, CopiesOf(face)) == Total(place, CopiesOf(face))
      decreases |rest|
    {
      var player :| player in rest;
      TotalRemoved(rest, player, CopiesOf(face));
      var here := CountFace(rest[player], face);
      count := count + here;
      rest := rest - {player};
    }
    NothingTotal<seq<string>>(CopiesOf(face));
  }

  /** The copies on their way to somebody. */
  method CountGifts(raids: seq<Raid>, face: string) returns (count: int)
    ensures count == OnTheRoad(raids, 0, 0, GiftCopies(face))
  {
    hide Copy;
    count := 0;
    for k := 0 to |raids|
      invariant count == OnTheRoad(raids[..k], 0, 0, GiftCopies(face))
    {
      assert raids[..k + 1][..k] == raids[..k];
      count := count + Copy(raids[k].giftEmoji, face);
    }
    assert raids[..|raids|] == raids;
  }

  lemma StockIs(house: Place, gear: Place, raids: seq<Raid>, face: string)
    ensures Stock(house, gear, raids, 0, 0, face)
         == Total(house, CopiesOf(face)) + Total(gear, CopiesOf(face)) + OnTheRoad(raids, 0, 0, GiftCopies(face))
  {
    hide Total; hide OnTheRoad;
  }

  /** Once it cannot grow any more, the price stays what it is. */
  lemma {:induction false} StaysMost(cost: int, copies: int, more: int, inflation: int)
    requires cost > 0 && copies <= more && Inflated(cost, copies, inflation) == MOST
    ensures Inflated(cost, more, inflation) == MOST
    decreases more
  {
    if copies < more && more > 0 {
      StaysMost(cost, copies, more - 1, inflation);
      Beyond(Factor(inflation));
    }
  }

  lemma Beyond(factor: int)
    requires factor >= 100
    ensures MOST > MOST / factor
  {
    Quotient(MOST, factor);
    Products(100, factor, MOST / factor);
  }

  /** inflated. */
  method Inflate(cost: int, copies: int, inflation: int) returns (price: int)
    ensures price == Inflated(cost, copies, inflation)
  {
    if cost <= 0 {
      return 0;
    }
    var factor := Factor(inflation);
    price := cost;
    var copy := 0;
    while copy < copies
      invariant 0 <= copy <= Max(copies, 0)
      invariant price == Inflated(cost, copy, inflation)
      decreases copies - copy
    {
      if price > MOST / factor {
        StaysMost(cost, copy + 1, copies, inflation);
        return MOST;
      }
      price := price * factor / 100;
      copy := copy + 1;
    }
    assert copies <= 0 ==> Inflated(cost, copies, inflation) == cost;
  }

  method ZeroAll(scores: map<string, int>) returns (zero: map<string, int>)
    ensures zero == map player | player in scores :: 0
  {
    zero := scores;
    var keys := scores.Keys;
    while keys != {}
      invariant keys <= scores.Keys && zero.Keys == scores.Keys
      invariant forall player | player in scores && player !in keys :: zero[player] == 0
      decreases |keys|
    {
      var player :| player in keys;
      keys := keys - {player};
      zero := zero[player := 0];
    }
  }

  method EraseNames(names: map<string, string>, key: string) returns (others: map<string, string>)
    ensures others == NamesOfOthers(names, key)
  {
    others := names;
    var left := names.Keys;
    while left != {}
      invariant left <= names.Keys
      invariant others == map name | name in names && (name in left || names[name] != key) :: names[name]
      decreases |left|
    {
      var name :| name in left;
      left := left - {name};
      if names[name] == key {
        others := others - {name};
      }
    }
  }

  lemma BoundIsOnce(accounts: map<string, string>)
    requires Bound(accounts)
    ensures BoundOnce(accounts)
  {
  }

  /** There is one account of a player on a platform at the most. */
  lemma OnlyAccount(accounts: map<string, string>, account: string, key: string, platform: string)
    requires BoundOnce(accounts) && IsTheirs(accounts, account, key, platform) && (platform == TELEGRAM || platform == IRC)
    ensures AccountOf(accounts, key, platform) == Some(account)
  {
    hide OfPlatform;
    var found := AccountOf(accounts, key, platform);
    assert found.Some?;
  }

  /** The account of a player on a platform. */
  method FindAccount(accounts: map<string, string>, key: string, platform: string) returns (account: Option<string>)
    requires BoundOnce(accounts) && (platform == TELEGRAM || platform == IRC)
    ensures account == AccountOf(accounts, key, platform)
  {
    hide AccountOf; hide OfPlatform; hide BoundOnce;
    var left := accounts.Keys;
    while left != {}
      invariant left <= accounts.Keys
      invariant forall a | a in accounts && a !in left :: !IsTheirs(accounts, a, key, platform)
      decreases |left|
    {
      var a :| a in left;
      left := left - {a};
      if accounts[a] == key && OfPlatform(a, platform) {
        OnlyAccount(accounts, a, key, platform);
        return Some(a);
      }
    }
    return None;
  }

  /** Whether somebody else on one of the two platforms is already either of them. */
  method FindAnother(accounts: map<string, string>, mine: string, theirs: string, userId: int) returns (another: bool)
    requires mine in accounts && theirs in accounts
    ensures another == AnotherLinked(accounts, mine, theirs, userId)
  {
    hide OfPlatform;
    var left := accounts.Keys;
    while left != {}
      invariant left <= accounts.Keys
      invariant forall a | a in accounts && a !in left ::
                  && !(accounts[a] == accounts[mine] && a != mine && OfPlatform(a, Theirs(userId)))
                  && !(accounts[a] == accounts[theirs] && a != theirs && OfPlatform(a, Mine(userId)))
      decreases |left|
    {
      var a :| a in left;
      left := left - {a};
      if (accounts[a] == accounts[mine] && a != mine && OfPlatform(a, Theirs(userId)))
         || (accounts[a] == accounts[theirs] && a != theirs && OfPlatform(a, Mine(userId))) {
        return true;
      }
    }
    return false;
  }

  /** An emoji that can be taken is there, and so is room for it. */
  lemma TakeHas(s: State, player: string, emoji: string, swap: string)
    requires TakeAnswer(s, player, emoji, swap) == GearStatus.Taken
    ensures HouseLike(s, player, emoji, 0).Some? && RoomOnHim(s, player, swap).Some?
  {
    hide WhereIs; hide HouseLike; hide RoomOnHim; hide FirstLike; hide NamesChild;
  }

  /** What lose_bolts does to the hold. */
  method PutAside(hold: Holder, left: nat, now: int) returns (after: Result<Holder>)
    ensures after == LosingBolts(hold, left, now)
  {
    hide Earned;
    if hold.bolts <= 0 || left >= hold.bolts {
      return Done(hold);
    }
    var earned := Earned(hold, now);
    if earned.Abandoned? {
      return Abandoned;
    }
    var share := (hold.percent - 100) / hold.bolts;
    var percent := if left > 0 then 100 + left * share else 0;
    return Done(hold.(banked := hold.banked + earned.value, countedFrom := Max(now, hold.since), bolts := left, percent := percent));
  }

  /** Whoever's time is not over yet. */
  method KeepUntil(until: map<string, int>, now: int) returns (kept: map<string, int>)
    ensures kept == StillUntil(until, now)
  {
    kept := until;
    var keys := until.Keys;
    while keys != {}
      invariant keys <= until.Keys
      invariant kept == map player | player in until && (player in keys || until[player] > now) :: until[player]
      decreases |keys|
    {
      var player :| player in keys;
      keys := keys - {player};
      if until[player] <= now {
        kept := kept - {player};
      }
    }
  }

  method FindEggs(house: Place, perHen: int) returns (laid: map<string, int>)
    ensures laid == Eggs(house, perHen)
  {
    hide CountPower;
    laid := map[];
    var keys := house.Keys;
    while keys != {}
      invariant keys <= house.Keys
      invariant laid == map player | player in house && player !in keys && CountPower(house[player], Hen) > 0 ::
                          CountPower(house[player], Hen) * perHen
      decreases |keys|
    {
      var player :| player in keys;
      var hens := CountSlots(house[player], Hen);
      keys := keys - {player};
      if hens > 0 {
        laid := laid[player := hens * perHen];
      }
    }
  }

  method AddEggs(scores: map<string, int>, laid: map<string, int>) returns (paid: map<string, int>, sum: int)
    ensures paid == Added(scores, laid) && sum == Total(laid, ITSELF)
  {
    hide Total; hide Added;
    paid, sum := scores, 0;
    var rest := laid;
    assert Total(laid, ITSELF) == 0 + Total(rest, ITSELF);
    while rest != map[]
      invariant Added(paid, rest) == Added(scores, laid)
      invariant sum + Total(rest, ITSELF) == Total(laid, ITSELF)
      decreases |rest|
    {
      var player :| player in rest;
      AddedOne(paid, rest, player);
      TotalRemoved(rest, player, ITSELF);
      paid := paid[player := Counter(paid, player) + rest[player]];
      sum := sum + rest[player];
      rest := rest - {player};
    }
    NothingAdded(paid);
  }

  lemma StartedOverWhole(s: State, player: string, walked: nat, now: int)
    ensures var lost := Losing(s.raids, player, walked, now);
            var wiped := Wiped(player, Counter(s.scores, player) + LostPalle(lost),
                               HouseSlots(s, player) + GearSlots(s, player) + [LostGift(lost)]);
            StartedOver(s, player, walked, now) == s.(
              scores := NoPalle(s.scores, player), current := if HoldsPlace(s, player) then None else s.current,
              raids := Emptied(s.raids, player, now), house := Hung(s.house, player, []), gear := s.gear[player := [BALLOON]],
              pregnancies := NotExpecting(s.pregnancies, player), children := Elsewhere(s.children, player),
              balloons := s.balloons - {player}, cooldowns := s.cooldowns - {player}, smeared := s.smeared - {player},
              told := s.told + [wiped] + [Came(BALLOON)])
  {
    hide Losing; hide LostPalle; hide LostGift; hide HoldsPlace; hide Emptied; hide Elsewhere; hide NotExpecting; hide Hung;
    hide SlotsIn; hide NoPalle;
  }

  // ---------------------------------------------------------------- quotes

  /** Where a quote is kept. */
  method FindKept(kept: seq<string>, quote: string) returns (at: Option<nat>)
    ensures at == FindQuote(kept, quote)
  {
    for k := 0 to |kept|
      invariant quote !in kept[..k]
    {
      if kept[k] == quote {
        FirstKept(kept, quote, k);
        return Some(k);
      }
    }
    assert kept[..|kept|] == kept;
    at := None;
  }

  lemma {:induction false} FirstKept(kept: seq<string>, quote: string, k: nat)
    requires k < |kept| && kept[k] == quote && quote !in kept[..k]
    ensures FindQuote(kept, quote) == Some(k)
  {
    if k > 0 {
      assert kept[..k] == [kept[0]] + kept[1..][..k - 1];
      FirstKept(kept[1..], quote, k - 1);
    }
  }

  /** Which quote is meant. */
  method SelectKept(kept: seq<string>, selector: string) returns (at: Option<nat>)
    ensures at == Selected(kept, selector)
  {
    hide ParseInt64;
    var position := ParseInt64(selector);
    if position.Some? && 0 < position.value <= |kept| {
      at := Some(position.value - 1);
    } else {
      at := FindKept(kept, selector);
    }
  }

  /** A quote is erased, and counts for nobody any more. */
  method EraseQuote(quotes: Quotes, at: nat) returns (left: Quotes)
    requires at < |quotes.kept|
    ensures left == WithoutQuote(quotes, at)
  {
    var removed := quotes.kept[at];
    left := quotes.(kept := quotes.kept[..at] + quotes.kept[at + 1..]);
    if removed in left.authors {
      var author := left.authors[removed];
      if Counter(left.added, author) > 0 {
        left := left.(added := left.added[author := Counter(left.added, author) - 1]);
      }
    }
    left := left.(authors := left.authors - {removed});
  }

  // ---------------------------------------------------------------- draws

  /** The loop of player_id: drawing until it is nobody's. */
  method DrawFree(ids: map<string, int>, luck: seq<nat>) returns (draw: Option<nat>)
    ensures draw == FreeDraw(ids, luck)
  {
    ghost var all := FreeDraw(ids, luck);
    var k := 0;
    while k < |luck|
      invariant k <= |luck|
      invariant all == match FreeDraw(ids, luck[k..]) case None => None case Some(j) => Some(k + j)
    {
      if luck[k] % Position.IDS !in ids.Values {
        return Some(k);
      }
      assert luck[k..][1..] == luck[k + 1..];
      k := k + 1;
    }
    draw := None;
  }
}

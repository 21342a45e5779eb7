/** src/storage.hpp and src/game.cpp: the state every transaction works on, and what can be read off it. */
module World {
  import opened Basics
  import opened Text
  import opened Powers
  import opened Ledger
  import opened Places

  const CARRIED_LIMIT: nat := 5
  const MOST := 0x7FFF_FFFF_FFFF_FFFF

  /** Who is in @TheConquister37. lobsters: by slot, what his lobsters came in as. */
  datatype Holder = Holder(userId: int, username: string, since: int, percent: int, bolts: int,
                           banked: int, countedFrom: int, lobsters: map<nat, string>)

  datatype Raid = Raid(raider: string, target: string, arrive: int, back: int, arrived: bool,
                       loot: int, gift: int, giftEmoji: string, intact: bool)

  datatype Pregnancy = Pregnancy(mother: string, father: string, due: int)

  datatype Child = Child(owner: string, slot: nat, male: bool, born: int, courted: bool)

  datatype Knock = Knock(raider: string, target: string, at: int)

  /** What a transaction has to tell: everything that comes into the game or leaves it, and the rides that end. */
  datatype Event =
    | Paid(player: string, palle: int)
    | Laid(palle: int)
    | Spent(player: string, palle: int)
    | Rewarded(palle: int)
    | Wiped(player: string, palle: int, slots: seq<string>)
    | Over(scores: map<string, int>, house: Place, gear: Place, raids: seq<Raid>, players: set<string>)
    | Came(emoji: string)
    | Went(emoji: string)
    | Returned(ride: nat, palle: int, emoji: string)

  /** Who is behind which account, and how they are called. */
  datatype Names = Names(
    telegramIds: map<string, int>,
    ircNames: map<string, int>,
    accounts: map<string, string>,
    displayNames: map<string, string>,
    telegramNames: map<string, string>,
    ircNicks: map<string, string>,
    linkRequests: map<string, string>
  )

  datatype Invites = Invites(invitedBy: map<string, string>, days: map<string, int>, lastDay: map<string, int>,
                             paid: map<string, int>)

  datatype Quotes = Quotes(kept: seq<string>, added: map<string, int>, authors: map<string, string>)

  datatype State = State(
    current: Option<Holder>,
    scores: map<string, int>,
    balloons: map<string, int>,
    cooldowns: map<string, int>,
    ids: map<string, int>,
    raids: seq<Raid>,
    house: Place,
    gear: Place,
    smeared: map<string, int>,
    frozen: map<string, int>,
    pregnancies: seq<Pregnancy>,
    children: seq<Child>,
    eggsAt: int,
    knocks: seq<Knock>,
    welcomed: map<string, int>,
    joined: map<string, int>,
    entered: map<string, int>,
    names: Names,
    invites: Invites,
    quotes: Quotes,
    // The draws random_index is going to make, and what has been told so far.
    luck: seq<nat>,
    told: seq<Event>
  )

  /** A game nobody has played yet. */
  function Unplayed(luck: seq<nat>): State {
    State(None, map[], map[], map[], map[], [], map[], map[], map[], map[], [], [], 0, [], map[], map[], map[],
          Names(map[], map[], map[], map[], map[], map[], map[]), Invites(map[], map[], map[], map[]), Quotes([], map[], map[]), luck, [])
  }

  // ---------------------------------------------------------------- draws

  /** random_index: any index under count. Once the draws written down are over, the first one. */
  function Roll(s: State, count: nat): (index: nat)
    requires count > 0
    ensures index < count
  {
    if s.luck == [] then 0 else s.luck[0] % count
  }

  function Rolled(s: State): (t: State)
    ensures t == s.(luck := t.luck)
  {
    if s.luck == [] then s else s.(luck := s.luck[1..])
  }

  /** A chance in percent, drawn for only when there is one. */
  predicate Lucky(s: State, chance: int) {
    chance > 0 && Roll(s, 100) < chance
  }

  function Tried(s: State, chance: int): (t: State)
    ensures t == s.(luck := t.luck)
  {
    if chance > 0 then Rolled(s) else s
  }

  /** What that many copies come to, each adding its percent, a hundred at most. */
  function Share(copies: int, percent: int): int {
    Min(100, copies * Max(percent, 0))
  }

  // ---------------------------------------------------------------- where everybody is

  datatype Whereabouts = AtHome | AtPlace | OnRoad

  predicate IsRiding(raids: seq<Raid>, player: string) {
    exists j :: 0 <= j < |raids| && raids[j].raider == player
  }

  /** raid_of: the first ride of his. */
  function RideOf(raids: seq<Raid>, player: string): (ride: Option<nat>)
    ensures ride.Some? ==> ride.value < |raids| && raids[ride.value].raider == player
    ensures ride.None? <==> !IsRiding(raids, player)
    ensures ride.Some? ==> forall j | 0 <= j < ride.value :: raids[j].raider != player
  {
    if raids == [] then None
    else if raids[0].raider == player then Some(0)
    else match RideOf(raids[1..], player)
      case None => assert forall j | 1 <= j < |raids| :: raids[j] == raids[1..][j - 1]; None
      case Some(j) => assert raids[j + 1] == raids[1..][j];
                      assert forall i | 1 <= i < j + 1 :: raids[i] == raids[1..][i - 1];
                      Some(j + 1)
  }

  predicate HoldsPlace(s: State, player: string) {
    s.current.Some? && SameName(s.current.value.username, player)
  }

  function WhereIs(s: State, player: string): Whereabouts {
    if HoldsPlace(s, player) then AtPlace
    else if RideOf(s.raids, player).Some? then OnRoad
    else AtHome
  }

  function FrozenFor(s: State, player: string, now: int): int {
    Max(Counter(s.frozen, player) - now, 0)
  }

  // ---------------------------------------------------------------- what they have

  function HouseSlots(s: State, player: string): seq<string> {
    SlotsIn(s.house, player)
  }

  function GearSlots(s: State, player: string): seq<string> {
    SlotsIn(s.gear, player)
  }

  predicate IsLobster(emoji: string) {
    IsPower(emoji, Lobster)
  }

  /** shown_gear: what he has on him as the group sees it, the holder's lobsters as what they came in as. */
  function ShownGear(current: Option<Holder>, gear: Place, player: string): (shown: seq<string>)
    ensures |shown| == |SlotsIn(gear, player)|
  {
    var slots := SlotsIn(gear, player);
    if current.None? || current.value.username != player then slots else
    var lobsters := current.value.lobsters;
    seq(|slots|, slot requires 0 <= slot < |slots| =>
      if slot in lobsters && slots[slot] != "" && IsLobster(slots[slot]) then lobsters[slot] else slots[slot])
  }

  function Shown(s: State, player: string): seq<string> {
    ShownGear(s.current, s.gear, player)
  }

  function CarriedCopies(s: State, player: string, power: Power): nat {
    CountPower(Shown(s, player), power)
  }

  function HouseCopies(s: State, player: string, power: Power): nat {
    CountPower(HouseSlots(s, player), power)
  }

  predicate HasBalloon(s: State, player: string) {
    CountPower(HouseSlots(s, player), Balloon) > 0 || CountPower(GearSlots(s, player), Balloon) > 0
  }

  /** balloon_there: whether a balloon of his guards the place he is at, or his house. */
  predicate BalloonThere(s: State, player: string, site: Whereabouts, now: int) {
    && FrozenFor(s, player, now) <= 0
    && ((site == AtHome && HouseCopies(s, player, Balloon) > 0) ||
        (WhereIs(s, player) == site && CarriedCopies(s, player, Balloon) > 0))
  }

  /** is_child. */
  predicate IsChild(children: seq<Child>, player: string, slot: nat) {
    exists j :: 0 <= j < |children| && children[j].owner == player && children[j].slot == slot
  }

  // ---------------------------------------------------------------- the two ledgers

  /** A ride whose raider is home again, to be taken off the list. */
  predicate Due(raid: Raid, now: int) {
    raid.arrived && now >= raid.back
  }

  /** What all the rides are worth together, but for the ones before walked that are due: those were settled. */
  ghost function OnTheRoad(raids: seq<Raid>, walked: int, now: int, worth: Raid -> int): int {
    if raids == [] then 0 else
    var last := |raids| - 1;
    OnTheRoad(raids[..last], walked, now, worth)
      + (if last < walked && Due(raids[last], now) then 0 else worth(raids[last]))
  }

  const LOAD: Raid -> int := (raid: Raid) => raid.loot + raid.gift

  function GiftCopies(face: string): Raid -> int {
    (raid: Raid) => Copy(raid.giftEmoji, face)
  }

  /** Every palla there is: on the players and on the road. */
  ghost function Palle(scores: map<string, int>, raids: seq<Raid>, walked: int, now: int): int {
    Total(scores, ITSELF) + OnTheRoad(raids, walked, now, LOAD)
  }

  /** Every copy of an emoji there is: in the houses, on the players and carried as a present. It is what the price of
      the next one is made of. */
  ghost function Stock(house: Place, gear: Place, raids: seq<Raid>, walked: int, now: int, face: string): int {
    Total(house, CopiesOf(face)) + Total(gear, CopiesOf(face)) + OnTheRoad(raids, walked, now, GiftCopies(face))
  }

  ghost function PalleTold(event: Event): int {
    match event
    case Paid(_, palle) => palle
    case Laid(palle) => palle
    case Rewarded(palle) => palle
    case Spent(_, palle) => -palle
    case Wiped(_, palle, _) => -palle
    case Over(scores, _, _, raids, _) => -Palle(scores, raids, 0, 0)
    case _ => 0
  }

  ghost function EmojiTold(event: Event, face: string): int {
    match event
    case Came(emoji) => Copy(emoji, face)
    case Went(emoji) => -Copy(emoji, face)
    case Wiped(_, _, emoji) => -Copies(emoji, face)
    case Over(_, house, gear, raids, players) => |players| * Copy(BALLOON, face) - Stock(house, gear, raids, 0, 0, face)
    case _ => 0
  }

  ghost function PalleMade(told: seq<Event>): int {
    if told == [] then 0 else PalleMade(told[..|told| - 1]) + PalleTold(told[|told| - 1])
  }

  ghost function EmojiMade(told: seq<Event>, face: string): int {
    if told == [] then 0 else EmojiMade(told[..|told| - 1], face) + EmojiTold(told[|told| - 1], face)
  }

  /** The palle there are, but for the ones that were told to come in or to leave. */
  ghost function Books(s: State, walked: int, now: int): int {
    Palle(s.scores, s.raids, walked, now) - PalleMade(s.told)
  }

  ghost function EmojiBooks(s: State, walked: int, now: int, face: string): int {
    Stock(s.house, s.gear, s.raids, walked, now, face) - EmojiMade(s.told, face)
  }

  /** Everything that changed between the two states has been told, and nothing else has. */
  ghost predicate Accounted(s: State, t: State, walked: int, now: int, face: string) {
    && Books(t, walked, now) == Books(s, walked, now)
    && EmojiBooks(t, walked, now, face) == EmojiBooks(s, walked, now, face)
  }

  function Tell(s: State, event: Event): (t: State)
    ensures t == s.(told := t.told)
  {
    s.(told := s.told + [event])
  }

  lemma ToldOne(told: seq<Event>, event: Event, face: string)
    ensures PalleMade(told + [event]) == PalleMade(told) + PalleTold(event)
    ensures EmojiMade(told + [event], face) == EmojiMade(told, face) + EmojiTold(event, face)
  {
    assert (told + [event])[..|told|] == told;
  }

  function Weighed(raids: seq<Raid>, j: nat, walked: int, now: int, worth: Raid -> int): int
    requires j < |raids|
  {
    if j < walked && Due(raids[j], now) then 0 else worth(raids[j])
  }

  lemma {:induction false} RoadSet(raids: seq<Raid>, j: nat, raid: Raid, walked: int, now: int, worth: Raid -> int)
    requires j < |raids|
    ensures OnTheRoad(raids[j := raid], walked, now, worth) == OnTheRoad(raids, walked, now, worth)
              - Weighed(raids, j, walked, now, worth) + Weighed(raids[j := raid], j, walked, now, worth)
  {
    var last := |raids| - 1;
    var set' := raids[j := raid];
    if j == last {
      assert set'[..last] == raids[..last];
    } else {
      assert set'[..last] == raids[..last][j := raid];
      RoadSet(raids[..last], j, raid, walked, now, worth);
    }
  }

  /** Once the walk has passed the last ride it settled, only what is due weighs less. */
  lemma {:induction false} RoadWalked(raids: seq<Raid>, j: nat, walked: int, now: int, worth: Raid -> int)
    requires j < |raids| && walked == j
    ensures OnTheRoad(raids, walked + 1, now, worth) == OnTheRoad(raids, walked, now, worth)
              - (if Due(raids[j], now) then worth(raids[j]) else 0)
  {
    var last := |raids| - 1;
    if j == last {
      RoadAlike(raids[..last], walked, walked + 1, now, worth);
    } else {
      RoadWalked(raids[..last], j, walked, now, worth);
    }
  }

  lemma {:induction false} RoadAlike(raids: seq<Raid>, walked: int, walked': int, now: int, worth: Raid -> int)
    requires forall j | 0 <= j < |raids| :: Due(raids[j], now) ==> (j < walked <==> j < walked')
    ensures OnTheRoad(raids, walked, now, worth) == OnTheRoad(raids, walked', now, worth)
  {
    if raids != [] {
      RoadAlike(raids[..|raids| - 1], walked, walked', now, worth);
    }
  }

  /** Before anything is walked, it does not matter what is due. */
  lemma {:induction false} RoadUnwalked(raids: seq<Raid>, walked: int, walked': int, now: int, now': int, worth: Raid -> int)
    requires walked <= 0 && walked' <= 0
    ensures OnTheRoad(raids, walked, now, worth) == OnTheRoad(raids, walked', now', worth)
  {
    if raids != [] {
      RoadUnwalked(raids[..|raids| - 1], walked, walked', now, now', worth);
    }
  }

  lemma RoadAdded(raids: seq<Raid>, raid: Raid, now: int, worth: Raid -> int)
    ensures OnTheRoad(raids + [raid], 0, now, worth) == OnTheRoad(raids, 0, now, worth) + worth(raid)
  {
    assert (raids + [raid])[..|raids|] == raids;
  }

  /** The rides still under way. */
  function UnderWay(raids: seq<Raid>, now: int): (kept: seq<Raid>)
    ensures forall j | 0 <= j < |kept| :: kept[j] in raids && !Due(kept[j], now)
  {
    if raids == [] then [] else
    var last, before := raids[|raids| - 1], UnderWay(raids[..|raids| - 1], now);
    if Due(last, now) then before else before + [last]
  }

  lemma {:induction false} RoadErased(raids: seq<Raid>, walked: int, now: int, worth: Raid -> int)
    requires walked >= |raids|
    ensures OnTheRoad(UnderWay(raids, now), 0, now, worth) == OnTheRoad(raids, walked, now, worth)
  {
    if raids != [] {
      var before := raids[..|raids| - 1];
      RoadErased(before, walked, now, worth);
      if !Due(raids[|raids| - 1], now) {
        RoadAdded(UnderWay(before, now), raids[|raids| - 1], now, worth);
      }
    }
  }
}

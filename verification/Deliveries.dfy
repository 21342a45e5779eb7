/** src/game.cpp, raid_due and land: what becomes of what a ride brings, and of what a thrown emoji does where it lands. */
module Deliveries {
  import opened Basics
  import opened Powers
  import opened Ledger
  import opened Places
  import opened World
  import opened Rides
  import opened Facts
  import opened Blasts

  // ---------------------------------------------------------------- what lands

  /** Nothing of his is left but a fresh balloon on him: his palle, his emoji, what his ride carries and his children are gone,
      his ride is over now, and he is out of the place. */
  ghost predicate IsReset(s: State, t: State, player: string, walked: nat, now: int) {
    && t == s.(scores := t.scores, current := t.current, raids := t.raids, house := t.house, gear := t.gear,
               pregnancies := t.pregnancies, children := t.children, balloons := t.balloons, cooldowns := t.cooldowns,
               smeared := t.smeared, told := t.told)
    && (forall q :: Counter(t.scores, q) == if q == player then 0 else Counter(s.scores, q))
    && t.current == (if IsIn(s, player) then None else s.current)
    && |t.raids| == |s.raids|
    && (forall j | 0 <= j < |s.raids| :: t.raids[j] ==
          if s.raids[j].raider == player then s.raids[j].(arrived := true, back := now, loot := 0, gift := 0, giftEmoji := "")
          else s.raids[j])
    && t.house == s.house - {player} && t.gear == s.gear[player := [BALLOON]]
    && (forall child :: child in t.children <==> child in s.children && child.owner != player)
    && (forall p :: p in t.pregnancies <==> p in s.pregnancies && p.mother != player)
    && t.balloons == s.balloons - {player} && t.cooldowns == s.cooldowns - {player} && t.smeared == s.smeared - {player}
    && |t.told| == |s.told| + 2 && t.told[..|s.told|] == s.told
    && t.told[|s.told|].Wiped? && t.told[|s.told|].player == player && t.told[|s.told| + 1] == Came(BALLOON)
  }

  /** How long an ice freezes him: each fire he shows melts its share of it. */
  ghost function FreezesFor(s: State, victim: string, rules: Rules): int {
    (if rules.frozenSeconds > 0 then rules.frozenSeconds else 0)
      * (100 - Percent(ShownOf(s.current, s.gear, victim, Fire), rules.firePercent)) / 100
  }

  /** What each of the thrown emoji does. */
  ghost predicate Lands(s: State, t: State, thrown: string, thrower: string, victim: string, site: Whereabouts, walked: nat,
                        now: int, rules: Rules) {
    match PowerOf(thrown)
    case Some(Poo) =>
      t == s.(smeared := if rules.smearedSeconds > 0 then s.smeared[victim := now + rules.smearedSeconds] else s.smeared)
    case Some(Bomb) =>
      var dud := rules.bombDudPercent > 0 && Draw(s, 0, 100) < rules.bombDudPercent;
      IsBlast(s.(luck := LuckAfter(s, if rules.bombDudPercent > 0 then 1 else 0)), t, if dud then thrower else victim,
              dud || site == AtPlace)
    case Some(Nuke) => IsReset(s, t, victim, walked, now)
    case Some(Seed) =>
      t == s.(pregnancies := s.pregnancies
                + [Pregnancy(victim, thrower, now + if rules.pregnancySeconds > 0 then rules.pregnancySeconds else 0)])
    case Some(Ice) =>
      t == s.(frozen := if FreezesFor(s, victim, rules) > 0 then s.frozen[victim := now + FreezesFor(s, victim, rules)] else s.frozen)
    case _ => t == s
  }

  lemma {:induction false} ElsewhereIs(children: seq<Child>, player: string)
    ensures forall child :: child in Elsewhere(children, player) <==> child in children && child.owner != player
  {
  }

  lemma {:induction false} NotExpectingIs(pregnancies: seq<Pregnancy>, player: string)
    ensures forall p :: p in NotExpecting(pregnancies, player) <==> p in pregnancies && p.mother != player
  {
    if pregnancies != [] {
      NotExpectingIs(pregnancies[..|pregnancies| - 1], player);
    }
  }

  lemma ResetIs(s: State, player: string, walked: nat, now: int)
    ensures IsReset(s, StartedOver(s, player, walked, now), player, walked, now)
  {
    hide Losing; hide LostPalle; hide LostGift; hide NotExpecting; hide IsIn; hide HoldsPlace;
    ElsewhereIs(s.children, player);
    NotExpectingIs(s.pregnancies, player);
    WhereItIs(s, player);
  }

  lemma FreezeIs(s: State, victim: string, rules: Rules)
    ensures FreezeTime(s, victim, rules) == FreezesFor(s, victim, rules)
  {
    hide CarriedCopies; hide ShownOf; hide Share; hide Percent;
    CarriedCounted(s, victim, Fire);
    PercentIs(CarriedCopies(s, victim, Fire), rules.firePercent);
  }

  lemma LuckyDrawn(s: State, percent: int)
    ensures Lucky(s, percent) <==> percent > 0 && Draw(s, 0, 100) < percent
    ensures Tried(s, percent) == s.(luck := LuckAfter(s, if percent > 0 then 1 else 0))
  {
  }

  lemma BombIs(s: State, thrower: string, victim: string, site: Whereabouts, rules: Rules)
    ensures var dud := rules.bombDudPercent > 0 && Draw(s, 0, 100) < rules.bombDudPercent;
            IsBlast(s.(luck := LuckAfter(s, if rules.bombDudPercent > 0 then 1 else 0)), Bombed(s, thrower, victim, site, rules),
                    if dud then thrower else victim, dud || site == AtPlace)
  {
    hide BlownUp; hide IsBlast; hide Lucky; hide Tried; hide Draw; hide LuckAfter;
    LuckyDrawn(s, rules.bombDudPercent);
    BlastIs(Rolled(s), thrower, true);
    BlastIs(Tried(s, rules.bombDudPercent), victim, site == AtPlace);
    assert Lucky(s, rules.bombDudPercent) ==> Tried(s, rules.bombDudPercent) == Rolled(s) by { TriedRolls(s, rules.bombDudPercent); }
  }

  lemma TriedRolls(s: State, percent: int)
    ensures Lucky(s, percent) ==> Tried(s, percent) == Rolled(s)
  {
  }

  lemma LandedIs(s: State, thrown: string, thrower: string, victim: string, site: Whereabouts, walked: nat, now: int, rules: Rules)
    ensures Lands(s, Landed(s, thrown, thrower, victim, site, walked, now, rules), thrown, thrower, victim, site, walked, now, rules)
  {
    hide PowerOf; hide Bombed; hide StartedOver; hide IsReset; hide IsBlast; hide FreezeTime; hide FreezesFor; hide Draw; hide LuckAfter;
    BombIs(s, thrower, victim, site, rules);
    ResetIs(s, victim, walked, now);
    FreezeIs(s, victim, rules);
  }

  // ---------------------------------------------------------------- what is handed over

  /** Where an emoji works, if he is home to take it and has a slot free, else in the house, else nowhere. */
  ghost predicate Receives(s: State, t: State, player: string, emoji: string, limit: nat, taken: bool) {
    var onHim := PowerOf(emoji).Some? && KindOf(PowerOf(emoji).value) == Carried && !IsIn(s, player) && !IsOut(s, player)
                 && exists k: nat :: k < CARRIED_LIMIT && IsFirstFree(SlotsIn(s.gear, player), k);
    if onHim then
      taken && exists k: nat | IsFirstFree(SlotsIn(s.gear, player), k) :: t == s.(gear := Put(s.gear, player, k, emoji))
    else if exists k: nat :: k < limit && IsFirstFree(SlotsIn(s.house, player), k) then
      taken && exists k: nat | IsFirstFree(SlotsIn(s.house, player), k) :: t == s.(house := Put(s.house, player, k, emoji))
    else
      !taken && t == s
  }

  lemma ReceivedIs(s: State, player: string, emoji: string, limit: nat)
    ensures var t := Received(s, player, emoji, limit);
            Receives(s, if t.Some? then t.value else s, player, emoji, limit, t.Some?)
  {
    hide PowerOf; hide IsFirstFree; hide FreeSlot; hide Put; hide WhereIs; hide IsIn; hide IsOut;
    FreeFirst(SlotsIn(s.gear, player), CARRIED_LIMIT);
    FreeFirst(SlotsIn(s.house, player), limit);
    WhereItIs(s, player);
  }

  /** The palle are the target's. */
  ghost predicate HandsOver(s: State, t: State, ride: nat)
    requires ride < |s.raids|
  {
    var raid := s.raids[ride];
    && t == s.(scores := t.scores, raids := s.raids[ride := raid.(gift := if raid.gift > 0 then 0 else raid.gift)])
    && forall q :: Counter(t.scores, q) == Counter(s.scores, q) + if q == raid.target && raid.gift > 0 then raid.gift else 0
  }

  lemma HandedFields(s: State, ride: nat)
    requires ride < |s.raids|
    ensures var raid, t := s.raids[ride], Handed(s, ride);
            if raid.gift > 0 then
              && t == s.(scores := s.scores[raid.target := Counter(s.scores, raid.target) + raid.gift], raids := t.raids)
              && t.raids == s.raids[ride := raid.(gift := 0)]
            else t == s
  {
    hide Counter;
  }

  lemma HandedIs(s: State, ride: nat)
    requires ride < |s.raids|
    ensures HandsOver(s, Handed(s, ride), ride)
  {
    hide Handed;
    var raid := s.raids[ride];
    HandedFields(s, ride);
    assert raid.(gift := raid.gift) == raid && s.raids[ride := raid] == s.raids;
  }

  /** A thrown emoji lands on who lives there, or on the raider himself when a mailbox sends it back, and is gone. */
  ghost predicate Strikes(s: State, t: State, ride: nat, now: int, rules: Rules)
    requires ride < |s.raids|
  {
    var raid := s.raids[ride];
    var chance := Percent(KeptOf(s, raid.target, Mailbox), rules.mailboxPercent);
    var sentBack := chance > 0 && Draw(s, 0, 100) < chance;
    exists u: State |
      Lands(s.(luck := LuckAfter(s, if chance > 0 then 1 else 0)), u, raid.giftEmoji, raid.raider,
            if sentBack then raid.raider else raid.target, AtHome, ride, now, if sentBack then rules.(bombDudPercent := 0) else rules) ::
      && ride < |u.raids|
      && t == u.(raids := u.raids[ride := u.raids[ride].(giftEmoji := "")], told := u.told + [Went(u.raids[ride].giftEmoji)])
  }

  lemma StruckIs(s: State, ride: nat, now: int, rules: Rules)
    requires ride < |s.raids|
    ensures Strikes(s, Struck(s, ride, now, rules), ride, now, rules)
  {
    hide Landed; hide Lands; hide HouseCopies; hide KeptOf; hide Share; hide Percent; hide Lucky; hide Tried; hide Draw; hide LuckAfter;
    var raid := s.raids[ride];
    var chance := Share(HouseCopies(s, raid.target, Mailbox), rules.mailboxPercent);
    KeptCounted(s, raid.target, Mailbox);
    PercentIs(HouseCopies(s, raid.target, Mailbox), rules.mailboxPercent);
    LuckyDrawn(s, chance);
    var t := Tried(s, chance);
    var victim := if SentBack(s, raid, rules) then raid.raider else raid.target;
    var as' := if SentBack(s, raid, rules) then AsItIs(rules) else rules;
    LandedIs(t, raid.giftEmoji, raid.raider, victim, AtHome, ride, now, as');
    var u := Landed(t, raid.giftEmoji, raid.raider, victim, AtHome, ride, now, as');
    assert Lands(t, u, raid.giftEmoji, raid.raider, victim, AtHome, ride, now, as');
  }

  /** A thrown emoji strikes, unless it is a seed and nobody is at home; any other one is received, or stays on the ride. */
  ghost predicate BringsEmoji(s: State, t: State, ride: nat, now: int, rules: Rules)
    requires ride < |s.raids|
  {
    var raid := s.raids[ride];
    var thrown := PowerOf(raid.giftEmoji).Some? && KindOf(PowerOf(raid.giftEmoji).value) == Thrown && !raid.intact;
    if raid.giftEmoji == "" || (thrown && PowerOf(raid.giftEmoji) == Some(Seed) && (IsIn(s, raid.target) || IsOut(s, raid.target)))
    then t == s
    else if thrown then Strikes(s, t, ride, now, rules)
    else exists v: State, taken: bool | Receives(s, v, raid.target, raid.giftEmoji, rules.furnitureLimit, taken) ::
      t == if taken then v.(raids := s.raids[ride := raid.(giftEmoji := "")]) else v
  }

  /** What is brought: palle first, then the emoji. */
  ghost predicate Brings(s: State, t: State, ride: nat, now: int, rules: Rules)
    requires ride < |s.raids|
  {
    exists u: State :: HandsOver(s, u, ride) && ride < |u.raids| && BringsEmoji(u, t, ride, now, rules)
  }

  lemma EmojiIs(s: State, ride: nat, now: int, rules: Rules)
    requires ride < |s.raids|
    ensures BringsEmoji(Handed(s, ride), Delivered(s, ride, now, rules), ride, now, rules)
  {
    hide Handed; hide Struck; hide Strikes; hide Received; hide Receives; hide PowerOf; hide WhereIs; hide IsIn; hide IsOut;
    var u := Handed(s, ride);
    var raid := u.raids[ride];
    WhereItIs(u, raid.target);
    StruckIs(u, ride, now, rules);
    ReceivedIs(u, raid.target, raid.giftEmoji, rules.furnitureLimit);
    var taken := Received(u, raid.target, raid.giftEmoji, rules.furnitureLimit);
    assert Receives(u, if taken.Some? then taken.value else u, raid.target, raid.giftEmoji, rules.furnitureLimit, taken.Some?);
  }

  lemma DeliveredIs(s: State, ride: nat, now: int, rules: Rules)
    requires ride < |s.raids|
    ensures Brings(s, Delivered(s, ride, now, rules), ride, now, rules)
  {
    hide Handed; hide HandsOver; hide BringsEmoji; hide Delivered;
    HandedIs(s, ride);
    EmojiIs(s, ride, now, rules);
  }

  /** He gets there. */
  function GotThere(s: State, ride: nat): (t: State)
    requires ride < |s.raids|
    ensures |t.raids| == |s.raids|
  {
    s.(raids := s.raids[ride := s.raids[ride].(arrived := true)])
  }

  /** raid_due, for a ride that gets there now and brings something. */
  lemma GiftArrives(s: State, ride: nat, now: int, rules: Rules)
    requires ride < |s.raids| && !s.raids[ride].arrived && now >= s.raids[ride].arrive
    requires s.raids[ride].gift > 0 || s.raids[ride].giftEmoji != ""
    ensures Brings(GotThere(s, ride), Arrived(s, ride, now, rules), ride, now, rules)
  {
    hide Delivered; hide Brings; hide Salted; hide Bitten; hide Raided;
    DeliveredIs(SetRide(s, ride, s.raids[ride].(arrived := true)), ride, now, rules);
  }

  /** A ride that is not there yet, or has been there, changes nothing. */
  lemma NothingArrives(s: State, ride: nat, now: int, rules: Rules)
    requires ride < |s.raids| && (s.raids[ride].arrived || now < s.raids[ride].arrive)
    ensures Arrived(s, ride, now, rules) == s
  {
    hide Delivered; hide Salted; hide Bitten; hide Raided;
  }

  // ---------------------------------------------------------------- home again

  /** The loot and the palle nobody received are his, and so is the emoji nobody took: on him if he has a slot free, else in the
      first one of his house. */
  ghost predicate ComesHome(s: State, t: State, ride: nat)
    requires ride < |s.raids|
  {
    var raid := s.raids[ride];
    var palle := raid.loot + raid.gift;
    && t == s.(scores := t.scores, house := t.house, gear := t.gear, told := s.told + [Returned(ride, palle, raid.giftEmoji)])
    && (forall q :: Counter(t.scores, q) == Counter(s.scores, q) + if q == raid.raider && palle > 0 then palle else 0)
    && if raid.giftEmoji == "" then t.house == s.house && t.gear == s.gear
       else if exists k: nat :: k < CARRIED_LIMIT && IsFirstFree(SlotsIn(s.gear, raid.raider), k) then
         t.house == s.house
         && exists k: nat | IsFirstFree(SlotsIn(s.gear, raid.raider), k) :: t.gear == Put(s.gear, raid.raider, k, raid.giftEmoji)
       else
         t.gear == s.gear
         && exists k: nat | IsFirstFree(SlotsIn(s.house, raid.raider), k) :: t.house == Put(s.house, raid.raider, k, raid.giftEmoji)
  }

  lemma UnpackedIs(s: State, raid: Raid)
    ensures var t := Unpacked(s, raid);
            if raid.giftEmoji == "" then t == s
            else if exists k: nat :: k < CARRIED_LIMIT && IsFirstFree(SlotsIn(s.gear, raid.raider), k) then
              t.house == s.house
              && exists k: nat | IsFirstFree(SlotsIn(s.gear, raid.raider), k) :: t.gear == Put(s.gear, raid.raider, k, raid.giftEmoji)
            else
              t.gear == s.gear
              && exists k: nat | IsFirstFree(SlotsIn(s.house, raid.raider), k) :: t.house == Put(s.house, raid.raider, k, raid.giftEmoji)
  {
    hide Put; hide IsFirstFree; hide FreeSlot; hide FirstEmpty; hide TakenBack;
    FreeFirst(SlotsIn(s.gear, raid.raider), CARRIED_LIMIT);
    FirstIs(SlotsIn(s.house, raid.raider));
    TakenBackIs(s, raid.raider, raid.giftEmoji);
  }

  lemma TakenBackIs(s: State, player: string, emoji: string)
    ensures var t, free := TakenBack(s, player, emoji), FreeSlot(SlotsIn(s.gear, player), CARRIED_LIMIT);
            if free.Some? then t.house == s.house && t.gear == Put(s.gear, player, free.value, emoji)
            else t.gear == s.gear && t.house == Put(s.house, player, FirstEmpty(SlotsIn(s.house, player)), emoji)
  {
    hide Put; hide FreeSlot; hide FirstEmpty;
  }

  lemma RiderComesHome(s: State, ride: nat, now: int)
    requires ride < |s.raids|
    ensures if s.raids[ride].arrived && now >= s.raids[ride].back then ComesHome(s, CameHome(s, ride, now), ride)
            else CameHome(s, ride, now) == s
  {
    hide Put; hide IsFirstFree; hide Unpacked;
    UnpackedIs(s, s.raids[ride]);
  }

  lemma FirstIs(slots: seq<string>)
    ensures IsFirstFree(slots, FirstEmpty(slots))
  {
  }
}

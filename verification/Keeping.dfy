/** What the keeper's round keeps as a whole. */
module Keeping {
  import opened Powers
  import opened Ledger
  import opened Places
  import opened World
  import opened Laws
  import opened Rides
  import opened Settling
  import opened Family

  // ---------------------------------------------------------------- eggs

  /** What all the houses lay, if it is time. */
  ghost function EggsDue(s: State, now: int, rules: Rules): map<string, int> {
    if rules.henPerMinute > 0 && Minutes(s.eggsAt, now) > 0 then Eggs(s.house, rules.henPerMinute * Minutes(s.eggsAt, now))
    else map[]
  }

  lemma EggsLaid(s: State, now: int, rules: Rules, face: string)
    requires Standing(s)
    ensures var t := LaidEggs(s, now, rules);
            && Standing(t) && Accounted(s, t, 0, now, face)
            && (Holding(s.current, s.gear) ==> Holding(t.current, t.gear))
            && t.told == s.told + [Laid(Total(EggsDue(s, now, rules), ITSELF))]
  {
    hide Standing; hide Eggs; hide Added; hide Total; hide Accounted; hide Holding;
    var perHen := rules.henPerMinute * Minutes(s.eggsAt, now);
    if rules.henPerMinute > 0 && Minutes(s.eggsAt, now) > 0 {
      EggsPositive(s.house, perHen);
    }
    EggsAdded(s, EggsDue(s, now, rules), PaidUpTo(s.eggsAt, now, rules.henPerMinute), now, face);
  }

  lemma EggsPositive(house: Place, perHen: int)
    requires perHen >= 0
    ensures Solvent(Eggs(house, perHen))
  {
    forall player | player in Eggs(house, perHen)
      ensures Eggs(house, perHen)[player] >= 0
    {
      assert CountPower(house[player], Hen) * perHen >= 0;
    }
  }

  lemma EggsAdded(s: State, eggs: map<string, int>, eggsAt: int, now: int, face: string)
    requires Standing(s) && Solvent(eggs)
    ensures var t := s.(eggsAt := eggsAt, scores := Added(s.scores, eggs), told := s.told + [Laid(Total(eggs, ITSELF))]);
            Standing(t) && Accounted(s, t, 0, now, face)
  {
    hide RidesSound; hide OnePlace; hide Mapped; hide Housed; hide Raised; hide Holding; hide Total; hide OnTheRoad;
    hide PalleMade; hide EmojiMade;
    TotalAdded(s.scores, eggs);
    ToldOne(s.told, Laid(Total(eggs, ITSELF)), face);
  }

  /** The hens of one house, and the rounds of a keeper who comes whenever he likes. */
  function Hens(s: State, player: string): nat {
    CountPower(HouseSlots(s, player), Hen)
  }

  ghost predicate Onwards(from: int, times: seq<int>) {
    && (forall k | 0 <= k < |times| :: from <= times[k])
    && (forall j, k | 0 <= j <= k < |times| :: times[j] <= times[k])
  }

  function LastOf(from: int, times: seq<int>): int {
    if times == [] then from else times[|times| - 1]
  }

  ghost function LaidOver(s: State, times: seq<int>, rules: Rules): State {
    if times == [] then s else LaidEggs(LaidOver(s, times[..|times| - 1], rules), times[|times| - 1], rules)
  }

  lemma EggsOf(house: Place, perHen: int, player: string)
    ensures Counter(Eggs(house, perHen), player) == CountPower(SlotsIn(house, player), Hen) * perHen
  {
    hide IsPower;
  }

  lemma AddedTo(scores: map<string, int>, more: map<string, int>, player: string)
    ensures Counter(Added(scores, more), player) == Counter(scores, player) + Counter(more, player)
  {
  }

  lemma LaidOnce(s: State, now: int, rules: Rules, player: string)
    requires rules.henPerMinute > 0 && 0 < s.eggsAt <= now
    ensures var t := LaidEggs(s, now, rules);
            && t.house == s.house && t.eggsAt == s.eggsAt + (now - s.eggsAt) / 60 * 60
            && Counter(t.scores, player)
                 == Counter(s.scores, player) + Hens(s, player) * (rules.henPerMinute * ((now - s.eggsAt) / 60))
  {
    hide CountPower; hide Eggs; hide Added; hide Total;
    var minutes := Minutes(s.eggsAt, now);
    if minutes > 0 {
      EggsOf(s.house, rules.henPerMinute * minutes, player);
      AddedTo(s.scores, Eggs(s.house, rules.henPerMinute * minutes), player);
    } else {
      AddedTo(s.scores, map[], player);
      assert Counter(map[], player) == 0;
      assert rules.henPerMinute * minutes == 0;
    }
  }

  lemma Shares(hens: int, rate: int, some: int, more: int)
    ensures hens * (rate * some) + hens * (rate * more) == hens * (rate * (some + more))
  {
    assert rate * (some + more) == rate * some + rate * more;
  }

  /** However often the keeper comes, each house is paid for the whole minutes since he first came, and never for more. */
  lemma {:induction false} EggsAnyhow(s: State, times: seq<int>, rules: Rules, player: string)
    requires rules.henPerMinute > 0 && 0 < s.eggsAt && Onwards(s.eggsAt, times)
    ensures var t, last := LaidOver(s, times, rules), LastOf(s.eggsAt, times);
            && t.house == s.house && s.eggsAt <= t.eggsAt && 0 <= last - t.eggsAt < 60
            && t.eggsAt == s.eggsAt + (last - s.eggsAt) / 60 * 60
            && Counter(t.scores, player)
                 == Counter(s.scores, player) + Hens(s, player) * (rules.henPerMinute * ((last - s.eggsAt) / 60))
  {
    hide LaidEggs; hide CountPower;
    if times != [] {
      var before, now := times[..|times| - 1], times[|times| - 1];
      EggsAnyhow(s, before, rules, player);
      var t, last := LaidOver(s, before, rules), LastOf(s.eggsAt, before);
      LaidOnce(t, now, rules, player);
      var sofar, more := (last - s.eggsAt) / 60, (now - t.eggsAt) / 60;
      assert sofar + more == (now - s.eggsAt) / 60;
      Shares(Hens(s, player), rules.henPerMinute, sofar, more);
    }
  }

  // ---------------------------------------------------------------- children

  /** What a slot shows changes, and is told. */
  lemma SlotTold(s: State, player: string, slot: nat, emoji: string, children: seq<Child>, now: int, face: string)
    requires Standing(s) && Raised(Put(s.house, player, slot, emoji), children)
    ensures var here := At(s.house, player, slot);
            var t := s.(house := Put(s.house, player, slot, emoji), children := children,
                        told := s.told + [Went(here), Came(emoji)]);
            Step(s, t, true, 0, now, face)
  {
    hide RidesSound; hide OnePlace; hide Mapped; hide Raised; hide Holding; hide Total; hide OnTheRoad; hide Put; hide Solvent;
    hide PalleMade; hide EmojiMade;
    var here := At(s.house, player, slot);
    assert Tidy(Put(s.house, player, slot, emoji)) by { PutAt(s.house, player, slot, emoji); }
    CopiesPut(s.house, player, slot, emoji, face);
    ToldOne(s.told, Went(here), face);
    ToldOne(s.told + [Went(here)], Came(emoji), face);
    assert s.told + [Went(here), Came(emoji)] == (s.told + [Went(here)]) + [Came(emoji)];
  }

  lemma FewerChildren(house: Place, children: seq<Child>, k: nat)
    requires Raised(house, children) && k < |children|
    ensures Raised(house, Dropped(children, k))
  {
    hide IsChildFace;
  }

  /** A child whose slot shows another age is still the only one there. */
  lemma ChildAges(house: Place, children: seq<Child>, k: nat, looks: string)
    requires Raised(house, children) && k < |children| && IsChildFace(looks)
    ensures Raised(Put(house, children[k].owner, children[k].slot, looks), children)
  {
    hide IsChildFace;
    hide Put;
    PutAt(house, children[k].owner, children[k].slot, looks);
  }

  lemma ChildLeaves(house: Place, children: seq<Child>, k: nat, looks: string)
    requires Raised(house, children) && k < |children|
    ensures Raised(Put(house, children[k].owner, children[k].slot, looks), Dropped(children, k))
  {
    hide IsChildFace;
    hide Put;
    PutAt(house, children[k].owner, children[k].slot, looks);
  }

  lemma ChildLooks(child: Child, now: int, rules: Rules)
    requires ChildEmoji(child.male, Age(child, now, rules)) != ""
    ensures IsChildFace(ChildEmoji(child.male, Age(child, now, rules)))
  {
  }

  /** One child of the list, and the list after it. */
  function AfterChild(s: State, k: nat, now: int, rules: Rules): State
    requires k < |s.children|
  {
    var t := ChildAged(s, s.children[k], now, rules);
    if Stays(s, s.children[k], now, rules) then t else t.(children := Dropped(s.children, k))
  }

  lemma ChildSteps(s: State, k: nat, now: int, rules: Rules, face: string)
    requires Standing(s) && k < |s.children|
    ensures Step(s, AfterChild(s, k, now, rules), true, 0, now, face)
  {
    hide Step; hide Put; hide Raised; hide ChildEmoji; hide Age; hide IsChildFace; hide Dropped;
    hide RidesSound; hide OnePlace; hide Mapped; hide Housed; hide Solvent;
    var child := s.children[k];
    var here, looks := At(s.house, child.owner, child.slot), ChildEmoji(child.male, Age(child, now, rules));
    if here == looks || here == "" {
      FewerChildren(s.house, s.children, k);
      ChildrenStep(s, AfterChild(s, k, now, rules), now, face);
    } else if looks != "" {
      ChildLooks(child, now, rules);
      ChildAges(s.house, s.children, k, looks);
      SlotTold(s, child.owner, child.slot, looks, s.children, now, face);
    } else {
      ChildLeaves(s.house, s.children, k, looks);
      SlotTold(s, child.owner, child.slot, looks, Dropped(s.children, k), now, face);
    }
  }

  lemma ChildrenStep(s: State, t: State, now: int, face: string)
    requires Standing(s) && Raised(t.house, t.children)
    requires t == s.(children := t.children, pregnancies := t.pregnancies, luck := t.luck)
    ensures Step(s, t, true, 0, now, face)
  {
    hide Solvent; hide RidesSound; hide OnePlace; hide Mapped; hide Housed; hide Raised; hide Holding;
  }

  lemma {:induction false} GrownSteps(s: State, k: nat, now: int, rules: Rules, face: string)
    requires Standing(s) && k <= |s.children|
    ensures Step(s, GrownFrom(s, k, now, rules), true, 0, now, face)
    ensures GrownFrom(s, k, now, rules).raids == s.raids
    decreases |s.children| - k
  {
    hide Step; hide Standing; hide ChildAged; hide Stays;
    if k == |s.children| {
      QuietStep(s, s, 0, now, face);
    } else {
      var t := AfterChild(s, k, now, rules);
      ChildSteps(s, k, now, rules, face);
      StandsAfter(s, t, true, 0, now, face);
      var next := if Stays(s, s.children[k], now, rules) then k + 1 else k;
      GrownSteps(t, next, now, rules, face);
      StepOn(s, t, GrownFrom(t, next, now, rules), true, 0, now, face);
    }
  }

  lemma CourtedRaised(house: Place, children: seq<Child>, k: nat)
    requires Raised(house, children) && k < |children|
    ensures Raised(house, children[k := children[k].(courted := true)])
  {
    hide IsChildFace;
  }

  lemma {:induction false} CourtedSteps(s: State, k: nat, now: int, rules: Rules, face: string)
    requires Standing(s) && k <= |s.children|
    ensures Step(s, CourtedFrom(s, k, now, rules), true, 0, now, face)
    ensures CourtedFrom(s, k, now, rules).raids == s.raids
    decreases |s.children| - k
  {
    hide Step; hide Courted; hide Courts; hide Raised; hide Solvent; hide RidesSound; hide OnePlace; hide Mapped; hide Housed;
    if k == |s.children| {
      QuietStep(s, s, 0, now, face);
    } else if !Courts(s.children, s.children[k], now, rules) {
      CourtedSteps(s, k + 1, now, rules, face);
    } else {
      var t := Courted(s, k, now, rules);
      CourtedRaised(s.house, s.children, k);
      ChildrenStep(s, t, now, face);
      StandsAfter(s, t, true, 0, now, face);
      CourtedSteps(t, k + 1, now, rules, face);
      StepOn(s, t, CourtedFrom(t, k + 1, now, rules), true, 0, now, face);
    }
  }

  lemma NewbornRaised(house: Place, children: seq<Child>, mother: string, slot: nat, male: bool, now: int)
    requires Raised(house, children) && !IsChild(children, mother, slot)
    ensures Raised(Put(house, mother, slot, ChildEmoji(male, 0)), children + [Child(mother, slot, male, now, false)])
  {
    hide Put;
    PutAt(house, mother, slot, ChildEmoji(male, 0));
  }

  lemma BornInSteps(s: State, mother: string, slot: nat, male: bool, now: int, face: string)
    requires Standing(s) && !IsChild(s.children, mother, slot)
    ensures Step(s, BornIn(s, mother, slot, male, now), true, 0, now, face)
  {
    hide Step; hide Put; hide Raised; hide ChildEmoji; hide RidesSound; hide OnePlace; hide Mapped; hide Housed; hide Solvent;
    NewbornRaised(s.house, s.children, mother, slot, male, now);
    SlotTold(s, mother, slot, ChildEmoji(male, 0), s.children + [Child(mother, slot, male, now, false)], now, face);
  }

  lemma FreeSlotNoChild(s: State, mother: string, limit: nat)
    requires Standing(s) && FreeSlot(HouseSlots(s, mother), limit).Some?
    ensures !IsChild(s.children, mother, FreeSlot(HouseSlots(s, mother), limit).value)
  {
    hide PowerOf; hide IsChildFace;
    NoChildThere(s.house, s.children, mother, FreeSlot(HouseSlots(s, mother), limit).value);
  }

  lemma BirthSteps(s: State, mother: string, now: int, rules: Rules, face: string)
    requires Standing(s)
    ensures Step(s, Birth(s, mother, now, rules), true, 0, now, face)
  {
    hide Step; hide Standing; hide BornIn; hide FreeSlot; hide Rolled; hide IsChild; hide IsUntouchable;
    var t, male := Rolled(s), Roll(s, 2) == 0;
    QuietStep(s, t, 0, now, face);
    StandsAfter(s, t, true, 0, now, face);
    var free := FreeSlot(HouseSlots(t, mother), rules.furnitureLimit);
    var others := Replaceable(t, mother, |HouseSlots(t, mother)|);
    if free.Some? {
      FreeSlotNoChild(t, mother, rules.furnitureLimit);
      BornInSteps(t, mother, free.value, male, now, face);
      StepOn(s, t, BornIn(t, mother, free.value, male, now), true, 0, now, face);
    } else if others != [] {
      var u, slot := Rolled(t), others[Roll(t, |others|)];
      QuietStep(s, u, 0, now, face);
      StandsAfter(s, u, true, 0, now, face);
      assert CanReplace(t, mother, slot);
      BornInSteps(u, mother, slot, male, now, face);
      StepOn(s, u, BornIn(u, mother, slot, male, now), true, 0, now, face);
    }
  }

  lemma {:induction false} BirthsSteps(s: State, k: nat, now: int, rules: Rules, face: string)
    requires Standing(s) && k <= |s.pregnancies|
    ensures Step(s, BirthsFrom(s, k, now, rules), true, 0, now, face)
    ensures BirthsFrom(s, k, now, rules).raids == s.raids
    decreases |s.pregnancies| - k
  {
    hide Step; hide Standing; hide Birth;
    if k == |s.pregnancies| {
      QuietStep(s, s, 0, now, face);
    } else if s.pregnancies[k].due > now {
      BirthsSteps(s, k + 1, now, rules, face);
    } else {
      var t := Birth(s, s.pregnancies[k].mother, now, rules);
      BirthSteps(s, s.pregnancies[k].mother, now, rules, face);
      StandsAfter(s, t, true, 0, now, face);
      var u := t.(pregnancies := Dropped(s.pregnancies, k));
      QuietStep(t, u, 0, now, face);
      StepOn(s, t, u, true, 0, now, face);
      StandsAfter(s, u, true, 0, now, face);
      BirthsSteps(u, k, now, rules, face);
      StepOn(s, u, BirthsFrom(u, k, now, rules), true, 0, now, face);
    }
  }

  // ---------------------------------------------------------------- the round

  /** Clean again, and with the eggs of the day. */
  ghost function Fed(s: State, now: int, rules: Rules): State {
    LaidEggs(Washed(s, now), now, rules)
  }

  lemma FedTells(s: State, now: int, rules: Rules)
    ensures var t := Fed(s, now, rules);
            && t.raids == s.raids && t.house == s.house && t.children == s.children
            && t.told == s.told + [Laid(Total(EggsDue(s, now, rules), ITSELF))]
  {
    hide Eggs; hide Total; hide Added; hide StillUntil; hide PaidUpTo;
  }

  lemma FedWalks(s: State, now: int, rules: Rules, face: string)
    requires Sound(s)
    ensures Walked(s, Fed(s, now, rules), 0, 0, now, face)
  {
    hide Standing; hide Holding; hide Step; hide Washed; hide LaidEggs; hide Walked;
    var t := Washed(s, now);
    QuietStep(s, t, 0, now, face);
    StepWalks(s, t, 0, now, face);
    SoundAfter(s, t, 0, 0, now, face);
    EggsLaid(t, now, rules, face);
    assert Walked(t, Fed(s, now, rules), 0, 0, now, face) by { AccountedWalks(t, Fed(s, now, rules), now, face); }
    WalkedOn(s, t, Fed(s, now, rules), 0, 0, 0, now, face);
  }

  lemma AccountedWalks(s: State, t: State, now: int, face: string)
    requires Sound(t) && Accounted(s, t, 0, now, face) && |t.raids| == |s.raids|
    ensures Walked(s, t, 0, 0, now, face)
  {
    hide Sound; hide Books; hide EmojiBooks;
  }

  lemma BeforeTheWalkSteps(s: State, now: int, rules: Rules, face: string)
    requires Standing(Fed(s, now, rules))
    ensures Step(Fed(s, now, rules), BeforeTheWalk(s, now, rules), true, 0, now, face)
    ensures BeforeTheWalk(s, now, rules).raids == Fed(s, now, rules).raids
  {
    hide Step; hide Standing; hide Fed; hide GrownFrom; hide CourtedFrom; hide BirthsFrom;
    var b := Fed(s, now, rules);
    assert BeforeTheWalk(s, now, rules) == BirthsFrom(Grow(b, now, rules), 0, now, rules) by { FedFirst(s, now, rules); }
    var c := GrownFrom(b, 0, now, rules);
    GrownSteps(b, 0, now, rules, face);
    StandsAfter(b, c, true, 0, now, face);
    var d := CourtedFrom(c, 0, now, rules);
    CourtedSteps(c, 0, now, rules, face);
    StepOn(b, c, d, true, 0, now, face);
    StandsAfter(b, d, true, 0, now, face);
    BirthsSteps(d, 0, now, rules, face);
    StepOn(b, d, BirthsFrom(d, 0, now, rules), true, 0, now, face);
  }

  lemma FedFirst(s: State, now: int, rules: Rules)
    ensures BeforeTheWalk(s, now, rules) == BirthsFrom(Grow(Fed(s, now, rules), now, rules), 0, now, rules)
  {
    hide Grow; hide BirthsFrom; hide LaidEggs; hide Washed;
  }

  /** Everything before the rides are walked keeps the laws and the ledgers. */
  lemma BeforeTheWalkKeeps(s: State, now: int, rules: Rules, face: string)
    requires Sound(s)
    ensures var t := BeforeTheWalk(s, now, rules);
            Walked(s, t, 0, 0, now, face) && Sound(t) && t.raids == s.raids && GoodsTold(Fed(s, now, rules).told, t.told)
  {
    hide Step; hide Sound; hide BeforeTheWalk; hide Walked; hide Standing; hide Fed; hide GoodsTold;
    var a, t := Fed(s, now, rules), BeforeTheWalk(s, now, rules);
    FedTells(s, now, rules);
    FedWalks(s, now, rules, face);
    SoundAfter(s, a, 0, 0, now, face);
    SoundStands(a);
    BeforeTheWalkSteps(s, now, rules, face);
    StepWalks(a, t, 0, now, face);
    WalkedOn(s, a, t, 0, 0, 0, now, face);
    SoundAfter(s, t, 0, 0, now, face);
    StepTold(a, t, 0, now, face);
  }

  /** Taking the settled rides off the list breaks nothing, as they carry nothing any more. */
  lemma ErasedSound(s: State, now: int)
    requires Sound(s)
    ensures Sound(s.(raids := UnderWay(s.raids, now)))
  {
    hide Solvent; hide Housed; hide Raised; hide Holding;
    UnderWaySubsequence(s.raids, now);
  }

  lemma {:induction false} UnderWaySubsequence(raids: seq<Raid>, now: int)
    requires forall j, k | 0 <= j < k < |raids| :: raids[j].raider != raids[k].raider
    ensures forall j, k | 0 <= j < k < |UnderWay(raids, now)| :: UnderWay(raids, now)[j].raider != UnderWay(raids, now)[k].raider
  {
    if raids != [] {
      var front, last := raids[..|raids| - 1], raids[|raids| - 1];
      var before := UnderWay(front, now);
      UnderWaySubsequence(front, now);
      forall j | 0 <= j < |before|
        ensures before[j].raider != last.raider
      {
        assert before[j] in front;
      }
      assert UnderWay(raids, now) == if Due(last, now) then before else before + [last];
    }
  }

  /** raid_due. The laws hold after it, and both ledgers: robbery, salt, delivery and homecoming move palle but make and
      lose none; what came into the game or left it was told. */
  lemma RoundKeeps(s: State, now: int, rules: Rules, face: string)
    requires Sound(s)
    ensures Sound(Round(s, now, rules))
    ensures Accounted(s, Round(s, now, rules), 0, now, face)
  {
    hide Step; hide Sound; hide Walk; hide BeforeTheWalk; hide Walked; hide Standing; hide OnTheRoad; hide Total;
    hide PalleMade; hide EmojiMade;
    var t := BeforeTheWalk(s, now, rules);
    BeforeTheWalkKeeps(s, now, rules, face);
    var u := Walk(t, 0, now, rules);
    WalkKeeps(t, 0, now, rules, face);
    WalkedOn(s, t, u, 0, 0, |t.raids|, now, face);
    SoundAfter(s, u, 0, |t.raids|, now, face);
    ErasedSound(u, now);
    WalkedBooks(s, u, 0, |t.raids|, now, face);
    RoadErased(u.raids, |t.raids|, now, LOAD);
    RoadErased(u.raids, |t.raids|, now, GiftCopies(face));
  }

  lemma WalkedBooks(s: State, t: State, before: int, after: int, now: int, face: string)
    requires Walked(s, t, before, after, now, face)
    ensures Books(t, after, now) == Books(s, before, now)
    ensures EmojiBooks(t, after, now, face) == EmojiBooks(s, before, now, face)
    ensures |t.raids| == |s.raids|
  {
  }

  // ---------------------------------------------------------------- every ride ends once

  lemma StillAwayLater(raids: seq<Raid>, now: int)
    requires RidesSound(raids) && forall j | 0 <= j < |raids| :: raids[j].arrived || now < raids[j].arrive
    ensures forall j | 0 <= j < |UnderWay(raids, now)| :: UnderWay(raids, now)[j].back > now
  {
    var kept := UnderWay(raids, now);
    forall j | 0 <= j < |kept|
      ensures kept[j].back > now
    {
      assert kept[j] in raids;
      var k :| 0 <= k < |raids| && raids[k] == kept[j];
      assert RideSound(raids[k]);
    }
  }

  /** Whether the rides a round starts with come to the ones it leaves, by way of what it told: each one that is over was told
      to be home, once and in the order of the list, or its raider was told to start over. */
  ghost predicate Settles(before: seq<Raid>, walked: seq<Raid>, after: seq<Raid>, told: seq<Event>, now: int) {
    && |walked| == |before| && after == UnderWay(walked, now)
    && InOrder(told, 0, |before|)
    && forall j | 0 <= j < |before| ::
         && walked[j].raider == before[j].raider
         && (ToldHome(told, j) ==> Due(walked[j], now))
         && (Due(walked[j], now) ==> ToldHome(told, j) || (IsEmpty(walked[j]) && WipedSince(told, 0, before[j].raider)))
  }

  lemma SettledAll(before: seq<Raid>, walked: seq<Raid>, quiet: seq<Event>, told: seq<Event>, now: int)
    requires SettledFrom(before, walked, told, 0, now)
    requires forall k | 0 <= k < |quiet| :: !quiet[k].Returned?
    ensures Settles(before, walked, UnderWay(walked, now), quiet + told, now)
    ensures forall j | 0 <= j < |walked| :: walked[j].arrived || now < walked[j].arrive
  {
    hide ToldHome; hide WipedSince;
    forall j: nat | j < |before|
      ensures ToldHome(quiet + told, j) <==> ToldHome(told, j)
      ensures WipedSince(told, 0, before[j].raider) ==> WipedSince(quiet + told, 0, before[j].raider)
    {
      ToldEither(quiet, told, j);
      WipedEither(quiet, told, before[j].raider);
      NotYetHome(quiet, j);
    }
  }

  lemma NotYetHome(told: seq<Event>, ride: nat)
    requires forall k | 0 <= k < |told| :: !told[k].Returned?
    ensures !ToldHome(told, ride)
  {
  }

  /** raid_due settles every ride exactly once: whoever is not home by now is not due, although what lands on the way may
      change the rides the walk has already passed. */
  lemma RoundSettles(s: State, now: int, rules: Rules)
    requires Sound(s)
    ensures var t := Round(s, now, rules);
            && s.told <= t.told
            && (forall j | 0 <= j < |t.raids| :: t.raids[j].back > now)
            && exists walked :: Settles(s.raids, walked, t.raids, t.told[|s.told|..], now)
  {
    hide Step; hide Sound; hide Walk; hide BeforeTheWalk; hide Walked; hide Standing; hide SettledFrom; hide Settles; hide UnderWay;
    hide RidesSound;
    var t := BeforeTheWalk(s, now, rules);
    BeforeTheWalkKeeps(s, now, rules, "");
    FedTells(s, now, rules);
    QuietGoods(s, Fed(s, now, rules), t);
    var u := Walk(t, 0, now, rules);
    WalkSettles(t, 0, now, rules);
    WalkKeeps(t, 0, now, rules, "");
    SoundAfter(t, u, 0, |t.raids|, now, "");
    var quiet, told := t.told[|s.told|..], u.told[|t.told|..];
    assert u.told[|s.told|..] == quiet + told;
    SettledAll(s.raids, u.raids, quiet, told, now);
    assert RidesSound(u.raids) by { SoundRides(u); }
    StillAwayLater(u.raids, now);
  }

  lemma StepTold(s: State, t: State, walked: int, now: int, face: string)
    requires Step(s, t, true, walked, now, face)
    ensures GoodsTold(s.told, t.told)
  {
  }

  lemma QuietGoods(s: State, a: State, t: State)
    requires |a.told| > |s.told| && a.told == s.told + [a.told[|s.told|]] && a.told[|s.told|].Laid? && GoodsTold(a.told, t.told)
    ensures s.told <= t.told && forall k | 0 <= k < |t.told[|s.told|..]| :: !t.told[|s.told|..][k].Returned?
  {
    forall k | |s.told| <= k < |t.told|
      ensures !t.told[k].Returned?
    {
      assert k > |s.told| ==> IsGoods(t.told[k]);
      assert t.told[|s.told|] == a.told[|s.told|];
    }
  }

  lemma SoundRides(s: State)
    requires Sound(s)
    ensures RidesSound(s.raids)
  {
  }

  /** A ride that got there has got there: at no later time does it arrive again. */
  lemma ArrivesOnce(s: State, ride: nat, now: int, later: int, rules: Rules)
    requires Sound(s) && ride < |s.raids| && now >= s.raids[ride].arrive
    ensures var t := Arrived(s, ride, now, rules); t.raids[ride].arrived && Arrived(t, ride, later, rules) == t
  {
    hide Delivered; hide Raided; hide Salted; hide Bitten; hide Sound; hide Step; hide Standing;
    SoundStands(s);
    var t := Arrived(s, ride, now, rules);
    ArrivedSteps(s, ride, now, rules, "");
    ArrivedOrNotYet(s, ride, now, rules);
    SameArrival(s, t, ride, now);
  }

  lemma SameArrival(s: State, t: State, ride: nat, now: int)
    requires Step(s, t, true, ride, now, "") && ride < |s.raids| && |t.raids| == |s.raids|
    ensures t.raids[ride].arrive == s.raids[ride].arrive
  {
  }
}

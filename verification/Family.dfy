/** src/game.cpp: the hens, the children that grow and the ones that are born, between one round of the keeper and the
    next; and the round as a whole. */
module Family {
  import opened Basics
  import opened Powers
  import opened Ledger
  import opened Places
  import opened World
  import opened Rides

  // ---------------------------------------------------------------- wash and eggs

  function StillUntil(until: map<string, int>, now: int): map<string, int> {
    map player | player in until && until[player] > now :: until[player]
  }

  /** wash: whoever is clean, or thawed, loses his entry. */
  function Washed(s: State, now: int): (t: State)
    ensures t == s.(smeared := t.smeared, frozen := t.frozen)
  {
    s.(smeared := StillUntil(s.smeared, now), frozen := StillUntil(s.frozen, now))
  }

  /** What each house with hens lays. */
  function Eggs(house: Place, perHen: int): map<string, int> {
    map player | player in house && CountPower(house[player], Hen) > 0 :: CountPower(house[player], Hen) * perHen
  }

  /** Whole minutes only: the rest waits for the next round. */
  function Minutes(eggsAt: int, now: int): int {
    if eggsAt <= 0 || eggsAt > now then 0 else (now - eggsAt) / 60
  }

  /** Up to when the hens were paid for: the first time, they only start. */
  function PaidUpTo(eggsAt: int, now: int, rate: int): int {
    if rate <= 0 then eggsAt
    else if eggsAt <= 0 || eggsAt > now then now
    else eggsAt + Minutes(eggsAt, now) * 60
  }

  /** lay_eggs. */
  ghost function LaidEggs(s: State, now: int, rules: Rules): (t: State)
    ensures t == s.(scores := t.scores, eggsAt := t.eggsAt, told := t.told)
  {
    var eggs := if rules.henPerMinute > 0 && Minutes(s.eggsAt, now) > 0
                then Eggs(s.house, rules.henPerMinute * Minutes(s.eggsAt, now)) else map[];
    var laid := Added(s.scores, eggs);
    s.(eggsAt := PaidUpTo(s.eggsAt, now, rules.henPerMinute), scores := laid, told := s.told + [Laid(Total(eggs, ITSELF))])
  }

  // ---------------------------------------------------------------- growing up

  function Stage(rules: Rules): (stage: int)
    ensures stage >= 1
  {
    Max(rules.childStageSeconds, 1)
  }

  function Age(child: Child, now: int, rules: Rules): (age: int)
    ensures age >= 0
  {
    Max(now - child.born, 0) / Stage(rules)
  }

  function Dropped<T>(list: seq<T>, at: nat): (left: seq<T>)
    requires at < |list|
    ensures |left| == |list| - 1
    ensures forall k | 0 <= k < |left| :: left[k] == if k < at then list[k] else list[k + 1]
  {
    list[..at] + list[at + 1..]
  }

  /** Whether a child stays: the one whose slot holds nothing is not there any more, the oldest one leaves. */
  predicate Stays(s: State, child: Child, now: int, rules: Rules) {
    At(s.house, child.owner, child.slot) != "" && ChildEmoji(child.male, Age(child, now, rules)) != ""
  }

  /** The slot of a child shows its age; once it has lived them all the slot is free. */
  function ChildAged(s: State, child: Child, now: int, rules: Rules): (t: State)
    ensures t == s.(house := t.house, told := t.told)
  {
    hide *;
    var here, looks := At(s.house, child.owner, child.slot), ChildEmoji(child.male, Age(child, now, rules));
    if here == "" || here == looks then s
    else s.(house := Put(s.house, child.owner, child.slot, looks), told := s.told + [Went(here), Came(looks)])
  }

  /** The children from one on, each at its age. */
  function GrownFrom(s: State, k: nat, now: int, rules: Rules): (t: State)
    requires k <= |s.children|
    ensures t.names == s.names
    decreases |s.children| - k
  {
    if k == |s.children| then s else
    var t := ChildAged(s, s.children[k], now, rules);
    if Stays(s, s.children[k], now, rules) then GrownFrom(t, k + 1, now, rules)
    else GrownFrom(t.(children := Dropped(s.children, k)), k, now, rules)
  }

  predicate IsGrown(child: Child, now: int, rules: Rules) {
    Age(child, now, rules) == 2
  }

  predicate HasBoy(children: seq<Child>, owner: string, now: int, rules: Rules) {
    exists j :: 0 <= j < |children| && children[j].male && children[j].owner == owner && IsGrown(children[j], now, rules)
  }

  predicate Courts(children: seq<Child>, girl: Child, now: int, rules: Rules) {
    !girl.male && !girl.courted && IsGrown(girl, now, rules) && HasBoy(children, girl.owner, now, rules)
  }

  /** Each grown-up girl has one chance, the first time there is a grown-up boy in the house. */
  function CourtedFrom(s: State, k: nat, now: int, rules: Rules): (t: State)
    requires k <= |s.children|
    ensures t.names == s.names
    decreases |s.children| - k
  {
    if k == |s.children| then s else
    var girl := s.children[k];
    if !Courts(s.children, girl, now, rules) then CourtedFrom(s, k + 1, now, rules) else
    CourtedFrom(Courted(s, k, now, rules), k + 1, now, rules)
  }

  function Courted(s: State, k: nat, now: int, rules: Rules): (t: State)
    requires k < |s.children|
    ensures t == s.(children := s.children[k := s.children[k].(courted := true)], pregnancies := t.pregnancies, luck := t.luck)
  {
    hide *;
    var conceived := Pregnancy(s.children[k].owner, "", now + Max(rules.pregnancySeconds, 0));
    Tried(s, rules.matingPercent).(
      children := s.children[k := s.children[k].(courted := true)],
      pregnancies := if Lucky(s, rules.matingPercent) then s.pregnancies + [conceived] else s.pregnancies)
  }

  /** grow. */
  function Grow(s: State, now: int, rules: Rules): (t: State)
    ensures t.names == s.names
  {
    CourtedFrom(GrownFrom(s, 0, now, rules), 0, now, rules)
  }

  // ---------------------------------------------------------------- births

  predicate CanReplace(s: State, mother: string, slot: nat) {
    !IsUntouchable(At(s.house, mother, slot)) && !IsChild(s.children, mother, slot)
  }

  function Replaceable(s: State, mother: string, upTo: nat): (there: seq<nat>)
    ensures forall k | 0 <= k < |there| :: there[k] < upTo && CanReplace(s, mother, there[k])
    ensures forall slot: nat | slot < upTo && CanReplace(s, mother, slot) :: slot in there
  {
    hide CanReplace;
    if upTo == 0 then [] else
    var before := Replaceable(s, mother, upTo - 1);
    if CanReplace(s, mother, upTo - 1) then before + [upTo - 1] else before
  }

  /** A child comes into the world in that slot, in the place of what was there. */
  function BornIn(s: State, mother: string, slot: nat, male: bool, now: int): (t: State)
    ensures t == s.(house := t.house, children := t.children, told := t.told)
  {
    hide *;
    s.(house := Put(s.house, mother, slot, ChildEmoji(male, 0)),
       children := s.children + [Child(mother, slot, male, now, false)],
       told := s.told + [Went(At(s.house, mother, slot)), Came(ChildEmoji(male, 0))])
  }

  /** In the mother's first empty slot or, in a full house, in the place of an emoji drawn among the others. */
  function Birth(s: State, mother: string, now: int, rules: Rules): (t: State)
    ensures t == s.(house := t.house, children := t.children, luck := t.luck, told := t.told)
  {
    hide *;
    var male := Roll(s, 2) == 0;
    var t := Rolled(s);
    var free := FreeSlot(HouseSlots(t, mother), rules.furnitureLimit);
    if free.Some? then BornIn(t, mother, free.value, male, now) else
    var others := Replaceable(t, mother, |HouseSlots(t, mother)|);
    if others == [] then t else BornIn(Rolled(t), mother, others[Roll(t, |others|)], male, now)
  }

  /** The pregnancies from one on: whoever's time has come is born, the others wait. */
  function BirthsFrom(s: State, k: nat, now: int, rules: Rules): (t: State)
    requires k <= |s.pregnancies|
    ensures t.names == s.names
    decreases |s.pregnancies| - k
  {
    if k == |s.pregnancies| then s
    else if s.pregnancies[k].due > now then BirthsFrom(s, k + 1, now, rules)
    else
      var t := Birth(s, s.pregnancies[k].mother, now, rules);
      BirthsFrom(t.(pregnancies := Dropped(s.pregnancies, k)), k, now, rules)
  }

  // ---------------------------------------------------------------- the round

  /** Everything that happens before the rides are walked. */
  ghost function BeforeTheWalk(s: State, now: int, rules: Rules): (t: State)
    ensures t.names == s.names
  {
    BirthsFrom(Grow(LaidEggs(Washed(s, now), now, rules), now, rules), 0, now, rules)
  }

  /** raid_due. */
  ghost function Round(s: State, now: int, rules: Rules): (t: State)
    ensures t.names == s.names
  {
    hide *;
    var u := Walk(BeforeTheWalk(s, now, rules), 0, now, rules);
    u.(raids := UnderWay(u.raids, now))
  }
}

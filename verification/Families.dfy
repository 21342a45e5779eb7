/** src/game.cpp, grow and births: how old a child is, who courts, and where a child is born, told from what is there and what is drawn. */
module Families {
  import opened Basics
  import opened Powers
  import opened Ledger
  import opened Places
  import opened World
  import opened Rides
  import opened Family
  import opened Facts
  import Keeping

  // ---------------------------------------------------------------- growing

  /** He has lived so many stages whole, and not one more. */
  ghost predicate HasLived(child: Child, now: int, rules: Rules, stages: int) {
    var stage := if rules.childStageSeconds > 1 then rules.childStageSeconds else 1;
    var lived := if now > child.born then now - child.born else 0;
    stages >= 0 && stages * stage <= lived < (stages + 1) * stage
  }

  lemma WholeStages(lived: int, stage: int)
    requires lived >= 0 && stage > 0
    ensures lived / stage >= 0 && lived / stage * stage <= lived < (lived / stage + 1) * stage
  {
  }

  lemma AgeIs(child: Child, now: int, rules: Rules)
    ensures HasLived(child, now, rules, Age(child, now, rules))
    ensures forall stages | HasLived(child, now, rules, stages) :: stages == Age(child, now, rules)
  {
    var stage, lived, age := Stage(rules), Max(now - child.born, 0), Age(child, now, rules);
    WholeStages(lived, stage);
    forall stages | HasLived(child, now, rules, stages)
      ensures stages == age
    {
      OnlyAge(stage, lived, stages, age);
    }
  }

  lemma OnlyAge(stage: int, lived: int, one: int, other: int)
    requires stage > 0 && one * stage <= lived < (one + 1) * stage && other * stage <= lived < (other + 1) * stage
    ensures one == other
  {
    if one < other {
      Times(one + 1, other, stage);
    } else if other < one {
      Times(other + 1, one, stage);
    }
  }

  lemma Times(fewer: int, more: int, each: int)
    requires fewer <= more && each > 0
    ensures fewer * each <= more * each
  {
  }

  /** In the first of the four stages a child is a baby, then a boy or a girl, then grown up, then old; after that it leaves. */
  ghost predicate GrowsTo(s: State, t: State, child: Child, now: int, rules: Rules, stages: int)
    requires HasLived(child, now, rules, stages)
  {
    var here := At(s.house, child.owner, child.slot);
    if here == "" then t == s
    else
      && t.house == (if here == ChildEmoji(child.male, stages) then s.house else Put(s.house, child.owner, child.slot, ChildEmoji(child.male, stages)))
      && t == s.(house := t.house, told := t.told)
  }

  /** Each child in turn: at its age, and off the list once it has left. */
  lemma ChildGrows(s: State, child: Child, now: int, rules: Rules, stages: int)
    requires HasLived(child, now, rules, stages)
    ensures GrowsTo(s, ChildAged(s, child, now, rules), child, now, rules, stages)
    ensures Stays(s, child, now, rules) <==> At(s.house, child.owner, child.slot) != "" && stages < 4
  {
    hide Put; hide Age; hide HasLived;
    AgeIs(child, now, rules);
    FacesLast(child.male, stages);
  }

  lemma FacesLast(male: bool, stages: int)
    ensures stages >= 0 ==> (ChildEmoji(male, stages) != "" <==> stages < 4)
  {
  }

  // ---------------------------------------------------------------- courting

  ghost predicate IsGrownUp(child: Child, now: int, rules: Rules) {
    HasLived(child, now, rules, 2)
  }

  /** A grown-up girl who has not had her chance, and a grown-up boy in the same house. */
  ghost predicate MayCourt(children: seq<Child>, girl: Child, now: int, rules: Rules) {
    && !girl.male && !girl.courted && IsGrownUp(girl, now, rules)
    && exists boy :: boy in children && boy.male && boy.owner == girl.owner && IsGrownUp(boy, now, rules)
  }

  lemma CourtsIs(children: seq<Child>, girl: Child, now: int, rules: Rules)
    ensures Courts(children, girl, now, rules) <==> MayCourt(children, girl, now, rules)
  {
    hide HasLived; hide Age;
    AgeIs(girl, now, rules);
    forall child: Child
      ensures IsGrown(child, now, rules) <==> IsGrownUp(child, now, rules)
    {
      AgeIs(child, now, rules);
    }
  }

  // ---------------------------------------------------------------- births

  /** Where a child may be born in a full house: in the place of any emoji but a child or a balloon. */
  ghost function Givable(s: State, mother: string): set<nat> {
    set k: nat | k < |SlotsIn(s.house, mother)| && !IsChild(s.children, mother, k)
                 && PowerOf(SlotsIn(s.house, mother)[k]) != Some(Balloon)
  }

  lemma {:induction false} ReplaceableAscends(s: State, mother: string, upTo: nat)
    ensures IsAscending(Replaceable(s, mother, upTo))
  {
    hide CanReplace;
    if upTo > 0 {
      ReplaceableAscends(s, mother, upTo - 1);
    }
  }

  lemma ReplaceableRanked(s: State, mother: string)
    ensures var there := Replaceable(s, mother, |SlotsIn(s.house, mother)|);
            && |there| == |Givable(s, mother)| && (there == [] <==> Givable(s, mother) == {})
            && forall i | 0 <= i < |there| :: there[i] in Givable(s, mother) && Before(Givable(s, mother), there[i]) == i
  {
    hide PowerOf; hide IsChild;
    ReplaceableAscends(s, mother, |SlotsIn(s.house, mother)|);
    Ranked(Replaceable(s, mother, |SlotsIn(s.house, mother)|), Givable(s, mother));
  }

  /** The child is in that slot, and on the list. */
  ghost predicate IsBornAt(s: State, t: State, mother: string, k: nat, male: bool, now: int, drawn: nat) {
    && t == s.(house := Put(s.house, mother, k, ChildEmoji(male, 0)), children := s.children + [Child(mother, k, male, now, false)],
               luck := LuckAfter(s, drawn), told := t.told)
  }

  /** A boy or a girl as drawn, in the first free slot of the mother's house, else in one drawn among those it may take, else nowhere. */
  ghost predicate IsBorn(s: State, t: State, mother: string, now: int, rules: Rules) {
    var male := Draw(s, 0, 2) == 0;
    if exists k: nat :: k < rules.furnitureLimit && IsFirstFree(SlotsIn(s.house, mother), k) then
      exists k: nat | IsFirstFree(SlotsIn(s.house, mother), k) :: IsBornAt(s, t, mother, k, male, now, 1)
    else if Givable(s, mother) == {} then t == s.(luck := LuckAfter(s, 1))
    else exists k: nat | k in Givable(s, mother) && Before(Givable(s, mother), k) == Draw(s, 1, |Givable(s, mother)|) ::
      IsBornAt(s, t, mother, k, male, now, 2)
  }

  lemma BornInIs(s: State, u: State, mother: string, k: nat, male: bool, now: int, drawn: nat)
    requires u == s.(luck := LuckAfter(s, drawn))
    ensures IsBornAt(s, BornIn(u, mother, k, male, now), mother, k, male, now, drawn)
  {
    hide Put; hide ChildEmoji; hide At;
  }

  lemma {:induction false} ReplaceableSame(s: State, t: State, mother: string, upTo: nat)
    requires t == s.(luck := t.luck, pregnancies := t.pregnancies)
    ensures Replaceable(t, mother, upTo) == Replaceable(s, mother, upTo)
  {
    hide PowerOf;
    if upTo > 0 {
      ReplaceableSame(s, t, mother, upTo - 1);
    }
  }

  lemma BirthOf(s: State, mother: string, now: int, rules: Rules)
    ensures var t, male := Rolled(s), Roll(s, 2) == 0;
            var free, others := FreeSlot(SlotsIn(s.house, mother), rules.furnitureLimit), Replaceable(t, mother, |SlotsIn(s.house, mother)|);
            && (free.Some? ==> Birth(s, mother, now, rules) == BornIn(t, mother, free.value, male, now))
            && (free.None? && others == [] ==> Birth(s, mother, now, rules) == t)
            && (free.None? && others != [] ==>
                  Birth(s, mother, now, rules) == BornIn(Rolled(t), mother, others[Roll(t, |others|)], male, now))
  {
    hide BornIn; hide FreeSlot; hide Replaceable; hide Roll;
  }

  lemma BirthIs(s: State, mother: string, now: int, rules: Rules)
    ensures IsBorn(s, Birth(s, mother, now, rules), mother, now, rules)
  {
    hide Birth; hide BornIn; hide FreeSlot; hide IsFirstFree; hide Replaceable; hide Givable; hide Before; hide IsBornAt; hide Roll; hide Rolled;
    hide Draw; hide LuckAfter;
    var slots := SlotsIn(s.house, mother);
    FreeFirst(slots, rules.furnitureLimit);
    BirthOf(s, mother, now, rules);
    var t, male := Rolled(s), Roll(s, 2) == 0;
    NoneDrawn(s);
    Drawn(s, s, 0, 2);
    ReplaceableRanked(s, mother);
    ReplaceableSame(s, t, mother, |slots|);
    var free, others := FreeSlot(slots, rules.furnitureLimit), Replaceable(s, mother, |slots|);
    if free.Some? {
      BornInIs(s, t, mother, free.value, male, now, 1);
    } else if others != [] {
      Drawn(s, t, 1, |others|);
      BornInIs(s, Rolled(t), mother, others[Roll(t, |others|)], male, now, 2);
      assert others[Roll(t, |others|)] in Givable(s, mother);
    }
  }

  // ---------------------------------------------------------------- one after the other

  /** The mothers whose time has come, in the order of the list. */
  function MothersDue(pregnancies: seq<Pregnancy>, now: int): seq<string> {
    if pregnancies == [] then []
    else (if pregnancies[0].due <= now then [pregnancies[0].mother] else []) + MothersDue(pregnancies[1..], now)
  }

  function StillExpecting(pregnancies: seq<Pregnancy>, now: int): seq<Pregnancy> {
    if pregnancies == [] then []
    else (if pregnancies[0].due > now then [pregnancies[0]] else []) + StillExpecting(pregnancies[1..], now)
  }

  /** Each of them gives birth in turn. */
  ghost predicate AreBorn(s: State, t: State, mothers: seq<string>, now: int, rules: Rules)
    decreases |mothers|
  {
    if mothers == [] then t == s
    else exists u: State :: IsBorn(s, u, mothers[0], now, rules) && AreBorn(u, t, mothers[1..], now, rules)
  }

  lemma DroppedOne(pregnancies: seq<Pregnancy>, k: nat)
    requires k < |pregnancies|
    ensures Dropped(pregnancies, k)[..k] == pregnancies[..k] && Dropped(pregnancies, k)[k..] == pregnancies[k + 1..]
    ensures pregnancies[k..][0] == pregnancies[k] && pregnancies[k..][1..] == pregnancies[k + 1..]
  {
  }

  /** Whoever is due is born, in order, and the others wait: pregnancies apart, the births are the ones of the list. */
  lemma {:induction false} BirthsAre(s: State, k: nat, now: int, rules: Rules)
    requires k <= |s.pregnancies|
    ensures var t := BirthsFrom(s, k, now, rules);
            && t.pregnancies == s.pregnancies[..k] + StillExpecting(s.pregnancies[k..], now)
            && AreBorn(s.(pregnancies := []), t.(pregnancies := []), MothersDue(s.pregnancies[k..], now), now, rules)
    decreases |s.pregnancies| - k
  {
    hide Birth; hide IsBorn; hide Dropped;
    if k == |s.pregnancies| {
      assert s.pregnancies[k..] == [];
      assert s.pregnancies[..k] + [] == s.pregnancies;
    } else {
      DroppedOne(s.pregnancies, k);
      if s.pregnancies[k].due > now {
        BirthsAre(s, k + 1, now, rules);
        assert s.pregnancies[..k + 1] + StillExpecting(s.pregnancies[k + 1..], now)
            == s.pregnancies[..k] + ([s.pregnancies[k]] + StillExpecting(s.pregnancies[k + 1..], now));
        assert [] + MothersDue(s.pregnancies[k + 1..], now) == MothersDue(s.pregnancies[k + 1..], now);
      } else {
        var mother := s.pregnancies[k].mother;
        var u := Birth(s, mother, now, rules).(pregnancies := Dropped(s.pregnancies, k));
        BirthsAre(u, k, now, rules);
        BirthAlone(s, mother, now, rules);
        BirthIs(s.(pregnancies := []), mother, now, rules);
        assert [] + StillExpecting(s.pregnancies[k + 1..], now) == StillExpecting(s.pregnancies[k + 1..], now);
        var mothers := MothersDue(s.pregnancies[k..], now);
        assert mothers[0] == mother && mothers[1..] == MothersDue(s.pregnancies[k + 1..], now);
      }
    }
  }

  /** Who else is expecting makes no difference. */
  lemma BirthAlone(s: State, mother: string, now: int, rules: Rules)
    ensures Birth(s.(pregnancies := []), mother, now, rules) == Birth(s, mother, now, rules).(pregnancies := [])
  {
    hide Birth; hide BornIn; hide Replaceable; hide FreeSlot; hide Rolled; hide Roll;
    var u := s.(pregnancies := []);
    RolledAlone(s);
    BirthOf(s, mother, now, rules);
    BirthOf(u, mother, now, rules);
    ReplaceableSame(Rolled(s), Rolled(u), mother, |SlotsIn(s.house, mother)|);
    var free, others := FreeSlot(SlotsIn(s.house, mother), rules.furnitureLimit), Replaceable(Rolled(s), mother, |SlotsIn(s.house, mother)|);
    if free.Some? {
      BornAlone(Rolled(s), mother, free.value, Roll(s, 2) == 0, now);
    } else if others != [] {
      RolledAlone(Rolled(s));
      RollAlone(Rolled(s), |others|);
      BornAlone(Rolled(Rolled(s)), mother, others[Roll(Rolled(s), |others|)], Roll(s, 2) == 0, now);
    }
  }

  lemma RolledAlone(s: State)
    ensures Rolled(s.(pregnancies := [])) == Rolled(s).(pregnancies := [])
    ensures Roll(s.(pregnancies := []), 2) == Roll(s, 2)
  {
  }

  lemma RollAlone(s: State, count: nat)
    requires count > 0
    ensures Roll(s.(pregnancies := []), count) == Roll(s, count)
  {
  }

  lemma BornAlone(s: State, mother: string, k: nat, male: bool, now: int)
    ensures BornIn(s.(pregnancies := []), mother, k, male, now) == BornIn(s, mother, k, male, now).(pregnancies := [])
  {
    hide Put; hide ChildEmoji; hide At;
  }

  // ---------------------------------------------------------------- every girl has her chance

  /** The girls who may court, in the order of the list. */
  ghost function Courting(children: seq<Child>, from: nat, now: int, rules: Rules): seq<nat>
    decreases |children| - from
  {
    if from >= |children| then []
    else (if MayCourt(children, children[from], now, rules) then [from] else []) + Courting(children, from + 1, now, rules)
  }

  /** What she is expecting, if it was drawn. */
  ghost function Conceived(s: State, girl: Child, now: int, rules: Rules): seq<Pregnancy> {
    if rules.matingPercent > 0 && Draw(s, 0, 100) < rules.matingPercent
    then [Pregnancy(girl.owner, "", now + if rules.pregnancySeconds > 0 then rules.pregnancySeconds else 0)] else []
  }

  /** One of them has her chance: it is drawn only if there is one. */
  ghost function Chance(s: State, k: nat, now: int, rules: Rules): (t: State)
    requires k < |s.children|
    ensures |t.children| == |s.children|
  {
    hide *;
    var tried := s.(luck := LuckAfter(s, DrawsFor(rules)), pregnancies := s.pregnancies + Conceived(s, s.children[k], now, rules));
    tried.(children := s.children[k := s.children[k].(courted := true)])
  }

  function DrawsFor(rules: Rules): nat {
    if rules.matingPercent > 0 then 1 else 0
  }

  ghost predicate AreThere(girls: seq<nat>, children: seq<Child>) {
    forall j | 0 <= j < |girls| :: girls[j] < |children|
  }

  ghost function Chances(s: State, girls: seq<nat>, now: int, rules: Rules): State
    requires AreThere(girls, s.children)
    decreases |girls|
  {
    if girls == [] then s else Chances(Chance(s, girls[0], now, rules), girls[1..], now, rules)
  }

  lemma {:induction false} CourtingThere(children: seq<Child>, from: nat, now: int, rules: Rules)
    ensures AreThere(Courting(children, from, now, rules), children)
    decreases |children| - from
  {
    hide MayCourt;
    if from < |children| {
      CourtingThere(children, from + 1, now, rules);
    }
  }

  /** Who has had her chance makes no difference to the others. */
  lemma CourtedAlone(children: seq<Child>, k: nat, j: nat, now: int, rules: Rules)
    requires k < |children| && j < |children| && j != k
    ensures var after := children[k := children[k].(courted := true)];
            MayCourt(after, after[j], now, rules) <==> MayCourt(children, children[j], now, rules)
  {
    hide IsGrownUp;
    BoysStay(children, k, children[j].owner, now, rules);
  }

  lemma BoysStay(children: seq<Child>, k: nat, owner: string, now: int, rules: Rules)
    requires k < |children|
    ensures var after := children[k := children[k].(courted := true)];
            (exists boy :: boy in after && boy.male && boy.owner == owner && IsGrownUp(boy, now, rules)) <==>
              (exists boy :: boy in children && boy.male && boy.owner == owner && IsGrownUp(boy, now, rules))
  {
    hide IsGrownUp;
    var after := children[k := children[k].(courted := true)];
    assert IsGrownUp(after[k], now, rules) <==> IsGrownUp(children[k], now, rules) by { SameAge(children[k], now, rules); }
    if boy :| boy in after && boy.male && boy.owner == owner && IsGrownUp(boy, now, rules) {
      var j :| 0 <= j < |after| && after[j] == boy;
      assert children[j] in children && (j != k ==> children[j] == boy);
    }
    if boy :| boy in children && boy.male && boy.owner == owner && IsGrownUp(boy, now, rules) {
      var j :| 0 <= j < |children| && children[j] == boy;
      assert after[j] in after && (j != k ==> after[j] == boy);
    }
  }

  lemma SameAge(child: Child, now: int, rules: Rules)
    ensures IsGrownUp(child.(courted := true), now, rules) <==> IsGrownUp(child, now, rules)
  {
  }

  lemma {:induction false} CourtingAfter(children: seq<Child>, k: nat, from: nat, now: int, rules: Rules)
    requires k < |children| && k < from
    ensures Courting(children[k := children[k].(courted := true)], from, now, rules) == Courting(children, from, now, rules)
    decreases |children| - from
  {
    hide MayCourt;
    if from < |children| {
      CourtedAlone(children, k, from, now, rules);
      CourtingAfter(children, k, from + 1, now, rules);
    }
  }

  lemma {:induction false} CourtedAre(s: State, from: nat, now: int, rules: Rules)
    requires from <= |s.children|
    ensures AreThere(Courting(s.children, from, now, rules), s.children)
    ensures CourtedFrom(s, from, now, rules) == Chances(s, Courting(s.children, from, now, rules), now, rules)
    decreases |s.children| - from
  {
    hide MayCourt; hide Courts; hide Courted; hide Chance;
    CourtingThere(s.children, from, now, rules);
    if from < |s.children| {
      CourtsIs(s.children, s.children[from], now, rules);
      var rest := Courting(s.children, from + 1, now, rules);
      if MayCourt(s.children, s.children[from], now, rules) {
        var t := Courted(s, from, now, rules);
        assert t == Chance(s, from, now, rules) by { ChanceIs(s, from, now, rules); }
        CourtingAfter(s.children, from, from + 1, now, rules);
        CourtedAre(t, from + 1, now, rules);
        assert ([from] + rest)[1..] == rest;
      } else {
        CourtedAre(s, from + 1, now, rules);
        assert [] + rest == rest;
      }
    }
  }

  /** She has had her chance, and if it was drawn she is expecting. */
  lemma ChanceIs(s: State, k: nat, now: int, rules: Rules)
    requires k < |s.children|
    ensures Courted(s, k, now, rules) == Chance(s, k, now, rules)
  {
    hide Roll; hide Rolled; hide LuckAfter; hide Draw;
    assert s.pregnancies + [] == s.pregnancies;
    NoneDrawn(s);
    Drawn(s, s, 0, 100);
  }

  // ---------------------------------------------------------------- all that comes before the rides

  /** Nothing but houses and children changes as they grow. */
  lemma {:induction false} GrownFrame(s: State, k: nat, now: int, rules: Rules)
    requires k <= |s.children|
    ensures var t := GrownFrom(s, k, now, rules); t == s.(house := t.house, children := t.children, told := t.told)
    decreases |s.children| - k
  {
    hide ChildAged; hide Stays;
    if k < |s.children| {
      var t := ChildAged(s, s.children[k], now, rules);
      if Stays(s, s.children[k], now, rules) {
        GrownFrame(t, k + 1, now, rules);
      } else {
        GrownFrame(t.(children := Dropped(s.children, k)), k, now, rules);
      }
    }
  }

  /** So many whole minutes since the hens were last paid for. */
  function MinutesSince(s: State, now: int): int {
    if 0 < s.eggsAt <= now then (now - s.eggsAt) / 60 else 0
  }

  /** Whoever is clean or thawed is so, each hen is paid for the whole minutes, and the first time the clock only starts. */
  ghost predicate IsFed(s: State, t: State, now: int, rules: Rules) {
    && (forall player :: player in t.smeared <==> player in s.smeared && s.smeared[player] > now)
    && (forall player :: player in t.frozen <==> player in s.frozen && s.frozen[player] > now)
    && (forall player | player in t.smeared :: t.smeared[player] == s.smeared[player])
    && (forall player | player in t.frozen :: t.frozen[player] == s.frozen[player])
    && (forall player :: Counter(t.scores, player) == Counter(s.scores, player)
          + if rules.henPerMinute > 0 then KeptOf(s, player, Hen) * (rules.henPerMinute * MinutesSince(s, now)) else 0)
    && t.eggsAt == (if rules.henPerMinute <= 0 then s.eggsAt else if 0 < s.eggsAt <= now then s.eggsAt + MinutesSince(s, now) * 60 else now)
  }

  lemma EggsAre(s: State, now: int, rules: Rules, player: string)
    ensures Counter(LaidEggs(s, now, rules).scores, player) == Counter(s.scores, player)
              + if rules.henPerMinute > 0 then KeptOf(s, player, Hen) * (rules.henPerMinute * MinutesSince(s, now)) else 0
  {
    hide CountPower; hide KeptOf; hide Eggs; hide Added; hide Total;
    KeptCounted(s, player, Hen);
    if rules.henPerMinute > 0 && Minutes(s.eggsAt, now) > 0 {
      Keeping.EggsOf(s.house, rules.henPerMinute * Minutes(s.eggsAt, now), player);
      Keeping.AddedTo(s.scores, Eggs(s.house, rules.henPerMinute * Minutes(s.eggsAt, now)), player);
    } else {
      Keeping.AddedTo(s.scores, map[], player);
      assert Counter(map[], player) == 0;
    }
  }

  lemma FedIs(s: State, now: int, rules: Rules)
    ensures IsFed(s, LaidEggs(Washed(s, now), now, rules), now, rules)
  {
    hide KeptOf; hide MinutesSince; hide Eggs; hide Added; hide Total;
    var t := Washed(s, now);
    forall player: string
      ensures Counter(LaidEggs(t, now, rules).scores, player) == Counter(s.scores, player)
                + if rules.henPerMinute > 0 then KeptOf(s, player, Hen) * (rules.henPerMinute * MinutesSince(s, now)) else 0
    {
      EggsAre(t, now, rules, player);
      SameHens(s, t, now, player);
    }
    PaidUpToIs(s, now, rules);
  }

  lemma SameHens(s: State, t: State, now: int, player: string)
    requires t.house == s.house && t.eggsAt == s.eggsAt
    ensures KeptOf(t, player, Hen) == KeptOf(s, player, Hen) && MinutesSince(t, now) == MinutesSince(s, now)
  {
  }

  lemma PaidUpToIs(s: State, now: int, rules: Rules)
    ensures PaidUpTo(s.eggsAt, now, rules.henPerMinute) ==
              if rules.henPerMinute <= 0 then s.eggsAt else if 0 < s.eggsAt <= now then s.eggsAt + MinutesSince(s, now) * 60 else now
  {
  }

  /** The girls have their chances, and whoever is due is born. */
  ghost predicate FamilyRound(grown: State, t: State, now: int, rules: Rules) {
    var girls := Courting(grown.children, 0, now, rules);
    && AreThere(girls, grown.children)
    && var courted := Chances(grown, girls, now, rules);
       && t.pregnancies == StillExpecting(courted.pregnancies, now)
       && AreBorn(courted.(pregnancies := []), t.(pregnancies := []), MothersDue(courted.pregnancies, now), now, rules)
  }

  lemma CourtedAndBorn(grown: State, now: int, rules: Rules)
    ensures FamilyRound(grown, BirthsFrom(CourtedFrom(grown, 0, now, rules), 0, now, rules), now, rules)
  {
    hide CourtedFrom; hide BirthsFrom; hide Courting; hide Chances; hide AreBorn; hide MothersDue; hide StillExpecting;
    var courted := CourtedFrom(grown, 0, now, rules);
    CourtedAre(grown, 0, now, rules);
    BirthsAre(courted, 0, now, rules);
    assert courted.pregnancies[0..] == courted.pregnancies && courted.pregnancies[..0] == [];
    assert [] + StillExpecting(courted.pregnancies, now) == StillExpecting(courted.pregnancies, now);
  }

  /** Before the rides are walked: everybody is washed and the eggs are laid, the children grow, the girls have their chances, and whoever is
      due is born. */
  lemma RoundBegins(s: State, now: int, rules: Rules)
    ensures exists fed: State, grown: State ::
              && IsFed(s, fed, now, rules) && fed.house == s.house && fed.children == s.children && fed.pregnancies == s.pregnancies
              && grown == fed.(house := grown.house, children := grown.children, told := grown.told)
              && FamilyRound(grown, BeforeTheWalk(s, now, rules), now, rules)
  {
    hide LaidEggs; hide Washed; hide GrownFrom; hide CourtedFrom; hide BirthsFrom; hide IsFed; hide FamilyRound;
    var fed := LaidEggs(Washed(s, now), now, rules);
    FedIs(s, now, rules);
    GrownFrame(fed, 0, now, rules);
    CourtedAndBorn(GrownFrom(fed, 0, now, rules), now, rules);
  }
}

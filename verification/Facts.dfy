/** What can be read off a state without any of the rules: counted slot by slot, and drawn one draw after the other. The theorems on
    what an operation does are stated in these terms. */
module Facts {
  import opened Basics
  import opened Text
  import opened Powers
  import opened Ledger
  import opened Places
  import opened World
  import Position

  // ---------------------------------------------------------------- copies, slot by slot

  predicate Shows(slot: string, power: Power) {
    slot != "" && PowerOf(slot) == Some(power)
  }

  ghost function SlotsWith(slots: seq<string>, power: Power): set<nat> {
    set k: nat | k < |slots| && Shows(slots[k], power)
  }

  lemma OneMore(slots: seq<string>, power: Power)
    requires slots != []
    ensures var last, before := |slots| - 1, SlotsWith(slots[..|slots| - 1], power);
            && last !in before
            && SlotsWith(slots, power) == if Shows(slots[last], power) then before + {last} else before
  {
    hide Shows;
  }

  lemma {:induction false} CountedAll(slots: seq<string>, power: Power)
    ensures CountPower(slots, power) == |SlotsWith(slots, power)|
  {
    hide PowerOf; hide SlotsWith;
    if slots == [] {
      NoSlots(power);
    } else {
      OneMore(slots, power);
      CountedAll(slots[..|slots| - 1], power);
    }
  }

  lemma NoSlots(power: Power)
    ensures SlotsWith([], power) == {}
  {
  }

  /** How many of a power are in the slots of a house. */
  ghost function KeptOf(s: State, player: string, power: Power): nat {
    |SlotsWith(SlotsIn(s.house, player), power)|
  }

  /** What a slot of his looks like to the group: a lobster of the holder as what it came in as. */
  function LooksAs(current: Option<Holder>, gear: Place, player: string, k: nat): string
    requires k < |SlotsIn(gear, player)|
  {
    var emoji := SlotsIn(gear, player)[k];
    if current.Some? && current.value.username == player && k in current.value.lobsters
       && emoji != "" && PowerOf(emoji) == Some(Lobster)
    then current.value.lobsters[k] else emoji
  }

  /** How many of a power he shows. */
  ghost function ShownOf(current: Option<Holder>, gear: Place, player: string, power: Power): nat {
    |set k: nat | k < |SlotsIn(gear, player)| && Shows(LooksAs(current, gear, player, k), power)|
  }

  lemma KeptCounted(s: State, player: string, power: Power)
    ensures HouseCopies(s, player, power) == KeptOf(s, player, power)
  {
    CountedAll(HouseSlots(s, player), power);
  }

  lemma ShownCounted(current: Option<Holder>, gear: Place, player: string, power: Power)
    ensures CountPower(ShownGear(current, gear, player), power) == ShownOf(current, gear, player, power)
  {
    hide PowerOf;
    var shown := ShownGear(current, gear, player);
    CountedAll(shown, power);
    assert forall k: nat | k < |shown| :: shown[k] == LooksAs(current, gear, player, k);
    assert SlotsWith(shown, power) ==
      set k: nat | k < |SlotsIn(gear, player)| && Shows(LooksAs(current, gear, player, k), power);
  }

  lemma CarriedCounted(s: State, player: string, power: Power)
    ensures CarriedCopies(s, player, power) == ShownOf(s.current, s.gear, player, power)
  {
    ShownCounted(s.current, s.gear, player, power);
  }

  /** So many percent each, a hundred at the most. */
  function Percent(copies: int, each: int): int {
    if copies * (if each > 0 then each else 0) > 100 then 100 else copies * (if each > 0 then each else 0)
  }

  lemma PercentIs(copies: int, each: int)
    ensures Share(copies, each) == Percent(copies, each)
  {
  }

  // ---------------------------------------------------------------- draws

  /** The draw after so many, among so many. */
  function Draw(s: State, after: nat, count: nat): nat
    requires count > 0
  {
    if after < |s.luck| then s.luck[after] % count else 0
  }

  /** The draws that are left after so many. */
  function LuckAfter(s: State, after: nat): seq<nat> {
    if after <= |s.luck| then s.luck[after..] else []
  }

  lemma Drawn(s: State, t: State, after: nat, count: nat)
    requires count > 0 && t.luck == LuckAfter(s, after)
    ensures Roll(t, count) == Draw(s, after, count)
    ensures Rolled(t).luck == LuckAfter(s, after + 1)
  {
  }

  lemma NoneDrawn(s: State)
    ensures s.luck == LuckAfter(s, 0)
  {
  }

  // ---------------------------------------------------------------- where somebody is

  predicate IsIn(s: State, player: string) {
    s.current.Some? && Lower(s.current.value.username) == Lower(player)
  }

  predicate IsOut(s: State, player: string) {
    exists j :: 0 <= j < |s.raids| && s.raids[j].raider == player
  }

  lemma WhereItIs(s: State, player: string)
    ensures WhereIs(s, player) == if IsIn(s, player) then AtPlace else if IsOut(s, player) then OnRoad else AtHome
    ensures HoldsPlace(s, player) == IsIn(s, player) && RideOf(s.raids, player).Some? == IsOut(s, player)
    ensures IsRiding(s.raids, player) == IsOut(s, player)
  {
  }

  /** A balloon of his guards his house: one that hangs there, or one he has on him at home. Not while he is frozen. */
  ghost predicate GuardsHome(s: State, player: string, now: int) {
    && Counter(s.frozen, player) <= now
    && (KeptOf(s, player, Balloon) > 0
        || (!IsIn(s, player) && !IsOut(s, player) && ShownOf(s.current, s.gear, player, Balloon) > 0))
  }

  lemma GuardedHome(s: State, player: string, now: int)
    ensures BalloonThere(s, player, AtHome, now) <==> GuardsHome(s, player, now)
  {
    hide CountPower; hide PowerOf; hide RideOf; hide ShownGear; hide ShownOf; hide KeptOf; hide IsIn; hide IsOut;
    KeptCounted(s, player, Balloon);
    CarriedCounted(s, player, Balloon);
    WhereItIs(s, player);
  }

  /** A balloon the holder has on him guards him in the place. Not while he is frozen. */
  ghost predicate GuardsPlace(s: State, player: string, now: int) {
    Counter(s.frozen, player) <= now && IsIn(s, player) && ShownOf(s.current, s.gear, player, Balloon) > 0
  }

  lemma GuardedPlace(s: State, player: string, now: int)
    ensures BalloonThere(s, player, AtPlace, now) <==> GuardsPlace(s, player, now)
  {
    hide CountPower; hide PowerOf; hide RideOf; hide ShownGear; hide ShownOf; hide IsIn; hide IsOut;
    CarriedCounted(s, player, Balloon);
    WhereItIs(s, player);
  }

  // ---------------------------------------------------------------- slots

  /** The first slot that holds nothing; the one after the last if all of them hold something. */
  ghost predicate IsFirstFree(slots: seq<string>, k: nat) {
    k <= |slots| && (k < |slots| ==> slots[k] == "") && forall j: nat | j < k :: slots[j] != ""
  }

  lemma FreeFirst(slots: seq<string>, limit: nat)
    ensures forall k: nat :: FreeSlot(slots, limit) == Some(k) <==> IsFirstFree(slots, k) && k < limit
    ensures FreeSlot(slots, limit).None? <==> |slots| >= limit && forall k: nat | k < limit :: slots[k] != ""
  {
    var first := FirstEmpty(slots);
    assert forall k: nat | IsFirstFree(slots, k) :: !(k < first) && !(first < k);
  }

  ghost function Under(slots: set<nat>, k: nat): set<nat> {
    set j | j in slots && j < k
  }

  /** How many of those slots come before one. */
  ghost function Before(slots: set<nat>, k: nat): nat {
    |Under(slots, k)|
  }

  ghost predicate IsAscending(there: seq<nat>) {
    forall i, j | 0 <= i < j < |there| :: there[i] < there[j]
  }

  ghost function FirstOf(there: seq<nat>, many: nat): set<nat>
    requires many <= |there|
  {
    set j | 0 <= j < many :: there[j]
  }

  lemma {:induction false} FirstCounted(there: seq<nat>, many: nat)
    requires IsAscending(there) && many <= |there|
    ensures |FirstOf(there, many)| == many
  {
    if many > 0 {
      FirstCounted(there, many - 1);
      assert there[many - 1] !in FirstOf(there, many - 1);
      assert FirstOf(there, many) == FirstOf(there, many - 1) + {there[many - 1]};
    }
  }

  lemma RankedAt(there: seq<nat>, slots: set<nat>, i: nat)
    requires IsAscending(there) && (forall k: nat :: k in there <==> k in slots) && i < |there|
    ensures Before(slots, there[i]) == i
  {
    FirstCounted(there, i);
    var below := Under(slots, there[i]);
    forall k | k in below
      ensures k in FirstOf(there, i)
    {
      assert k in there;
      var j :| 0 <= j < |there| && there[j] == k;
      assert !(i <= j);
    }
    forall k | k in FirstOf(there, i)
      ensures k in below
    {
      var j :| 0 <= j < i && there[j] == k;
      assert k in there;
    }
    assert below == FirstOf(there, i);
  }

  /** In a list of slots in order, each stands at the place of its rank. */
  lemma Ranked(there: seq<nat>, slots: set<nat>)
    requires IsAscending(there) && forall k: nat :: k in there <==> k in slots
    ensures |there| == |slots|
    ensures forall i | 0 <= i < |there| :: Before(slots, there[i]) == i
  {
    FirstCounted(there, |there|);
    forall k | k in slots
      ensures k in FirstOf(there, |there|)
    {
      assert k in there;
    }
    assert slots == FirstOf(there, |there|);
    forall i | 0 <= i < |there|
      ensures Before(slots, there[i]) == i
    {
      RankedAt(there, slots, i);
    }
  }

  /** The slots with a power something can take: any but the balloon. */
  ghost function ExposedIn(slots: seq<string>): set<nat> {
    set k: nat | k < |slots| && slots[k] != "" && PowerOf(slots[k]).Some? && PowerOf(slots[k]) != Some(Balloon)
  }

  lemma {:induction false} ExposedAscends(slots: seq<string>, upTo: nat)
    requires upTo <= |slots|
    ensures IsAscending(Exposed(slots, upTo))
  {
    hide IsExposed;
    if upTo > 0 {
      ExposedAscends(slots, upTo - 1);
    }
  }

  lemma ExposedRanked(slots: seq<string>)
    ensures var there := Exposed(slots, |slots|);
            |there| == |ExposedIn(slots)| && forall i | 0 <= i < |there| :: there[i] in ExposedIn(slots) && Before(ExposedIn(slots), there[i]) == i
  {
    hide PowerOf;
    ExposedAscends(slots, |slots|);
    Ranked(Exposed(slots, |slots|), ExposedIn(slots));
  }

  // ---------------------------------------------------------------- the road

  /** The root of the squared differences of two points, to the nearest integer. */
  ghost predicate IsNearestRoot(width: int, height: int, d: nat) {
    var n := width * width + height * height;
    4 * n < (2 * d + 1) * (2 * d + 1) && (d > 0 ==> (2 * d - 1) * (2 * d - 1) < 4 * n)
  }

  /** How far apart two players live: the points of the map are numbered row by row, a hundred thousand to a row. */
  ghost predicate IsRoad(ids: map<string, int>, one: string, other: string, d: nat) {
    var a, b := Counter(ids, one) % 10_000_000_000, Counter(ids, other) % 10_000_000_000;
    IsNearestRoot(a % 100_000 - b % 100_000, a / 100_000 - b / 100_000, d)
  }

  lemma TheRoad(ids: map<string, int>, one: string, other: string, d: nat)
    ensures IsRoad(ids, one, other, d) <==>
              d == Position.Distance(Position.CoordinatesOf(Counter(ids, one)), Position.CoordinatesOf(Counter(ids, other)))
  {
    hide Position.Rounded;
    var a, b := Position.CoordinatesOf(Counter(ids, one)), Position.CoordinatesOf(Counter(ids, other));
    Position.Nearest(Position.Squared(a, b), d);
  }
}

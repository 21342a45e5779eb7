/** src/game.cpp, blow_up: which emoji a bomb or a dino takes, told from the draw. */
module Blasts {
  import opened Places
  import opened World
  import opened Rides
  import opened Facts

  /** Of the emoji with a power, all but the balloons, the one drawn is gone; with none there nothing is drawn. */
  ghost predicate IsBlast(s: State, t: State, target: string, onHim: bool) {
    var slots := if onHim then SlotsIn(s.gear, target) else SlotsIn(s.house, target);
    if ExposedIn(slots) == {} then t == s else
    exists hit: nat | hit in ExposedIn(slots) && Before(ExposedIn(slots), hit) == Draw(s, 0, |ExposedIn(slots)|) ::
      && t == s.(house := t.house, gear := t.gear, luck := LuckAfter(s, 1), told := s.told + [Went(slots[hit])])
      && t.gear == (if onHim then Put(s.gear, target, hit, "") else s.gear)
      && t.house == (if onHim then s.house else Put(s.house, target, hit, ""))
  }

  lemma NothingExposed(slots: seq<string>)
    ensures ExposedIn(slots) == {} <==> |ExposedIn(slots)| == 0
  {
  }

  lemma BlastIs(s: State, target: string, onHim: bool)
    ensures IsBlast(s, BlownUp(s, target, onHim), target, onHim)
  {
    hide ExposedIn; hide Before; hide Exposed; hide Put; hide IsExposed;
    var slots := if onHim then GearSlots(s, target) else HouseSlots(s, target);
    var there := Exposed(slots, |slots|);
    ExposedRanked(slots);
    NothingExposed(slots);
    NoneDrawn(s);
    if there != [] {
      Drawn(s, s, 0, |there|);
      assert there[Roll(s, |there|)] in ExposedIn(slots);
    }
  }
}

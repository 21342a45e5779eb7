# TheConquister37, modelled and proved in Dafny

TheConquister37 is a game played by writing lines in a Telegram group and an IRC channel. Players hold a place for palle,
ride to each other's houses to rob, give or throw emoji, buy and arrange emoji, raise children, and burn what they no longer
want. This project models the game's rules and four parts beside them, and proves what they keep over every run.

`dafny verify dfyconfig.toml` checks everything.

## How the model is built

**The state.** `World.State` has the fields of the saved document: the holder, the scores, the rides, the two places where
emoji are (houses and what is on the players), the children, the pregnancies, the names and accounts, the invites. A place
is a map from player to his slots. The source keeps each player's slots as one string and reads it back on every operation;
`Merging.RunsTheSame` proves that a run which keeps only the strings between one transaction and the next is the same run, so
the maps stand for the strings, as long as the emoji that are bought and carried are closed: `Merging.SafeToBuy` proves that this
is exactly the emoji for which it is so. Two fields are the model's own:
`luck`, the draws still to come, so that a statement for every `luck` is one for every outcome; and `told`, a record of every
palla and emoji that enters or leaves the game, and of every ride that ends.

**Specification and code.** Each transaction exists twice. The functions (`Rides`, `Family`, `Claims`, `Journeys`,
`Household`, `Burning`, `Naming`, `Linking`, `Quoting`) say what it does to the state as a value; the theorems are about them. The class
`Game.StorageSession` does the same in the source's own form: fields assigned in place, rides and children changed and erased
in loops while the list is walked. Each of its methods ends in exactly the state its function gives, and
`Game.Storage.Transaction` saves it or leaves everything as it was. The loops of the text layer, of the IRC layer and of the
sentinel are methods in the same way, and `IrcClass.Session` and `Sentinel.FindRoot` keep the fields and the array of the source.

**What is told apart from the code.** `Facts` counts what somebody has slot by slot, with sets and ranks in place of the loops and
lists of the specification, and reads a draw off the dice where it lies. With it `Robberies`, `Deliveries`, `Blasts`, `Families`,
`Rounds`, `Departures`, `Conquests`, `Joining`, `Errands`, `Fires`, `Acquaintances`, `Answers`, `Abandonments` and `IrcAnswers` say of each
operation when it is granted, what it then does and when it is given up, without the functions that do it.

**The laws.** `Laws.Sound` is what every transaction keeps: no score below zero; every ride sound; nobody in two places; every
id on the map and nobody at somebody else's point; no more than five emoji on anybody; every child in a slot of its own that
shows a child; the bolts a hold is paid for being those its holder shows. `Laws.Plays` adds the two ledgers: the palle there
are, on the players and on the road, change by exactly what was told, and so do the copies of every emoji. What each transaction may
tell is itself proved (`Entries.NextTells`), and what the ledgers come to with it (`Telling.RoundPalle`, `Entries.StockStays`,
`Entries.PalleStay`, `Entries.PalleOfPay`, `Entries.PalleOfPurchase`).

**Main results.**

- `Runs.RunKeeps` and `Runs.FromNothing`: over every run of transactions all the laws hold and both ledgers balance.
- `Telling.RoundPalle`: the keeper's round changes the palle there are by the eggs laid less what resets wiped, and by nothing else.
- `Keeping.RoundSettles`, `Homecomings.LostExactly` and `Arrivals.RunArrivesOnce`: every ride arrives once and comes home once, although
  landing emoji change the list being walked, and exactly the rides a later nuke empties do not come home.
- `Arrivals.TurnCosts`: over every run, turning back costs exactly the time ridden.
- `Rounds.RoundGoes`, `Robberies.RobberArrives`, `Deliveries.GiftArrives`, `Families.RoundBegins`: what a round comes to, told from
  the copies there and the raw draws: who is held up, caught or gets in, what he takes, what lands on whom, who is born.
- `Departures.StartsExactly`, `Departures.RideDeparts`, `Conquests.TakenExactly`, `Conquests.ClaimGoes`, `Joining.JoinsExactly`,
  `Errands.BuysExactly`, `Fires.BurnsExactly`: exactly when each request is granted, and all it then does.
- `Children.RunChildren` and `Ages.NextFace`: over every run a child keeps its slot and its emoji, and only age, a reset or a fire
  takes it away.
- `Merging.RunsTheSame` and `Filing.AlwaysReadsBack`: over every run the stored strings read back as the slots.
- `Runs.RunBinds` and `Agreements.RunAgreed`: over every run a player has at most one account on each platform, and two accounts
  become one player only when both asked for it.
- `Tenures.TenurePaid` and `Conquests.ClaimPaid`: over every run a hold is paid the sum of its stretches between one fire and the next,
  at the bolts its holder showed when he claimed.
- `Keeping.EggsAnyhow`, `Journeys.TurnsNeverLater`: eggs and ways home over any sequence of events.
- `Sentinel.Report`: the groups of the report are the connected components, computed by the in-place forest.
- `IrcSession.OnlyVouchedAnswered`, `IrcSession.AnsweredOnce` and `IrcSession.AnsweredAtMost`: who is answered on IRC, and how often,
  over every sequence of messages; `IrcAnswers.VouchedAnswered`, `IrcAnswers.AllWaitingAnswered` and `IrcAnswers.EveryCommandFares`:
  whoever is vouched for is answered, and no line is lost.
- `IrcLines.LinesCarry`, `IrcProtocol.MessageRoundTrip`: exactly when the lines of a text are lossless, and messages round-trip.
- `Grammar.OneMeaning`, `Retired.FaithfulInstead`: no line has two meanings, and a retired line's replacement asks for the same.

## Findings

Where the code does less than its comments say, the model follows the code; each case has an input that shows it and the exact
condition.

- src/game.cpp:1848-1881: palle taken along with an emoji that has to stay behind are lost (`Journeys.PallaLost`). Nothing is lost
  exactly when the raider does not set out with both, with nothing to keep him back and an emoji that has to stay
  (`Journeys.RaidStartPlays`, `Journeys.DropsPalle`). The commands never ask for both.
- src/commands.cpp:2056, src/game.cpp:938-968: an emoji that passes as one may become one with its neighbour once it is stored.
  Two halves of a flag, bought side by side, are one slot from then on (`Merging.HalvesMerge`). An emoji is safe to buy in every run
  exactly when it is closed (`Merging.SafeToBuy`), and is read back among closed ones exactly then (`Neighbours.ClosedExactly`).
- src/game.cpp:1802-1806: a second turn back can bring the raider home sooner than the way already walked
  (`Journeys.SecondTurnHastens`). It leaves the way home alone exactly when he is past the point of arrival or home
  (`Journeys.SecondTurn`).
- src/irc_protocol.cpp:118-153: a piece that cannot be cut into a nonempty line is dropped from there on, as two continuation bytes
  with room for one are (`IrcLines.BytesLost`). A piece is carried whole exactly when no cut its loop comes to has more than a line
  left with all the bytes there is room for past the first being continuation bytes (`IrcLines.LinesCarry`); that never happens on
  valid UTF-8 with room for four bytes.
- src/commands.cpp:45-51: a line whose lone name is the place's own is a claim, not a ride (`Retired.RaidRead`).
- src/game.cpp:2241-2424: a reset told while the rides are walked ends a ride already passed without a homecoming, as in
  `Homecomings.NeverHome`. That happens exactly when the ride was not due at its turn and a later one throws a nuke that reaches its
  raider (`Homecomings.LostExactly`), so never when no ride that arrives brings a nuke to throw (`Homecomings.EveryRideHome`).
- src/game.cpp:2543-2565: a quote that reads as the position of an older one cannot be deleted by its text: the older one goes
  (`Quoting.OlderGoes`). It is undone exactly when it does not read so (`Quoting.AddedAndDeleted`).

## Model

| member | source | states |
|---|---|---|
| Runs.RunKeeps | src/storage.hpp:209-223 | Over every sequence of transactions from any lawful state, all the laws hold at the end, and the palle and the copies of any emoji changed by exactly what was told: nothing is made or lost silently. From a state whose strings read back this is the run on the strings (`Merging.RunsTheSame`). |
| Runs.FromNothing | src/game.cpp:2234-2426 | From an unplayed game, after any run, the sum of all scores and all loads on the road is the palle told to come in less those told to leave, and the same for the copies of every emoji. |
| Runs.RunPalle | src/game.cpp:2234-2426 | On slots, whatever emoji are bought and carried, after any run nobody owes palle and the palle there are changed by exactly what was told; it does not speak of the strings once an emoji that is not closed is bought. |
| Runs.MadePlays | src/storage.hpp:214-222 | Each of the sixteen transactions on its own keeps the laws and both ledgers. |
| Telling.RoundPalle | src/game.cpp:2234-2426 | The round changes the palle on players and rides by exactly the eggs due less what its resets wiped: robbery, salt, delivery and homecoming make and lose none. |
| Telling.RoundTells | src/game.cpp:2234-2426 | A round tells one laying first, then only wipes, emoji that come and go, and homecomings: no pay, no price, no reward. |
| Telling.QuietRide | src/game.cpp:2241-2424 | A ride that robs with no dino there, gives, is refused or comes home leaves the sum of palle and every copy of every emoji, on players, in houses and on the road, as they were. |
| Entries.NextTells | src/storage.hpp:214-222 | No transaction tells anything but its own kind of entry, so nothing can be balanced by an entry that does not belong to it. |
| Entries.StockStays | src/game.cpp:1592-1671 | Claiming, riding out with a present, turning back, moving, taking, swapping and storing leave every copy of every emoji there is. |
| Entries.PalleStay | src/game.cpp:437-579 | Being seen, being welcomed, linking, recording an invite and deleting a quote leave every palla there is. |
| Entries.PalleOfPay | src/game.cpp:165-232 | Claiming, riding, moving, taking and storing change the palle there are by the exact pay of the hold they end, or not at all. |
| Entries.PalleOfPurchase | src/game.cpp:1486-1590 | A purchase takes exactly its price out of the game, and a refused one nothing. |
| Arrivals.RunArrivesOnce | src/game.cpp:2242-2244 | Over every run a ride that arrived stays arrived, to the same target and time, as long as it is on the list, so no round ever repeats its arrival. |
| Arrivals.NextGoesOn | src/game.cpp:1766-1920 | Whatever the transaction, whoever rides before and after it is on the same ride, a ride that arrived has arrived, and one that has not is due home when it was. |
| Runs.RunBinds | src/game.cpp:437-579 | Over every run no two accounts of one platform are the same player, provided no old name looks like an account. |
| Runs.AccountsStay | src/game.cpp:437-579 | Nothing but speaking and linking changes who is behind an account. |
| Game.Storage.Transaction | src/storage.hpp:214-222 | A transaction on a copy is saved whole or not at all: the saved state is the specified next one, or, if abandoned, the one before. |
| Keeping.RoundKeeps | src/game.cpp:2234-2426 | The keeper's round keeps every law, and both ledgers change by exactly what it tells. |
| Keeping.RoundSettles | src/game.cpp:2241-2424 | After the round no ride left has its homecoming at or before now; every ride taken off was told to be home once, in list order, or is empty and its raider was told to start over in the same round. |
| Homecomings.LostExactly | src/game.cpp:2241-2424 | A ride is taken off without a homecoming if and only if it is not due when the walk reaches it and a ride settled after it, in the same walk, throws a nuke that reaches its raider. |
| Homecomings.HomeExactly | src/game.cpp:2241-2424 | A ride is told to be home if and only if it is due once its own turn is over, and it is then off the list. |
| Homecomings.EveryRideHome | src/game.cpp:2241-2424 | If no ride that arrives this round brings a nuke to throw, a ride is off the list afterwards if and only if its homecoming was told, each once and in list order. |
| Homecomings.NeverHome | src/game.cpp:1370-1395 | A concrete round after which a ride is off the list and no homecoming of it was told, whatever the draws and the rules. |
| Homecomings.WalkStartsOver | src/game.cpp:2173-2207 | In the walk a player is told to start over if and only if, at its turn, one of the rides throws a nuke that reaches him: in his own house, or sent back by a mailbox. |
| Keeping.ArrivesOnce | src/game.cpp:2242-2244 | A ride that arrived has no arrival effect at any later time. |
| Rounds.RoundGoes | src/game.cpp:2234-2426 | The round is, from what the family part leaves, one turn for each ride in the order of the list on what the turn before it left, and then the rides that are over are off the list; in its turn a ride due at its target gives or robs as the theorems below say, and any other one does nothing there. |
| Robberies.RobberArrives | src/game.cpp:2250-2378 | Who arrives with nothing to give pays salt if he is back too soon, may lose an emoji to the dino, and then is held up, caught or gets in as the copies there and the raw draws decide. Held up or caught, his loot is 0 and nobody loses a palla; in, it is the lesser of the palle of the house and the road, twice the road in the golden hour, less the share spared by its pleas, all of it the house's loss; and the emoji drawn goes along if his pirates board. |
| Robberies.AttemptDrawn | src/game.cpp:125-160 | An attempt at a balloon is decided by one draw: three in four, two in four, one in four, none; it counts one attempt more, or the balloon pops and is as good as new. |
| Robberies.BoardedIs | src/game.cpp:1926-1953 | With a pirate on him, a draw that succeeds, an emoji to take that is neither child nor balloon and a slot free, exactly the one drawn is in his first free slot and gone from the house; else nothing is. |
| Robberies.SaltedPaysIs | src/game.cpp:2215-2230 | Who knocks again within the time at a house with salt pays its share of what he has to the house, and no knock of his there is kept; any other knock is kept, and old ones are not. |
| Deliveries.GiftArrives | src/game.cpp:2274-2333 | Palle brought are the target's. A thrown emoji lands on who lives there, or on the raider if a mailbox draw sends it back, and is gone, unless it is a seed and nobody is in; any other emoji is on the target or in his house, or stays on the ride if there is no room. |
| Deliveries.RiderComesHome | src/game.cpp:2384-2424 | Who comes home has the loot and the undelivered palle on top of his score, and the undelivered emoji in the first slot free on him, else in his house, however full it is. |
| Deliveries.LandedIs | src/game.cpp:2173-2207 | What each thrown emoji does where it lands: smears, freezes for the time less what the fires shown melt of it, blows up the thrower's or the victim's emoji as drawn, begins a pregnancy, or resets the victim to one balloon. |
| Blasts.BlastIs | src/game.cpp:2145-2171 | An explosion empties exactly the slot drawn, ranked by its place among the slots with a power that is no balloon; with none there, nothing is drawn and nothing is lost. |
| Settling.WalkSettles | src/game.cpp:2241-2424 | From any ride of the list on, the walk tells each homecoming at most once and leaves nothing due that still carries something. |
| Settling.WalkKeeps | src/game.cpp:2241-2424 | The walk keeps the laws and the ledgers from any ride on, while a landing may empty rides before and after the one at hand. |
| Settling.RobbedSteps | src/game.cpp:2343-2378 | A robbery moves palle from the target onto the ride and at most one emoji onto the raider: both ledgers stay balanced, all laws hold. |
| Settling.LootBounds | src/game.cpp:2355-2372 | The loot is never negative and never more than what the target has. |
| Settling.SaltScored | src/game.cpp:2215-2230 | Salt moves palle from raider to house: the sum of all scores is the same and nobody falls below zero, even paying himself. |
| Settling.CarriedOff | src/game.cpp:1926-1953 | Boarding always finds room for what it takes when it was let to, and moves that emoji with no copy made or lost and no child touched. |
| Settling.BlownUpSteps | src/game.cpp:2145-2171 | An explosion destroys at most one emoji, tells it, never touches a balloon's or a child's slot in the laws, and spares the holder's bolts when he is not hit. |
| Settling.LandedSteps | src/game.cpp:2173-2207 | Whatever a thrown emoji does where it lands keeps the laws and the ledgers, resets in the middle of the walk included. |
| Settling.StartedOverSteps | src/game.cpp:1370-1395 | A reset tells exactly the palle and emoji it wipes, counting what the player's ride carries only if that ride was not already paid. |
| Settling.ReceivedGains | src/game.cpp:1147-1156 | A received emoji is exactly one copy more in the house or on the player. |
| Settling.TakenBackGains | src/game.cpp:2403-2406 | An emoji nobody took always finds a slot on return: exactly one copy more, and still no more than five on anybody. |
| Settling.BroughtHome | src/game.cpp:2390-2400 | Homecoming pays loot and undelivered palle: the ledger with that ride settled is the ledger before it. |
| Settling.DeliveredSteps | src/game.cpp:2274-2333 | A delivery, a refused one and a thrown one keep both ledgers. |
| Keeping.EggsAnyhow | src/game.cpp:1957-1979 | Over any rounds in time, each house is paid hens times rate times the whole minutes since the first, and less than a minute is ever outstanding. |
| Keeping.LaidOnce | src/game.cpp:1957-1979 | One round lays for whole minutes only and keeps the rest for the next. |
| Keeping.ChildSteps | src/game.cpp:2054-2079 | A child that grows, or leaves grown out, keeps every other child's slot its own and tells what its slot showed and shows. |
| Keeping.BirthSteps | src/game.cpp:1994-2045 | A birth takes an empty slot or another emoji's, never a child's or a balloon's, and tells both emoji. |
| Families.RoundBegins | src/game.cpp:2048-2103 | Before the walk everybody whose time is over is washed, the hens are paid, every child grows, each girl who may court has her chance, and whoever is due gives birth, in this order. |
| Families.FedIs | src/game.cpp:1957-1979 | Each player is paid the rate for every hen in his house and every whole minute since the clock last stood, the clock moves on by those minutes, and the first round starts it. |
| Families.ChildGrows | src/game.cpp:2054-2079 | A child that has lived so many whole stages shows the face of that stage in its slot, and after the fourth its slot is empty and it is off the list. |
| Families.CourtedAre | src/game.cpp:2080-2101 | Exactly the grown-up girls who had no chance yet and have a grown-up boy in the house have one, in the order of the list, one draw each; the ones drawn expect from now. |
| Families.BirthIs | src/game.cpp:1994-2045 | A child is born in the first free slot of the house, else in the slot drawn among those that hold neither a child nor a balloon, else nowhere; a boy or a girl as drawn. |
| Families.BirthsAre | src/game.cpp:1994-2045 | Exactly those whose time has come give birth, in the order of the list, and the others still wait. |
| Children.RunChildren | src/game.cpp:1165-1205 | Over every run a child followed from move to move is on the list and its slot shows a child, until it is grown out, reset or burned. |
| Children.NextChildren | src/game.cpp:1262-1315 | After any transaction a child is where it was, or where it was moved, if and only if it did not grow out, was not reset and was not burned. |
| Ages.NextFace | src/game.cpp:1165-1205 | Through any transaction a child that is not lost shows the emoji it showed, where it is now; through the keeper's round, that of its age. |
| Ages.RoundAges | src/game.cpp:2048-2103 | After the round every child looks exactly its age, whatever landed, was boarded or was delivered in it. |
| Children.RoundChildren | src/game.cpp:2048-2103 | The keeper's round leaves a child where it is if and only if it has not lived all its ages and its owner was not told to start over. |
| Children.BurnChildren | src/game.cpp:1399-1461 | Burning takes away only the child it names, or those a thrown nuke or a burnt nuke resets. |
| Children.MoveChildren | src/game.cpp:1297-1309 | Moving emoji moves the child in either slot along with its emoji. |
| Holds.HoldPays | src/game.cpp:165-195 | Pay over any losses of bolts in time is the sum, stretch by stretch, of length times percent over a hundred rounded down; at least a palla a second, at most all the seconds at the entry percent. |
| Tenures.TenurePaid | src/game.cpp:165-206 | Over any run from the claim on, whoever is told to be paid as the hold ends is its holder, for the sum of the stretches between one fire and the next at the bolts he had then, within the bounds. |
| Tenures.HoldThrough | src/game.cpp:1321-1336 | While he stays in the place, his hold is the one he came in with, through exactly the fires of the run. |
| Tenures.NextHolds | src/game.cpp:597-738 | A transaction that leaves him in the place leaves his hold as it was, but for the bolts a fire takes off it. |
| Holds.PaidByStretches | src/game.cpp:1321-1336 | Each lost bolt counts from its own instant and takes back nothing made before. |
| Conquests.ClaimPaid | src/game.cpp:165-206 | Over any run from a claim that was taken to the end of the hold, the palle told are the sum over its stretches of seconds at a hundred percent and the share of each bolt the claimer showed as he came in that was left, lobster copies counted; with no bolts, a palla a second. |
| Conquests.FreshIs | src/game.cpp:686-695 | The new hold counts exactly the slots on him that show a bolt, a lobster showing what the one kicked out has in that slot, if bolts are worth anything, at a hundred percent and their share. |
| Claims.FreshHoldSound | src/game.cpp:686-695 | A new hold counts the bolts its holder shows, lobster copies included, each at an equal share. |
| Burning.BoltsMended | src/game.cpp:1321-1336 | After bolts are lost the hold counts exactly the ones still shown, at the share it came in with. |
| Claims.ClaimAnswered | src/game.cpp:597-697 | The claimer holds the place from now on exactly when the answer is taken; any other answer changes no holder, score or emoji. |
| Conquests.TakenExactly | src/game.cpp:597-661 | A claim is taken if and only if the claimer is not on the road, in already, frozen or under a penalty, and no balloon of the holder stops him: the draw fails it, or his ninja slip past. |
| Answers.ClaimAnsweredWhy | src/game.cpp:597-661 | Every answer to a claim is the first reason there is: travelling, a penalty, already in, frozen, stopped by the balloon. |
| Conquests.ClaimGoes | src/game.cpp:597-738 | In full: sent away, nothing changes but what is on file of him; stopped, he waits the penalty less the share of each hourglass he shows; in, the hold is as his gear says, and whoever was in is out and paid. |
| Conquests.SentAwayWaits | src/game.cpp:597-645 | Whoever is on the road or under a penalty goes on waiting for it; whoever is in already or frozen has none left. |
| Abandonments.ClaimWhen | src/game.cpp:597-738 | A claim is given up if and only if it kicks somebody out whose pay, or score with it, does not fit in 64 bits. |
| Conquests.GoesHome | src/game.cpp:224-232 | Whoever is in the place and is meant for home is out of it and has his score and the pay, to the palla; anybody else changes nothing. |
| Claims.OustedPaid | src/game.cpp:662-696 | Whoever is kicked out is told to be paid what the hold made and had put aside. |
| Claims.StoppedSpares | src/game.cpp:646-661 | A balloon that stops a claim leaves place, palle and emoji alone. |
| Claims.BalloonPops | src/game.cpp:137-155 | No balloon is ever worn more than three times: a held attempt is at most the third, and a pop makes it as good as new. |
| Claims.ClaimPlays | src/game.cpp:597-738 | A claim keeps the laws and pays only what is told; nobody is in the place and on a ride. |
| Arrivals.TurnCosts | src/game.cpp:1766-1920 | Over every run: whoever sets off and turns back before he got there is on the way home for exactly as long as he has been riding, whatever happened meanwhile. |
| Journeys.TurnedHome | src/game.cpp:1800-1809 | Any turn brings the way home closer by twice what was left to ride, never before now and never later. |
| Journeys.TurnsNeverLater | src/game.cpp:1795-1810 | However often a player turns while on the road, he is never home later than planned nor in the past. |
| Journeys.SecondTurn | src/game.cpp:1802-1806 | A turn leaves the way home as it was if and only if the point of arrival is passed or he is home. |
| Journeys.SecondTurnHastens | src/game.cpp:1802-1806 | A concrete ride on which a second turn comes home before the first one would. |
| Journeys.BothLegs | src/game.cpp:1882-1905 | Every ride sets off with two legs of equal length, five seconds at the least, rockets included. |
| Departures.StartsExactly | src/game.cpp:1766-1881 | A ride starts if and only if the target is known and another player, the raider is at home and not frozen, has the palle he takes along, hits no newcomer, and has the emoji he takes along with a hand free and room for it there. |
| Answers.RideAnswered | src/game.cpp:1766-1881 | Every answer is the first reason there is, in the order of the source: on the road, a newcomer to be spared, frozen, in the place, no such amount, too few palle, no such emoji, hands full, no room there. |
| Departures.RideDeparts | src/game.cpp:1882-1920 | The ride added takes equal legs, of the nearest integer root of the squared differences of the two ids' coordinates over the divisor, five seconds at the least and before rockets at a divisor of 0 or less; each rocket he shows adds its percent to the speed. Palle and the first copy of the emoji leave with him, and nothing else does. |
| Departures.TravelIs | src/position.cpp:19-27 | The time each way is the one told from the two ids, the divisor and the rockets shown. |
| Departures.OnMapIs | src/game.cpp:252-264 | Whoever has no point of the map gets the first one drawn that is nobody's, and whoever has one keeps it. |
| Departures.RideRefused | src/game.cpp:1811-1881 | A ride that is refused changes only what is on file of him, and the palle he had picked up if it was refused for the emoji. |
| Departures.TurnsBack | src/game.cpp:1795-1815 | Whoever names himself turns back if he is on the road: home after as long as he has ridden, or as long as was left if he had been there; in the place he leaves it, paid; at home nothing changes. |
| Abandonments.RideWhen | src/game.cpp:1766-1920 | Setting off is given up if and only if the draws run out before both have a point of the map, and going home if and only if the pay does not fit in 64 bits. |
| Journeys.RaidStartShifts | src/game.cpp:1766-1920 | Setting off, turning back, leaving the place and every refusal keep the laws; the palle ledger is short by exactly the gift when an emoji calls the ride off. |
| Journeys.RaidStartPlays | src/game.cpp:1848-1881 | The ledgers balance if and only if it is not so that he takes palle along, nothing keeps him back and the emoji he names as well has to stay. |
| Journeys.PallaLost | src/game.cpp:1848-1881 | A concrete state and load in which a palla is nowhere any more. |
| Journeys.GoneHomePlays | src/game.cpp:224-232 | A line meant for home takes whoever holds the place out of it, paid, and keeps the laws. |
| Journeys.OnMapShifts | src/game.cpp:252-264 | A player's point is drawn once, stays, and is nobody else's. |
| Belongings.TakenLoses | src/game.cpp:1219-1234 | Taking an emoji leaves exactly one copy less, no child moved and no bolt more for the holder. |
| Household.BuyPlays | src/game.cpp:1486-1590 | Buying keeps the laws and tells the price, the emoji bought and the one it replaced; it never covers a child. |
| Household.PriceGrows | src/game.cpp:889-905 | The price never wraps around, never falls as copies are added and never falls below the list price. |
| Errands.BuysExactly | src/game.cpp:1486-1590 | Bought if and only if he is at home, there is a slot for it and he has the price, so many percent more for each copy there is; then it is in that slot, the first free one on him if it works there, else of the house, and he has exactly the price less. Nothing else changes. |
| Answers.PurchaseAnswered | src/game.cpp:1486-1590 | Every refusal of a purchase names what is wrong: not at home, no slot free, no such slot, a child there, the same emoji there, or too few palle for the price. |
| Errands.PriceIs | src/game.cpp:889-905 | The price is the list price raised by the percentage once for each copy, in whole palle each time, the largest number at the most. |
| Errands.MovesExactly | src/game.cpp:1262-1315 | Two slots of the house are exchanged, children with them, if and only if they are two different slots there are and the first holds something. |
| Errands.TakesExactly | src/game.cpp:1592-1640 | Taken if and only if he is at home, has it there in a slot that is no child's, and has a slot free or the emoji he names to swap; then the first such slot and the one on him are exchanged. |
| Errands.StoresExactly | src/game.cpp:1642-1671 | Stored if and only if he is at home, has it on him and the house has a slot free; then it is in the first one. |
| Abandonments.ErrandsWhen | src/game.cpp:1262-1671 | Buying, moving, taking and storing are given up if and only if he holds the place and his pay does not fit in 64 bits. |
| Answers.TakeAnswered | src/game.cpp:1592-1640 | Every refusal names what is wrong: away, the emoji is a child, already on him or not his, no slot free, or nothing such to swap. |
| Answers.StoreAnswered | src/game.cpp:1642-1671 | Every refusal names what is wrong: away, not on him, the house full. |
| Household.PriceDoubles | src/game.cpp:889-905 | At a hundred percent each copy doubles the price until the largest number. |
| Household.DearerBounds | src/game.cpp:891-905 | The guard by division is exact: the product is used if and only if it fits in 64 bits. |
| Household.MovedBack | src/game.cpp:1262-1315 | Moving an emoji and moving it back restores the whole state, children included. |
| Household.StoredBack | src/game.cpp:1592-1671 | Taking an emoji and storing it again restores the whole state, with or without a swap. |
| Household.MovePlays | src/game.cpp:1262-1315 | Moving keeps every law and every copy. |
| Household.TakePlays | src/game.cpp:1592-1640 | Taking or swapping keeps every law and every copy, and refuses a sixth emoji on anybody. |
| Household.StorePlays | src/game.cpp:1642-1671 | Storing keeps every law and every copy. |
| Burning.BurnPlays | src/game.cpp:1399-1461 | Burning tells exactly what is gone, keeps the laws when it lands on the holder or starts the whole game over, and takes lost bolts off the hold. |
| Fires.BurnsExactly | src/game.cpp:1399-1461 | Who is not on the road and has the emoji loses its first copy; a child only if asked to; a nuke ends the whole game; what can be thrown lands on the holder, if that is not himself; and the holder's bolts are counted again. Any other request changes nothing. |
| Abandonments.BurnWhen | src/game.cpp:1399-1461 | A fire is given up if and only if bolts are lost in it and what the hold made with them does not fit in 64 bits. |
| Answers.BurnAnswered | src/game.cpp:1399-1461 | Burned exactly when he is not on the road and has it, or asks for a child of his to be destroyed; a child is else spared, and what is not his is said so. |
| Fires.LostBoltsMend | src/game.cpp:1321-1336 | When fewer bolts are shown than the hold counts, what it made so far is put aside, and from now on it counts the ones shown at the same share each. |
| Fires.AllOverIs | src/game.cpp:1344-1366 | After a burnt nuke nobody rides, holds, waits or owns a palla, and everybody on file has one balloon on him and nothing else. |
| Fires.PalleBurnExactly | src/game.cpp:1736-1764 | So many palle are burnt if and only if he asks for some, is not on the road and has them; else nothing is. |
| Burning.StartedAgainPlays | src/game.cpp:1344-1366 | Starting the whole game over tells all there was and leaves no palle and one balloon for each known player. |
| Burning.BurnPallePlays | src/game.cpp:1736-1764 | Burnt palle are told and nobody burns more than he has. |
| Naming.SeenBinds | src/game.cpp:312-347 | Whoever speaks is bound to a player no other account of his platform has, and nobody else's account changes. |
| Naming.PlatformKeyLooks | src/game.cpp:287-290 | An account key can always be told from an old name, and shows its platform. |
| Linking.SeenPlays | src/game.cpp:437-478 | Being seen brings in at most the welcome balloon, told, once. |
| Acquaintances.SeenSo | src/game.cpp:437-478 | Whoever speaks has an account, the one he had if he had one, is called as he calls himself on that platform, is welcomed once, and has his new days counted until his invite is settled. |
| Acquaintances.NewcomerIs | src/game.cpp:312-347 | An account seen for the first time is the old name found for it, unless that could be of both platforms or is another account's already; else it is a new player. |
| Acquaintances.AccountIs | src/game.cpp:287-290 | The account of a Telegram number reads back as that number; that of a nick is its IRC account, or itself, in lower case. |
| Acquaintances.GreetedIs | src/game.cpp:1242-1260 | The welcome balloon hangs in the first slot free on him, else in his house, if he has none yet, and never twice. |
| Linking.LinkAgreed | src/game.cpp:480-531 | Accounts change only if the other one asked first, and no request is made in anybody else's name. |
| Agreements.RunAgreed | src/game.cpp:480-531 | Over every run two accounts become one player only if the other one asked for this one at some time before. |
| Agreements.NextRequests | src/game.cpp:480-531 | No transaction but linking files a request, and linking files only its own account's. |
| Linking.LinkBinds | src/game.cpp:533-579 | A link keeps at most one account of each platform to a player. |
| Linking.NothingLost | src/game.cpp:533-579 | Merging keeps the sum of palle, the rides, the holder and quote authorship, and drops at most a welcome balloon. |
| Joining.JoinsExactly | src/game.cpp:480-579 | Two accounts have one player afterwards if and only if they had before, or the other one's request names this one, no third account is either player, and at most one of the two has palle, quotes, the place, a ride or emoji beyond the welcome balloon; the player who stays is the one who has them, the caller if neither does, with his scores, slots, place and rides as they were. |
| Joining.LinkIs | src/game.cpp:480-531 | In each case what linking leaves: one player, the request on file, or nothing changed. |
| Joining.AssetsAre | src/game.cpp:533-555 | Something to keep is a palla, a quote, the place, a ride to or from him, or an emoji besides one balloon. |
| Linking.LinkPlays | src/game.cpp:480-579 | Linking keeps every law and tells what it drops. |
| Linking.InvitePaidOnce | src/game.cpp:2627-2653 | An invite is settled once: asking again changes nothing. |
| Acquaintances.RecordsExactly | src/game.cpp:2597-2625 | An inviter is recorded if and only if the newcomer joined less than three days ago, has none yet and names somebody else there is. |
| Acquaintances.SettlesExactly | src/game.cpp:2627-2653 | After three days played the inviter has a thousand palle more and the newcomer five hundred, once; one person behind both names gets nothing; nobody else's score changes. |
| Linking.HandedOutPlays | src/game.cpp:427-435 | Handing balloons out to everybody on file, in any order, tells each one and keeps the laws. |
| Quoting.AddQuotePlays | src/game.cpp:2476-2507 | A quote takes exactly its cost, told, from one who has it. |
| Acquaintances.QuotesExactly | src/game.cpp:2476-2507 | A quote is added last, under his name and counted, for its cost, if and only if he has the cost and it is not kept already; else nothing changes. |
| Acquaintances.DeletesExactly | src/game.cpp:2543-2565 | The quote at the position read, else the first one with that text, is gone and counts no more for whoever added it; with none such nothing changes. |
| Abandonments.QuoteWhen | src/game.cpp:2476-2507 | A quote is given up if and only if it would be taken and its author has added as many as 64 bits count. |
| Quoting.AddedAndDeleted | src/game.cpp:2543-2565 | Deleting a quote just added by its text restores the quotes and every count if and only if the text does not read as an older one's position. |
| Quoting.OlderGoes | src/game.cpp:2543-2565 | With one quote kept, "1" is added and deleted by its text: the older one goes and "1" stays. |
| Linking.InvitePlays | src/game.cpp:2627-2653 | The only palle an invite brings in are the two rewards, told. |
| Merging.RunsTheSame | src/game.cpp:938-968 | From any lawful state whose strings read back, a run that keeps nothing but the stored strings between transactions is, state for state, the run on slots. |
| Merging.SafeToBuy | src/game.cpp:1486-1590 | A single emoji can be bought in every run, with every house still read back as its slots, if and only if it is closed; a letter cut short at its end is no exception. |
| Merging.HalvesMerge | src/game.cpp:938-968 | A concrete run of two purchases after which two slots are read back as one. |
| Filing.AlwaysReadsBack | src/game.cpp:938-968 | Over every run that buys and carries only closed emoji, each player's stored house and stored gear read back as his slots. |
| Filing.NextFiled | src/game.cpp:1083-1104 | Every transaction keeps every slot, every gift on the road and every lobster's copy empty or closed. |
| Slots.RoundTrip | src/game.cpp:938-968 | Slots that are empty or hold a closed emoji are read back as they were, without empties at the end. |
| Slots.Idempotent | src/game.cpp:938-968 | For every string whatever, reading and storing once is enough: doing it again changes nothing. |
| Slots.ReadSlots | src/game.cpp:938-957 | The loop reads the slots the round-trip theorems are about. |
| Slots.StoreSlots | src/game.cpp:959-968 | The loop writes the string the round-trip theorems are about. |
| Neighbours.ClosedExactly | src/game.cpp:938-968 | A single emoji is read back among closed ones, in whatever slots, if and only if it is closed. |
| Neighbours.CutShort | src/text.cpp:123-148 | An emoji that ends in a letter cut short is not read back with the tail bytes it lacks in the slots after it. |
| Neighbours.HalvesMeet | src/text.cpp:229-232 | Two halves of a flag each pass as one emoji and are read back as one. |
| Emoji.SplitPartitions | src/text.cpp:163-227 | The pieces are nonempty and put together again are the trimmed text. |
| Emoji.SplitClosed | src/text.cpp:163-227 | Closed emoji written one after the other are split into exactly themselves. |
| Emoji.EmojiSplit | src/text.cpp:163-227 | The byte-driven loops find the pieces of the letter-by-letter definition. |
| Emoji.LetterAt | src/text.cpp:123-148 | Reading tail bytes one by one gives the code point, or the lead byte alone when one is missing. |
| Powers.WithoutVariation | src/game.cpp:875-887 | Byte by byte, only the colour selectors are left out before two emoji are compared. |
| Text.TrimCuts | src/text.cpp:34-42 | Trimming removes spaces only, from the two ends only. |
| Text.TrimInPlace | src/text.cpp:34-42 | The two shrinking loops leave the trimmed text. |
| Numbers.ReadDecimal | src/text.cpp:44-57 | Every 64-bit number printed is read back. |
| Position.Bijection | src/position.cpp:8-11 | Ids and points of the square match one to one. |
| Position.Nearest | src/position.cpp:13-17 | The rounded distance is the only integer nearest to the root. |
| Position.Symmetric | src/position.cpp:13-17 | The road there is as long as the road back. |
| Position.Apart | src/position.cpp:13-17 | Two points are no distance apart only if they are the same. |
| Position.Farthest | src/position.cpp:13-17 | No two points of the square are more than 141420 apart. |
| Position.Triangle | src/position.cpp:13-17 | A detour is never shorter than the road by more than one unit. |
| Game.StorageSession.RaidDue | src/game.cpp:2234-2426 | The in-place round, erasing and rewriting rides as it walks them, ends in the state the round's theorems are about. |
| Game.StorageSession.LayEggs | src/game.cpp:1957-1979 | House by house, the eggs laid and the scores paid are those of the ledger. |
| Game.StorageSession.GrowUp | src/game.cpp:2051-2079 | The loop leaves exactly the children that stay, in order, each slot at its age; the source gathers them in a second list, here the others are erased from the first. |
| Game.StorageSession.CourtAll | src/game.cpp:2080-2101 | Each grown girl has her one chance, drawn in the order of the list. |
| Game.StorageSession.Births | src/game.cpp:1994-2045 | Pregnancies due are erased and born in order; the others wait. |
| Game.StorageSession.Land | src/game.cpp:2173-2207 | The effect of each thrown power is the specified one. |
| Game.StorageSession.StartOver | src/game.cpp:1370-1395 | The reset rewrites the player's ride, slots and lists in place as specified. |
| Game.StorageSession.BlowUp | src/game.cpp:2145-2171 | One drawn slot with a power, never a balloon, is emptied. |
| Game.StorageSession.Board | src/game.cpp:1926-1953 | One drawn emoji, neither a child nor a balloon, changes hands. |
| Game.StorageSession.PaySalt | src/game.cpp:2215-2230 | Old knocks are erased, a repeated one pays, a new one is kept. |
| Game.StorageSession.Claim | src/game.cpp:597-738 | Answer and state are those the claim's theorems are about. |
| Game.StorageSession.LoseBolts | src/game.cpp:1321-1336 | The hold is rewritten as the pay theorem assumes, or the transaction is abandoned. |
| Game.StorageSession.RaidStart | src/game.cpp:1766-1920 | Answer and state of setting off and turning back are those of the journey theorems. |
| Game.StorageSession.Buy | src/game.cpp:1486-1590 | Counting copies in houses, on players and on the road gives the stock of the emoji ledger, and the price comes from it. |
| Game.StorageSession.Move | src/game.cpp:1262-1315 | Slots and children are rewritten in place as specified. |
| Game.StorageSession.Take | src/game.cpp:1592-1640 | Answer and state as specified, whatever is swapped. |
| Game.StorageSession.Store | src/game.cpp:1642-1671 | Answer and state as specified. |
| Game.StorageSession.Burn | src/game.cpp:1399-1461 | Answer and state as specified, for a child, a thrown emoji, a nuke and the rest. |
| Game.StorageSession.Speak | src/game.cpp:437-478 | Binding, names, welcome and days played as specified. |
| Game.StorageSession.HandOut | src/game.cpp:427-435 | One welcome after the other ends in the specified state. |
| Game.StorageSession.AddQuote | src/game.cpp:2476-2507 | Answer and state as specified: too poor before duplicate before overflow. |
| Game.StorageSession.DeleteQuote | src/game.cpp:2543-2565 | The quote selected, and no other, is gone and no longer counted. |
| Game.StorageSession.RecordInvite | src/game.cpp:2597-2625 | Only a newcomer in his first days, with no inviter yet and somebody else named, is recorded. |
| Game.StorageSession.Link | src/game.cpp:480-579 | Answer and state as specified, given that accounts are bound once. |
| Sentinel.FindRoot | src/sentinel.cpp:614-621 | Path halving terminates and leaves the representative of every account where it was. |
| Sentinel.Gather | src/sentinel.cpp:628-639 | After all unions two accounts have one root exactly when the pairs found join them, and the pairs are all there are. |
| Sentinel.RootsAreGroups | src/sentinel.cpp:609-640 | Same root if and only if a chain of pairs leads from one account to the other. |
| Sentinel.Report | src/sentinel.cpp:665-687 | Two accounts are told together if and only if a chain of pairs joins them, and each pair is told in exactly one group. |
| Sentinel.LongestSitting | src/sentinel.cpp:90-102 | The result is the length of some sitting and no sitting is longer, whatever the instants; in the order of time no stretch of play without a pause is longer. |
| IrcSession.OnlyVouchedAnswered | src/irc_session.cpp:93-198 | Over every run a command is answered only for a nick whose WHOIS ended after it was identified, at that moment or within the time a registration is kept, with no departure since. |
| IrcSession.AlwaysWaitedFor | src/irc_session.cpp:131-216 | Over every run each pending WHOIS has a line waiting for it. |
| IrcSession.AnsweredOnce | src/irc_session.cpp:59-91 | Over every run in time the answered lines of a nick are among the commands it wrote, each once and in order. |
| IrcSession.AnsweredAtMost | src/irc_session.cpp:59-91 | Over every run, whatever the clock does, no line of a nick is answered more often than it was written. |
| IrcAnswers.VouchedAnswered | src/irc_session.cpp:171-198 | Over every run a command of a nick whose last ended WHOIS identified it, with no departure, reconnection or other WHOIS ended since and its registration not over, is answered at that input, with its own text and the account told. |
| IrcAnswers.AllWaitingAnswered | src/irc_session.cpp:59-91 | Over every run a 318 that ends a WHOIS in which the nick was identified answers every line of his that still waits, in order and with the account told, and no other. |
| IrcAnswers.EveryCommandFares | src/irc_session.cpp:93-216 | Over every run every command written is answered at once if its nick is registered, warned or silenced if it is known not to be, and else still waits, was dealt with as its WHOIS ended, or was given up by a 401, its deadline or a reconnection. |
| IrcAnswers.NoLineLost | src/irc_session.cpp:131-216 | Over every run a line that waits goes on waiting until its WHOIS ends, a 401, its deadline or a reconnection. |
| IrcClass.Session.Handle | src/irc_session.cpp:93-198 | The message handler changes the fields and sends as the run theorems assume. |
| IrcClass.Session.Release | src/irc_session.cpp:67-91 | Erasing lines from the queue while walking it deals with exactly the nick's own, in order. |
| IrcClass.Session.Tick | src/irc_session.cpp:206-216 | Late lines and stale registrations are erased, and no others. |
| IrcClass.Session.Connect | src/irc_session.cpp:42-49 | A new link forgets everything that was known. |
| IrcProtocol.MessageRoundTrip | src/irc_protocol.cpp:45-96 | What is written is parsed back: the command upper-cased and the parameters and text as given, an empty text or one starting with a colon included (section 2.3.1 of RFC 1459). |
| IrcProtocol.ParseLine | src/irc_protocol.cpp:45-78 | The consuming loop gives the message of the definition that round-trips. |
| IrcProtocol.WriteLine | src/irc_protocol.cpp:80-96 | The appending loop gives the line of the definition that round-trips. |
| IrcLines.SplitText | src/irc_protocol.cpp:118-153 | The nested loops end and make exactly the lines the theorem on them is about. |
| IrcLines.LinesCarry | src/irc_protocol.cpp:118-153 | For every text and room: each line is nonempty and short enough; with nothing but dots added and break blanks dropped the lines carry the pieces in order; a piece is carried whole if and only if no cut its loop comes to has more than a line left and only continuation bytes in reach; valid text with room for four bytes always is, in valid lines. |
| IrcLines.BytesLost | src/irc_protocol.cpp:118-153 | A concrete text of two continuation bytes, with room for one, of which nothing is sent. |
| IrcLines.CutMakesLine | src/irc_protocol.cpp:31-37 | With room for a code point, every cut of valid text makes a line. |
| IrcLines.CutFails | src/irc_protocol.cpp:31-37 | A cut makes no line if and only if all bytes there is room for past the first are continuation bytes. |
| IrcLines.BoundaryBeforeLoop | src/irc_protocol.cpp:31-37 | The backward loop finds the largest cut between two code points. |
| Grammar.OneMeaning | src/commands.cpp:45-132 | No message is accepted by two of the four line parsers. |
| Grammar.NamedExactly | src/commands.cpp:58-67 | A line names somebody with more to say if and only if it is the trigger, a valid name, and more that begins with a blank or a line end. |
| Grammar.AmountExactly | src/commands.cpp:58-71 | A line is about so many palle if and only if what follows the name is that number and nothing else. |
| Retired.FaithfulInstead | src/commands.cpp:1909-1948 | The command suggested for a retired line, expanded and parsed again, asks for the same amount, slots and emoji of the same name. |
| Retired.InsteadGiven | src/commands.cpp:1909-1948 | A command is suggested for exactly the lines one of the four parsers accepts, the claim apart. |
| Retired.AmountRead | src/commands.cpp:58-71 | A name and an amount written as a line are read back, for every 64-bit amount. |
| Retired.MoveRead | src/commands.cpp:112-132 | A name and two slots written as a line are read back. |
| Retired.PlacedRead | src/commands.cpp:82-105 | A name, an emoji and a position written as a line are read back. |
| Retired.AdventureAsks | src/commands.cpp:149-160 | "/avventura" alone is the claim; with more it is a line to the place that asks for just that. |
| Retired.MentionRead | src/commands.cpp:134-147 | A command that names the bot it is for is read as the same command with the same argument. |
| Retired.RaidRead | src/commands.cpp:45-51 | A lone name is read back from its raid line if and only if it is not the place's. |
| Retired.CommandExpands | src/commands.cpp:466-509 | A well-formed command is expanded to the verb it names, for every sender. |

## Left out

- Sockets, TLS, HTTP, Telegram polling, threads, signals, JSON, backups and save migrations: I/O; a run starts from a lawful state.
- Replies, help, glossary, leaderboards, profiles, stories of rides, titles: presentation, or only easy members.
- Command dispatch: a run is any sequence of transactions, so every order the dispatcher could produce is covered; the IRC responder is the event `Answered`.
- `std::hypot` and `std::llround`: the nearest integer root, exact on integers.
- The zodiac: it is switched off, so its percent is the constant 100 and no term. The golden hour is a boolean in the rules.
- Sentinel scores and sentences: which pairs reach the points is a parameter, any relation between accounts.
- 64-bit overflow other than where the source guards it (`hold_value`, `settle_hold`, `inflated`, `parse_int64`): integers are unbounded elsewhere.
- Draws that run out while a point of the map is drawn abandon the transaction; elsewhere the first choice is drawn. The source draws without end.
- Names: the player found behind a display name, an old name or an IRC nick is a parameter (`known`, `homewards`, `candidate`, `other`), so every result of those searches is covered. Keys are compared exactly; the source compares some of them ignoring case, so keys are taken to be distinct ignoring case.
- `player_link` takes the first account of a player in file order; with at most one on each platform (`Runs.RunBinds`) the order does not matter.
- A linked player whose display name differs from his key can raid his own house; the model allows it and the ledger balances.
- `equipment_sort_out`: the start-up migration of saves from before there was gear. `debug_set`, `guide_due`: a flag each that nothing else reads.
- Showing quotes and drawing one at random: they change nothing.
- `balloons_hand_out` takes the players on file in any order; the source's order is that of its tables.
- What `raid_due` reports of looks and names: only homecomings are told.
- KICK forgets whoever kicks, not whoever is kicked, and nobody when the bot itself is kicked; the model follows the code.
- IrcSession.AnsweredOnce: takes inputs whose instants never go back; otherwise no order is claimed, only `IrcSession.AnsweredAtMost`.
- Keeping.EggsAnyhow: takes a positive rate, hens that stay and a keeper who has been before; the first round only starts the clock.
- Holds.HoldPays: a pay or a score that does not fit in 64 bits abandons the transaction, as the source throws.
- Runs.RunKeeps: takes closed emoji from the buyer and the raider, as do the other theorems over runs; `Merging.SafeToBuy` is why.
- Runs.RunPalle: takes any emoji, but speaks of slots, which are not the stored strings once an emoji that is not closed is bought.
- Tenures.TenurePaid: takes fires in the order of time, as the clock of the caller gives them.
- Retired.FaithfulInstead: takes names without any space, as the source's own names are; a position is kept on the sender's own name only and a move is always the sender's.

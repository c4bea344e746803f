# Moon Miner, modelled and proved

An SSH space-mining game: an engine that changes one pilot through guarded actions and ticks, and a
save layer that lets terminals come, go, take over and time out without losing a pilot. This project
models the parts whose behaviour is hardest to see from the code and proves what they promise, for
every input, every interleaving and every run.

| part | files | what is proved |
|---|---|---|
| save actors | SaveProtocol, SaveSafety, SaveGuarantees, SaveProgress, SaveActor, PilotIntents | one writer per save, nothing lost, channels and mutex safe, over all interleavings of sessions, ticks, failing writes, takeover and shutdown; a dirty save is stored, a detach released and a shutdown finished once writes work; an action goes through exactly when it is allowed, and a rejected one leaves the save alone |
| hauler ferry | Routes, Ferry | Dijkstra over rated gates is optimal, "locked" means no path, the price is the distance at the tariff, and the way back is as open and as long as the way there |
| cargo ledger | Sums, CargoLedger | tribute exact and shared in proportion, provenance and value conserved over whole careers |
| mining run | MiningRun, MiningSafety, MiningYield, MiningEffects, MiningTicks, MiningDamage, MiningSortie | ore conserved, drilling brings in rate times time, events, points, contacts, burns and fights take the time and fuel they should, phases never go back, outcomes mean what they say, remnants exact |
| escape | MiningEscape, CombatEscape, DryFlight, DryFight, RoundedFlight | a bound on every plain escape and on every flight under fire with the fuel for it, the autopilot equals the live game and resolves a run from every phase, and what an empty tank does: the exact condition of the formulas, and an end within computable ticks once numbers are rounded |
| damage | Damage, MiningDamage | how ticks are split does not matter, over a whole run no damage is lost or made up, and shields recharge in their time |
| fuel | FuelTanks | any number of tanks is one bounded counter |
| dockyard | Shipyard, ShipyardMoves, ShipyardGuarantees, ShipyardSafety, ShipyardEffects, ShipyardCareer, ShipyardDock | when an order goes through, what it costs and what it delivers; no money pump, devices permuted, power, uniqueness and cargo room kept, from a new pilot on |
| fleet | Berths, Fleet, FleetFlights, FleetHangar | a flight burns exactly its route's fuel, never stranded, the Skiff can fly home, and a loss takes exactly one ship |
| belt and saves | Belt, Migration, MigrationEffects | arrival guarantees, what each old device, ship and account becomes, and migrations that run once |
| layout | FlexLayout | largest-remainder allocation with checked 64-bit products |

Conventions. Float64 is modelled by `real`; `Round` is floor(x + 1/2), which is Go's rounding on the
non-negative values it is used on. A random draw is an input of the step that makes it. Powers and
sines enter as inputs with only their range assumed. What the content validators check at start-up
(positive tick rate, percentages in range, at least one pirate, reciprocal links, a free starter ship)
is a precondition, and play is without the developer actions. Code that updates objects is modelled by
classes and methods whose contracts equate the new state with a specification function and add what a
caller relies on; the laws are proved about those functions.

Three results go against what one might expect of the code:

- By its formulas alone, a ship that flees combat with an empty tank need not ever get away. The tick is
  cut to the burn time still missing (combat.go:330-334) and the empty-tank penalty then moves the finish,
  so in exact arithmetic the gap can shrink geometrically and never close. `DryFight.NeverResolvedExactlyWhen`
  and, for any fuel and any guns, `CombatEscape.FlightNeverEndsExactlyWhen` give the exact condition. What
  ends such a flight is rounding: the gap is below any size after a number of ticks known beforehand
  (`DryFlight.StalledGapIsSmall`), and once an open gap has a least size every such flight is over
  (`RoundedFlight.RoundedFlightsEnd`), with the shipped rates in doubles within 1800 of the autopilot's
  10000 ticks (`RoundedFlight.ShippedFlightsEnd`).
- The tribute's correction branch (run.go:235-238) is never taken, and neither is the attack damage in a
  plain escape (run.go:499-501): `CargoLedger.DemandIsBorne`, `MiningSafety.OreIsConserved`.
- The free Skiff of AcquireShip (ships.go:602-606) is never owed: `Fleet.NeverStranded`,
  `ShipyardSafety.NoSkiffIsOwed`.

## Model

| member | source | states |
|---|---|---|
| `SaveSafety.StepKeeps` | internal/game/actor.go:53-158 | every atomic step of a session, an actor, a failing or succeeding write or a shutdown keeps the protocol's invariant |
| `SaveGuarantees.ReachableOk` | internal/game/manager.go:72-222 | the invariant holds after every interleaving from an empty manager over any disk |
| `SaveGuarantees.SingleWriter` | internal/game/manager.go:99-118 | two unfinished actors of one save are the same actor, and it is the registered one |
| `SaveGuarantees.NothingIsLost` | internal/game/actor.go:134-158 | an attached save that is not dirty is on disk as it is in memory; one that has left the registry is on disk unless shutdown reported its failed flush |
| `SaveGuarantees.ShutdownSavesAll` | internal/game/manager.go:182-222 | shutdown finished without error: registry empty, every actor done and ownerless, every save on disk |
| `SaveGuarantees.ChannelsAreSafe` | internal/game/session.go:52-63 | no snapshot goes to a closed channel, no channel closes twice, no actor is stopped twice |
| `SaveGuarantees.OnlyOwnersChangeState` | internal/game/session.go:71-89 | which steps can change a pilot in memory, and that the session doing it owns the actor |
| `SaveGuarantees.StaleDetachIsHarmless` | internal/game/manager.go:147-167 | a displaced session's detach resolves, stops and evicts nothing; at most it writes the owner's dirty save |
| `SaveGuarantees.WritesAreTheOwners` | internal/game/actor.go:134-158 | a row changes only by creation or by its registered actor, never with an open run and nobody attached |
| `SaveGuarantees.LeavesOnlyClean` | internal/game/manager.go:169-180 | a save leaves the registry only finished, ownerless and clean, or with its failure recorded by shutdown |
| `SaveGuarantees.RevisionsGrow` | internal/game/actor.go:162-167 | revisions never fall and rise exactly at the ticks, intents and snapshots of the owner |
| `SaveGuarantees.MutexIsReleased` | internal/game/manager.go:169-180 | whoever holds the registry mutex can free it in at most two steps of its own or its actor's |
| `SaveGuarantees.ClosedForGood` | internal/game/manager.go:75-77 | once closing, no run of steps adds a session or an actor |
| `SaveGuarantees.ShowsNewest` | internal/tui/game.go:281-286 | however snapshots are reordered, the terminal ends on the newest and never goes back |
| `SaveProgress.ActionsTakeEffect` | internal/game/session.go:71-89 | an owner's intent and a watched tick are what the pilot in memory then is; an accepted intent and a tick make the save dirty |
| `SaveProgress.AutosaveStores` | internal/game/actor.go:134-158 | from any reachable state a stored autosave of an attached, dirty save makes it clean and puts it on disk; a failed one leaves it dirty |
| `SaveProgress.AttachSucceeds` | internal/game/manager.go:99-136 | whoever the policy lets in is let in, in two steps, and then owns the one registered actor of the save |
| `SaveProgress.DetachReleases` | internal/game/manager.go:147-180 | an owner who leaves over a working store, with a run that resolves, is gone after three steps: actor finished, save durable and out of the registry |
| `SaveProgress.ShutdownFinishes` | internal/game/manager.go:182-222 | from every reachable state a shutdown whose writes are stored and whose runs resolve can run to its end without an error, every save on disk |
| `PilotIntents.Pilot.Perform` | internal/game/session.go:71-89 | dock orders, sales, refuels, ferries, jumps and the keys of a run: one goes through exactly when it is allowed and changes then its own part alone, and one that is rejected leaves everything saved, and the run's being open, as it was |
| `PilotIntents.Pilot.Intend` | internal/game/session.go:79-83 | so each is an enabled step of the save protocol under any encoding, and keeps its invariant |
| `SaveActor.LiveActor.PersistNow` | internal/game/actor.go:134-158 | a stored write of a dirty keyed save, attached or without an open run, reports no error, leaves it clean and its row on disk, and a failed one leaves it dirty; never a guest's save or an abandoned run, and its own row only |
| `SaveActor.LiveActor.Attach` | internal/game/manager.go:125-136 | refused exactly for a keyed save with an owner under the refuse policy, and then without a trace; otherwise the old owner is to be kicked and no clean save is left untruthful |
| `SaveActor.LiveActor.Act` | internal/game/session.go:71-89 | nothing happens for a session that is not the owner; an accepted intent, or a rejected one that left the saved part alone, never leaves a clean save that is not on disk |
| `SaveActor.LiveActor.Leave` | internal/game/manager.go:147-167 | the owner is released, nobody else's detach touches pilot or owner, and an actor that stops has its keyed save on disk |
| `SaveActor.LiveActor.Finish` | internal/game/actor.go:91-97 | after the last flush a keyed save is on disk or its failure is recorded |
| `Routes.PromotionNeverHurts` | internal/content/jump.go:49-57 | a higher rating keeps every route open and never makes one dearer |
| `Routes.PathsAreChains` | internal/sim/ferry.go:48-59 | an admitted path is exactly a chain of charted links whose gates the rating opens |
| `Routes.PathsPayTheirGates` | internal/sim/jump.go:23-25 | it burns what its gates take, times the ship's factor |
| `Routes.PathsReverse` | internal/content/content.go:569-577 | links are reciprocal and gates have no direction, so a path flown backwards is a path at the same rating and fuel |
| `Routes.TheWayBack` | internal/content/jump.go:49-57 | a route is open exactly when its way back is, and their least fuel is the same |
| `Ferry.Frontier` | internal/sim/ferry.go:29-60 | any admitted path ends in a settled system at no less than its cost, or has burnt as much as the cheapest open one |
| `Ferry.Cheapest` | internal/sim/ferry.go:32-41 | the open system of least cost, or none if and only if nothing is open |
| `Ferry.Relax` | internal/sim/ferry.go:48-59 | relaxing the links of a final system keeps the search's invariant with that system settled |
| `Ferry.CheapestRoute` | internal/sim/ferry.go:29-60 | ends; finds a route if and only if one exists, also from a system that is not charted, and then its fuel is the least of all admitted paths |
| `Ferry.CheapestPrice` | internal/sim/ferry.go:45-47 | the rounded price of the cheapest route is at most that of any other |
| `Ferry.Pilot.FerryPrice` | internal/sim/ferry.go:9-61 | quoted exactly when docked, an owned ship that is not the active one, a visited charted system elsewhere and a path; the quote is within half a credit of distance * markup * price per point, and each refusal comes under its own guard |
| `Ferry.Pilot.FerryShip` | internal/sim/ferry.go:62-74 | pays exactly the quote, to within half a credit of the distance at the tariff, and moves that one ship; an error moves and costs nothing |
| `CargoLedger.ShareIsLarge` | internal/sim/run.go:257-262 | (total - demand) * (total - portion) >= 0 makes the rounded share at least demand + portion - total |
| `CargoLedger.PortionIsFair` | internal/sim/run.go:257-262 | a portion loses the fraction of itself that the whole loses, to within half a credit |
| `CargoLedger.PortionLossFits` | internal/sim/run.go:257-262 | a portion loses at most what it has and is asked, and leaves no more than the rest can bear |
| `CargoLedger.UnitsFollowValue` | internal/sim/run.go:264-269 | units lost keep the value per unit |
| `CargoLedger.ReducedKeeps` | internal/sim/frontier.go:116-132 | in any order of the origins none goes negative, and what no origin bears never exceeds the unrecorded cargo |
| `CargoLedger.ReducedIsFair` | internal/sim/frontier.go:116-132 | in any order each origin loses its fair part of what is still to be charged, to within half a credit |
| `CargoLedger.DemandIsBorne` | internal/sim/run.go:230-238 | the demand is the rounded percentage, both parts can bear their share, and the correction is never needed |
| `CargoLedger.TributeIsExact` | internal/sim/run.go:239-247 | exactly the demand leaves the two holds, and the run's lost units are jettisoned |
| `CargoLedger.TributeIsFair` | internal/sim/run.go:230-249 | the demand is the percentage to within half a credit, both holds and the origins pay in proportion, and units go with the value |
| `CargoLedger.ApplyKeeps` | internal/sim/run.go:711-726 | every booking keeps the ledger sound and traced |
| `CargoLedger.BigBookingsCount` | internal/sim/run.go:699-733 | in a career a tribute is fair, a sale pays for everything in full, and a run's end banks the haul or loses it all |
| `CargoLedger.FreshPilotsAreTraced` | internal/sim/economy.go:39-69 | over any career of a new pilot origins add up to the cargo, systems' sales to the total, every credit mined is in the run, held, sold, surrendered or lost, and the purse is the start-up money plus sales and redeemed bounties less spending |
| `CargoLedger.Hold.ReduceOrigins` | internal/sim/frontier.go:118-132 | the loop over origins in place cuts each by its fair part, to within half a credit, and none below zero |
| `CargoLedger.Hold.AcceptTribute` | internal/sim/run.go:230-249 | the in-place payment, correction included: the demand is the percentage, and stored hold, run and origins pay in proportion, to within half a credit each |
| `CargoLedger.Hold.Resolve` | internal/sim/run.go:711-726 | a lost ship zeroes the hold; otherwise the haul is banked under the system it was mined in |
| `CargoLedger.Hold.SellCargo` | internal/sim/economy.go:39-69 | refusals; otherwise cargo and vouchers become credits in full, hold and origins are empty, and each origin's value is booked to its system whatever order the map yields |
| `Damage.SplittingDoesNotMatter` | internal/sim/run.go:645-697 | any sequence of hits leaves what one blow of the totals leaves: shield, burst, floored hull loss and carry |
| `Damage.DamageIsConserved` | internal/sim/run.go:669-697 | until the hull is gone, absorbed + hull lost + carry change = damage dealt |
| `MiningDamage.TickStrikes` | internal/sim/run.go:329-390 | a tick deals exactly its surge, bleeding, fire or attack, unless the belt falls in |
| `MiningDamage.RunDamageIsConserved` | internal/sim/run.go:645-697 | over any run the ship survives, absorbed + hull lost + carry change = the damage of all its ticks, and the ship is as one blow of the totals leaves it |
| `Damage.RechargeIsSmooth` | internal/sim/slots.go:495-521 | recharge stays within the maximum, never loses charge, and two ticks equal one as long as both |
| `Damage.RechargeTakesItsTime` | internal/sim/slots.go:495-521 | the whole maximum in the shield's seconds and in proportion for a part of it, until a sound shield is full and a burst one back to its share |
| `MiningSafety.DrillingKeeps` | internal/sim/run.go:409-436 | drilling keeps the ore accounts and stays within rock and hold |
| `MiningYield.TickYields` | internal/sim/run.go:409-436 | a tick that drills brings in rate times time, but no more than is left of rock and hold, and the haul is worth its share of the rock |
| `MiningYield.DrillingYields` | internal/sim/run.go:409-436 | so over any ticks that drill, however the time is cut |
| `MiningYield.TwoTicksAreOne` | internal/sim/run.go:413-420 | two drilling ticks bring in what one as long as both does |
| `MiningYield.DrillingFinishes` | internal/sim/run.go:464-481 | whoever drills as long as the smaller of rock and room takes has emptied the one or filled the other |
| `MiningEffects.DrillingDrinks` | internal/sim/run.go:421-431 | what a drilling tick burns, with a surge and a fuel vein, to the tank's brim |
| `MiningSafety.FuelVeinPaysBack` | internal/sim/run.go:421-431 | a vein at recovery 1 returns exactly the fuel burnt, above 1 at least as much |
| `MiningSafety.BonusKeeps` | internal/sim/skillcheck.go:116-131 | a struck pressure point takes no more ore than there is or fits |
| `MiningSafety.SpentPointsStay` | internal/sim/skillcheck.go:38-90 | a point that was hit or missed stays so |
| `MiningEffects.PointsLightUp` | internal/sim/skillcheck.go:38-75 | the first untouched point lights up when its time has come, however the ticks are cut, and not before |
| `MiningEffects.PointsAreMissed` | internal/sim/skillcheck.go:47-57 | a lit point that nobody strikes is missed when its window is over, and not before |
| `MiningEffects.PointsGoOut` | internal/sim/skillcheck.go:38-45 | once there is no more to mine a lit point goes out unspent, and without an untouched one nothing lights up |
| `MiningEffects.StrikesPay` | internal/sim/skillcheck.go:102-133 | a struck point pays its percentage of what rock and hold still allow |
| `MiningSafety.ApproachIsSmooth` | internal/sim/run.go:443-459 | jamming holds pirates off for exactly its time however ticks are cut |
| `MiningEffects.ContactsApproach` | internal/sim/run.go:443-459 | the contact comes nearer by its speed for the time that no jammer holds it; a blackout hides it |
| `MiningTicks.QuietRunsGoOn` | internal/sim/run.go:392-462 | a quiet run goes on unharmed while the contact is away, and after any number of ticks it is nearer by speed times unjammed time |
| `MiningTicks.QuietRunsAreMet` | internal/sim/run.go:524-544 | and the tick that brings it here is met with the EMP, a demand or a fight |
| `MiningEffects.MeetingsLead` | internal/sim/run.go:524-544 | when an arrival is held off by the EMP, when it ends in a tribute, when in combat, and when combat starts with the burn running |
| `MiningEffects.KeysDo` | internal/sim/combat.go:115-163 | what leaving, refusing, fighting and fleeing start |
| `MiningEffects.TributesArePaid` | internal/sim/run.go:216-255 | a tribute that is accepted is paid, fairly, and the ship leaves with what it has left aboard |
| `MiningTicks.DemandsLapse` | internal/sim/run.go:359-363 | a demand that is not answered in time is refused |
| `MiningSafety.PaidAccounts` | internal/sim/run.go:216-255 | a tribute takes the demand and leaves the rock's account alone |
| `MiningSafety.TributeIsFair` | internal/sim/run.go:230-249 | stored cargo and run pay the percentage in proportion, to within half a credit each, and either hold is thinned in step with its value |
| `MiningSafety.EventsKeep` | internal/sim/events.go:19-108 | an event keeps the run's invariant once the finish is recomputed by its formula, and without that in every phase but an escape |
| `MiningTicks.EventsComeFirst` | internal/sim/run.go:329-348 | every tick of any phase runs its events |
| `MiningTicks.TicksWork` | internal/sim/run.go:350-367 | and then does the work of its phase: drill and pressure points, the burn, or the fight |
| `MiningEffects.EventsComeWhenDue` | internal/sim/events.go:44-76 | an event comes exactly when drawn with none active or cooling down, on a hull below the gate, outside tributes and fights, and for its kind's own time |
| `MiningEffects.EventsRunTheirCourse` | internal/sim/events.go:19-42 | it lasts for its time however ticks are cut, leaves broken life support behind while mining, and then the cooldown |
| `MiningEffects.CooldownsRunOut` | internal/sim/events.go:34-42 | the cooldown is over when its time is |
| `MiningEffects.ShiftsLengthen` | internal/sim/events.go:77-108 | a cargo shift lengthens an escape under way and every later one by its factor, and nothing else does |
| `MiningSafety.TickOk` | internal/sim/run.go:329-390 | one tick keeps the invariant with the hull whole, or ends the run for the reason its outcome names |
| `MiningSafety.ActOk` | internal/sim/combat.go:115-163 | so does every accepted action of the pilot |
| `MiningSafety.RunKeeps` | internal/sim/run.go:329-390 | over any run phases never go back, drilling happens only while mining, outcomes mean what they say |
| `MiningSafety.OreIsConserved` | internal/sim/run.go:392-438 | extracted = held + jettisoned within rock and hold, at most one EMP, tribute and attack exclusive, no escape under attack |
| `MiningSafety.RemnantIsWhatIsLeft` | internal/sim/run.go:735-752 | a remnant is within one unit of what is left, and the rock goes exactly when lost, exhausted by a departure, or below the threshold |
| `MiningSafety.ValueIsShared` | internal/sim/run.go:786-805 | remnant and haul together are worth the asteroid to within one credit |
| `MiningEscape.UnfinishedBurn` | internal/sim/run.go:498-522 | an unfinished burn after n ticks is still short of base * f^shifts + cap |
| `MiningEscape.EscapeEnds` | internal/sim/run.go:306-327 | with at most k shifts the run is resolved after n ticks once n * dt >= base * f^k + cap |
| `MiningEscape.ShiftsAreSpaced` | internal/sim/events.go:26-42 | k shifts of one escape take at least k - 1 spacings of duration plus cooldown |
| `MiningEscape.EscapeEndsAnyway` | internal/sim/events.go:90-97 | an escape ends whatever is drawn, once its bound with k shifts comes before k spacings |
| `MiningEscape.ShippedEscapesEnd` | internal/sim/run.go:306-327 | with the shipped rates a plain escape of up to fourteen seconds ends within 112 ticks whatever is drawn |
| `MiningEffects.LoadsSlow` | internal/sim/run.go:306-327 | a fuller hold never gets away faster; an empty one takes the base time, a full one that and the whole penalty, each times thrusters and shifts |
| `MiningEffects.BurningDrinks` | internal/sim/run.go:510-522 | what a second of the burn costs, and what an empty tank adds to it |
| `MiningEscape.LiveStays` | internal/sim/run.go:616-620 | once a run has ended more ticks change nothing |
| `MiningEscape.EmergencyMatchesLive` | internal/sim/run.go:546-622 | the autopilot reports the live end whenever that comes within its budget, and otherwise leaves the run standing |
| `CombatEscape.BurnIsSteady` | internal/sim/run.go:510-522 | with fuel for the burn at its thirstiest, or a capped penalty, a tick brings the finish nearer by its whole length and this stays so |
| `MiningEffects.FightsGoOn` | internal/sim/combat.go:298-360 | a combat tick is cut to the first thing that ends the fight, and for that long autocannon and burn work |
| `MiningEffects.HitsTell` | internal/sim/combat.go:181-260 | a hit takes its damage off the pirate, and the one that uses up the hull wins |
| `CombatEscape.FleeingEnds` | internal/sim/combat.go:298-360 | such a flight from a fight is away, won or lost after any n ticks that cover the time to go |
| `CombatEscape.RunsDry` | internal/sim/run.go:510-522 | a flight that is still on when those ticks are over has run dry in one of them |
| `CombatEscape.FlightNeverEndsExactlyWhen` | internal/sim/combat.go:325-350 | in exact arithmetic, whatever fuel and guns are aboard: no number of ticks resolves a flight if and only if within those ticks the tank is dry at a state that is stuck |
| `CombatEscape.EmergencyResolves` | internal/sim/run.go:581-622 | a pilot who leaves in any phase is resolved within the budget whenever n of its ticks cover the burn that the autopilot starts or takes over |
| `CombatEscape.AbandonedFightEnds` | internal/sim/run.go:590-605 | in particular leaving over a tribute or in a fight with fuel for the base time: resolved within the ticks that cover the base time |
| `DryFlight.CombatTickIsDry` | internal/sim/combat.go:325-350 | the burn part of a combat tick without fuel is the dry timer, unless the autocannon decides the tick |
| `DryFlight.NeverEndsExactlyWhen` | internal/sim/combat.go:330-350 | in exact arithmetic the dry timer never finishes if and only if 0 < rate < 1 and rate * (time dry + gap / (1 - rate)) <= cap |
| `DryFlight.StalledGapIsSmall` | internal/sim/combat.go:330-334 | a stalled gap is below any eps after m + k ticks that can be computed beforehand: m whole ones, then k that shrink it like rate^k <= rate / (rate + k * (1 - rate)) |
| `DryFlight.ShippedRatesStall` | internal/sim/run.go:517-521 | in exact arithmetic, with rate 0.6 and cap 6, a tank running dry stalls the burn if and only if at most four seconds are to go |
| `DryFight.StaminaLasts` | internal/sim/run.go:669-697 | an attack wears shield plus hull less carry point by point, and the hull lasts as long as that sum |
| `DryFight.LiveIsDry` | internal/sim/combat.go:298-360 | while a dry fight goes on stamina, the autocannon's time to win and the flight wear down second by second together |
| `DryFight.NeverResolvedExactlyWhen` | internal/sim/combat.go:298-360 | in exact arithmetic, the whole machine: a dry flight is unresolved after every number of ticks if and only if the timer stalls, the ship can take all the fire it will draw, and the autocannon would need at least as long as the flight |
| `DryFight.BailingEnds` | internal/sim/run.go:195-211 | a pilot with a dry tank who bails before the pirate arrives is away or lost within 112 ticks |
| `RoundedFlight.CutTick` | internal/sim/combat.go:330-339 | on a machine that rounds, a tick cut to the gap leaves the next one cut too, keeps only the leak of what is left, and takes at least the kept part of a quantum |
| `RoundedFlight.RoundedFlightsEnd` | internal/sim/run.go:510-522 | whatever the rounding does within its sizes, every dry flight reaches its finish within m + k + l ticks computed from them |
| `RoundedFlight.ShippedFlightsEnd` | internal/sim/run.go:612-621 | with the shipped rate and tick and the sizes of double precision, up to twenty seconds to go are over within 1800 ticks of the budget |
| `RoundedFlight.ExactTickIsRounded` | internal/sim/combat.go:330-339 | the exact tick is such a tick without error if and only if it leaves no gap below the quantum |
| `RoundedFlight.GridTickIsRounded` | internal/sim/run.go:510-522 | fixed-point numbers on any grid are such a machine |
| `MiningSortie.Sortie.TickRun` | internal/sim/run.go:329-390 | the in-place tick is the specified tick: it keeps the accounts with the hull whole or ends the run for the reason it gives, and a tick that drills brings in rate times time up to what rock and hold still allow |
| `MiningSortie.Sortie.Press` | internal/sim/combat.go:115-163 | a key is refused exactly when the phase does not allow it, and then without a trace; otherwise it is a step that keeps what every step keeps |
| `MiningSortie.Sortie.AcceptTribute` | internal/sim/run.go:216-255 | exactly the demand leaves the two holds, in proportion to within half a credit, the rock's account is untouched, and the escape begins |
| `MiningSortie.Sortie.EmergencyResolve` | internal/sim/run.go:581-622 | the bounded loop is the live game up to its budget, and the run has ended when n of its ticks cover the burn |
| `MiningSortie.Sortie.ResolveRun` | internal/sim/run.go:735-752 | the whole haul is banked, or everything lost with the ship; what is banked fits the hold, and rock and haul are worth the asteroid to within one credit |
| `MiningSortie.Sortie.HitByPirates` | internal/sim/run.go:669-685 | shield absorbed + hull lost + carry change = the damage, until the hull is gone |
| `FuelTanks.DrainCounts` | internal/sim/ships.go:368-392 | burning takes min(amount, total) and keeps every tank in bounds |
| `FuelTanks.DrainsInOrder` | internal/sim/ships.go:378-389 | a later tank goes down only once earlier ones are empty |
| `FuelTanks.FillCounts` | internal/sim/ships.go:394-421 | filling accepts min(amount, space) and keeps every tank in bounds |
| `FuelTanks.FillsInOrder` | internal/sim/ships.go:405-418 | a later tank goes up only once earlier ones are full |
| `FuelTanks.OneWayOnly` | internal/sim/ships.go:368-421 | burning never fills a tank and filling never empties one |
| `FuelTanks.NormalizedKeepsFuel` | internal/sim/state.go:715-722 | redistribution on load keeps the total whatever was stored, and is idempotent |
| `FuelTanks.NormalizedInOrder` | internal/sim/ships.go:316-332 | after it no later tank holds a drop while an earlier one has room |
| `FuelTanks.ManyTanksAreOneCounter` | internal/sim/ships.go:262-421 | any run of burns, refuels and loads acts on the total as one bounded counter |
| `FuelTanks.RefuelTopsOff` | internal/sim/economy.go:74-99 | a refuel never overdraws, leaves nothing to buy when the price is in hand, and otherwise stops at the last affordable point |
| `FuelTanks.RefuelSellsWhatIsMissing` | internal/sim/economy.go:74-99 | when a refuel sells and when it refuses for what; never a point that is not missing or not paid, and it leaves off only when nothing visible is missing or nothing more can be paid |
| `FuelTanks.Ship.FuelAmount` | internal/sim/ships.go:262-274 | the clamped total of tanks and reserve |
| `FuelTanks.Ship.ConsumeFuel` | internal/sim/ships.go:370-392 | the loop over tanks drains as specified, returns what was burnt, and keeps the mirror |
| `FuelTanks.Ship.AddFuel` | internal/sim/ships.go:397-421 | the loop over tanks fills as specified, returns what was accepted, and keeps the mirror |
| `FuelTanks.Ship.SetFuel` | internal/sim/ships.go:312-332 | a hand-out to the first tanks first |
| `FuelTanks.Ship.SyncMirror` | internal/sim/ships.go:350-366 | levels cut to bounds and the mirror equal to their total |
| `FuelTanks.Ship.Normalize` | internal/sim/state.go:715-722 | what loading does to the tanks |
| `FuelTanks.Ship.Refuel` | internal/sim/economy.go:74-99 | each refusal under its own guard, and exactly the bought points poured in |
| `ShipyardMoves.OrdersMoveDevices` | internal/sim/slots.go:967-1270 | for any measure of devices, buying adds one, selling removes one, storing and re-equipping change nothing |
| `ShipyardMoves.GrantMoves` | internal/sim/ships.go:542-560 | a granted Skiff comes empty, and the one it displaces keeps its devices under a free name |
| `ShipyardGuarantees.SellsForLess` | internal/sim/slots.go:1029-1034 | a device sells for no more than its price and neither is negative |
| `ShipyardEffects.PricesFollowTheCurve` | internal/sim/slots.go:171-176 | a price is the base price times the curve once per grade, a resale its fraction of that, each to the nearest credit |
| `ShipyardEffects.TracksFollowTheCurve` | internal/sim/ships.go:194-202 | a track's next grade costs base * tier * curve^grade, to the nearest credit |
| `ShipyardEffects.HullsFollowTheList` | internal/sim/ships.go:562-578 | a hull costs its list price; a buyback a multiple of ten within five of the discounted one |
| `ShipyardEffects.GradesCostMore` | internal/sim/slots.go:171-176 | a better grade is never cheaper |
| `ShipyardGuarantees.OrdersNeverEnrich` | internal/sim/slots.go:1062-1079 | credits plus resale value never grow, and stay equal under store, sell, re-equip and switch; credits stay non-negative |
| `ShipyardGuarantees.NoMoneyPump` | internal/sim/ships.go:598-637 | so over any sequence of orders |
| `ShipyardGuarantees.StoringPermutes` | internal/sim/slots.go:1036-1060 | storing and re-equipping keep every device, its grade and the fuel in it |
| `ShipyardGuarantees.NothingIsDuplicated` | internal/sim/slots.go:1212-1270 | over any sequence of orders no device is in two places |
| `ShipyardSafety.PutCargo` | internal/sim/slots.go:1092-1104 | the capacity the check computes is the capacity the ship then has |
| `ShipyardSafety.FittedIsReady` | internal/sim/slots.go:1113-1130 | a fitted shield is full, jammer charged, EMP armed, launchers loaded |
| `ShipyardEffects.FittingSparesTheRest` | internal/sim/slots.go:1113-1130 | fitting leaves charge and jammer alone unless it is a shield or a jammer |
| `ShipyardEffects.SettlingKeepsWhatFits` | internal/sim/slots.go:549-563 | after a removal the shield keeps the charge and the launchers the missiles that still fit |
| `ShipyardEffects.DevicesAdd` | internal/sim/slots.go:357-380 | what a device adds in an empty slot: its power, and a cargo module its space |
| `ShipyardEffects.BareHulls` | internal/sim/slots.go:245-284 | a bare hull draws nothing, holds its model's cargo and has no shield |
| `ShipyardEffects.ShieldsHold` | internal/sim/slots.go:429-441 | the one shield aboard holds its charge per grade and one more |
| `ShipyardSafety.OrdersKeepYard` | internal/sim/slots.go:967-1270 | every order keeps power, places, uniqueness, shield rules and charge on every ship, and the cargo in the active hold |
| `ShipyardSafety.YardStaysOk` | internal/sim/slots.go:395-407 | so through any sequence of orders |
| `ShipyardSafety.NoSkiffIsOwed` | internal/sim/ships.go:602-606 | a pilot in order has a ship here, so the free Skiff is never owed |
| `ShipyardCareer.OrdersAreHonest` | internal/sim/slots.go:967-1270 | no order makes richer or overdrawn, puts a yard out of order or a device in two places, and a refused one changes nothing |
| `ShipyardEffects.OrdersGoThrough` | internal/sim/slots.go:967-1270 | an order goes through exactly when docked, what it names is there, the purse covers it, and the ship would be in order and the cargo aboard afterwards |
| `ShipyardEffects.OrdersTakeEffect` | internal/sim/slots.go:967-1270 | what each order has done: the charge by the price law, the device in its slot, the old one in storage or sold, every other slot and ship as before |
| `ShipyardEffects.PurchasesArePaid` | internal/sim/ships.go:617-622 | who buys a ship pays the list price, or on a buyback the discount |
| `ShipyardCareer.NewPilotsAreInOrder` | internal/sim/state.go:471-492 | a new pilot's yard is in order, without doubles, and worth its start-up money |
| `ShipyardCareer.CareersAreHonest` | internal/sim/ships.go:598-659 | so after any sequence of orders of a new pilot the yard is in order, nothing doubled, nothing overdrawn, and never worth more than the start-up money |
| `ShipyardDock.Dock.InstalledPower` | internal/sim/slots.go:260-284 | the loop over slots sums the power |
| `ShipyardDock.Dock.FindOther` | internal/sim/slots.go:382-393 | finds another device of the item if and only if there is one |
| `ShipyardDock.Dock.Install` | internal/sim/slots.go:967-1020 | installing: goes through exactly when it should, charges by the price law, puts the new device in the slot; honest, and without a trace when refused |
| `ShipyardDock.Dock.Store` | internal/sim/slots.go:1040-1057 | storing: goes through exactly when it should, and moves the device to storage; honest, and without a trace when refused |
| `ShipyardDock.Dock.Sell` | internal/sim/slots.go:1062-1079 | selling: as for storing, for the resale price |
| `ShipyardDock.Dock.Replace` | internal/sim/slots.go:1136-1188 | replacing: as for installing, with the old device's resale counted in |
| `ShipyardDock.Dock.Equip` | internal/sim/slots.go:1218-1270 | re-equipping from storage: as for installing, for no money |
| `ShipyardDock.Dock.BuyTrack` | internal/sim/ships.go:206-234 | a track grade: charged by the price law, one grade up on that track and nothing else |
| `ShipyardDock.Dock.Acquire` | internal/sim/ships.go:598-637 | a ship: the free Skiff first when nothing is here, with the remote one moved aside; otherwise the list price or the discount is paid and spent, and a bare hull of the model is here; honest, and without a trace when refused |
| `ShipyardDock.Dock.GrantStarter` | internal/sim/ships.go:542-560 | the grant in place keeps every other ship, and a parked Skiff under another name |
| `ShipyardDock.Dock.Switch` | internal/sim/ships.go:641-659 | changing ships: refused when remote or too small for the cargo, free otherwise, and nothing else changes |
| `Fleet.JumpIsHop` | internal/sim/jump.go:27-51 | the checks before a jump make it a hop the rating admits in a ship that can make it |
| `FleetFlights.JumpsOpen` | internal/sim/jump.go:26-66 | a docked pilot may jump exactly over the hops that the rating opens and the fuel covers |
| `FleetFlights.JumpsMove` | internal/sim/jump.go:79-126 | exactly the gate's fuel is burnt, a bloom spills its share of the rest, the hull bears the stress in whole points down to its last, and pilot and ship land together |
| `FleetFlights.FlightsBurnTheRoute` | internal/sim/jump.go:55-126 | a flight along a path without refuels, blooms or misalignments can be flown exactly when the rating opens the path and its fuel is aboard, and burns just that |
| `FleetFlights.TheFerryKnowsTheWay` | internal/sim/ferry.go:9-61 | so a pilot who flies somewhere burns at least the distance that the ferry charges for |
| `Fleet.JumpKeeps` | internal/sim/jump.go:79-126 | a jump never breaches the hull or overdraws fuel, lands where it should, and keeps the fleet's invariant |
| `Berths.BerthIsFree` | internal/sim/ships.go:549-555 | the search for a displaced Skiff's name always finds a free one |
| `Berths.FindBerth` | internal/sim/ships.go:549-555 | the loop over names ends at the first free one |
| `Fleet.LossKeepsTheRest` | internal/sim/ships.go:661-696 | every surviving ship keeps its place and condition and the pilot ends in a local one |
| `Fleet.KeptApart` | internal/sim/ships.go:549-555 | surviving ships keep separate names |
| `Fleet.LossAddsOnlyASkiff` | internal/sim/ships.go:661-696 | only the destroyed ship goes and only a new Skiff can come |
| `FleetFlights.LossesBereave` | internal/sim/ships.go:661-696 | what a loss records, and that a fallback that was not owned before is a new Skiff |
| `FleetFlights.StepsDoWhatTheyName` | internal/sim/ships.go:598-659 | ferry, switch, purchase, rating, departure and return each change just what they name |
| `FleetFlights.ServicesServe` | internal/sim/economy.go:74-99 | a repair restores the whole hull; a refuel pours in the points it charges for, until the tank is full or no point can be paid |
| `Fleet.BerthsKeepTheModel` | internal/sim/ships.go:698-726 | a hull is priced as its model under whatever name it is berthed |
| `Fleet.StepKeeps` | internal/sim/ships.go:542-726 | jump, ferry, switch, purchase, rating, run, repair, refuel and loss keep the fleet's invariant, and the rating never falls |
| `Fleet.NeverStranded` | internal/sim/ships.go:661-734 | over any career the active ship is local, every hull whole, no tank overdrawn, the way from the pilot to Sol and back open, and no free Skiff owed |
| `Fleet.TheSkiffFliesHome` | internal/content/jump.go:81-84 | a pilot in a bare Skiff with the fare for the refuels has a legal flight home along any open path, whatever drift short of a misalignment it meets |
| `FleetHangar.Hangar.BestRemaining` | internal/sim/ships.go:698-726 | the dearest local hull, ties by id, or none if and only if nothing is local |
| `FleetHangar.Hangar.GrantStarter` | internal/sim/ships.go:542-560 | the grant in place: a new Skiff here, every other ship kept, and a parked Skiff under a name of its own |
| `FleetHangar.Hangar.LoseShip` | internal/sim/ships.go:668-688 | the loss in place keeps the fleet's invariant, records what was lost where, and leaves the pilot in a local ship |
| `FleetHangar.Hangar.Jump` | internal/sim/jump.go:79-126 | refused exactly when the hop is not open or not covered, and then without a trace; otherwise the gate's fuel and stress are taken, the pilot lands where the drift says, and every other ship and the fleet's invariant are kept |
| `Belt.BringIntoRange` | internal/sim/belt.go:94-111 | the nearest rock moves to the edge of range exactly when all lie beyond it |
| `Belt.BeltIsInOrder` | internal/sim/belt.go:94-114 | whatever order the sort yields: sorted, numbered 1 to n each once, one within lock, each rock as rolled but for its place |
| `Belt.ApplySensors` | internal/sim/belt.go:200-259 | exactly min(count, in range) rocks are scanned, all in range, one of the guaranteed tier whenever any has it |
| `Belt.Arrive` | internal/sim/belt.go:94-114 | the whole arrival in place: a belt in order, and exactly min(count, in range) rocks of it scanned, one of the guaranteed tier whenever any has it |
| `Migration.WithoutKeepsTheRest` | internal/sim/migrate_frontier.go:75-91 | the storage loses exactly its drives |
| `Migration.WithoutKeepsOrder` | internal/sim/migrate_frontier.go:81-86 | and keeps its order |
| `Migration.NoDriveSurvives` | internal/sim/migrate_frontier.go:60-91 | no drive is left where old saves had one, the additional internal slots are not touched, so none is left at all if and only if those held none; and retiring again changes nothing |
| `Migration.RetireLegacyDrives` | internal/sim/migrate_frontier.go:12-94 | the loops empty exactly the drives' slots and count each drive once |
| `Migration.PouredIsStowed` | internal/sim/ships.go:316-332 | pouring an amount leaves it aboard as far as it fits, first tanks first |
| `Migration.LoadedIsTidy` | internal/sim/state.go:649-698 | a ship of any version comes out of a load in order |
| `Migration.TidyStays` | internal/sim/state.go:715-722 | and an orderly one comes out as it went in |
| `Migration.LoadingTwiceIsLoadingOnce` | internal/sim/state.go:592-698 | loading what was loaded changes nothing: no migration runs twice, no refund is paid twice |
| `Migration.DrivesArePaidBackOnce` | internal/sim/migrate_frontier.go:96-103 | after any two loads an old save has been credited for each drive but the first, exactly once, and rated for the first |
| `MigrationEffects.EveryDriveCounts` | internal/sim/migrate_frontier.go:41-91 | a ship is counted for exactly the devices that retiring takes from it |
| `MigrationEffects.ShipsMigrate` | internal/sim/state.go:649-698 | every ship of a known model is there after a load: chaff launchers as armed EMP launchers, mass drivers as loaded missile launchers, other devices as they were, shields of the oldest saves charged, the pooled condition with the active ship, and each where it was |
| `MigrationEffects.AccountsMigrate` | internal/sim/state.go:592-622 | storage migrates like the slots, an up-to-date account is left alone, the shown condition is the active ship's, and only a save from the future is refused |
| `MigrationEffects.LostFleetsAreReplaced` | internal/sim/state.go:623-634 | a save whose active ship makes no sense gets a whole new Skiff where the pilot is |
| `Migration.LoadingKeepsCondition` | internal/sim/state.go:662-669 | loading keeps each ship's fuel and each hull in range |
| `FlexLayout.SafeMulIsExact` | internal/tui/layout.go:157-169 | under wrapping 64-bit products the divide-back check accepts exactly the true products that fit |
| `FlexLayout.LargestFirstIsUnique` | internal/tui/layout.go:138-152 | the largest-remainder rule with earlier index on ties has one answer |
| `FlexLayout.ServingIsFair` | internal/tui/layout.go:138-152 | serving the first in line cell by cell is the largest-remainder rule |
| `FlexLayout.SomeoneIsWaiting` | internal/tui/layout.go:138-152 | while cells are left some region with a remainder waits, so it never stalls |
| `FlexLayout.Totals` | internal/tui/layout.go:108-122 | the totals, or the first bad region |
| `FlexLayout.Award` | internal/tui/layout.go:138-151 | hands each cell to the first in line |
| `FlexLayout.Deal` | internal/tui/layout.go:123-137 | quotas and remainders, or an overflow |
| `FlexLayout.AllocateFlex` | internal/tui/layout.go:102-153 | widths sum to what is available, each its minimum plus floor or floor + 1 of its quota by largest remainder; never stalled |

## Left out

- AllocateFlex: minimums or weights whose totals leave the 64-bit range are not characterised, because the running totals wrap before any check sees them.
- Real time and I/O: context timeouts, the kick callback, blocking on channels and the ticker are steps that may or may not be taken; at most one Shutdown call is modelled, and its timeout is not.
- A decoded save is an arbitrary row in the protocol; Migration models decoding on its own. SQL and JSON text are not part of this model, and a failed write may or may not have landed.
- A rejected intent is assumed to leave the saved part of the pilot alone in the protocol's steps; PilotIntents shows it of the actions modelled here, and of no others.
- The registry's methods are steps of the protocol rather than methods of a class, so that interleavings stay visible; the actor is a class.
- Floating-point rounding outside RoundedFlight.
- NeverEndsExactlyWhen: speaks of exact arithmetic, where a gap may stay open for ever; RoundedFlight has what rounding makes of it.
- ShippedRatesStall: as NeverEndsExactlyWhen, a statement about the formulas and not about the running game.
- NeverResolvedExactlyWhen: as NeverEndsExactlyWhen; a machine that rounds resolves these flights too.
- FlightNeverEndsExactlyWhen: as NeverEndsExactlyWhen.
- RoundedFlightsEnd: takes the sizes of the rounding, and that a tick cut to the gap lands on the finish, as given instead of deriving them from IEEE 754 operation by operation, and follows the burn alone; pirate and autocannon only end a flight sooner.
- TheSkiffFliesHome: needs gates to leave a full Skiff the millionth of a unit that a refuel does not see, where the validator asks only that some fuel is left; and whether the fare is in hand is not part of it.
- Refitting a ship is not a step of the fleet's model, which keeps each ship's kit.
- Heat, lock-out, aim and missile cooldown in combat: a volley that strikes is an action with its damage. Odds, ETA ranges, names, prose and logs.
- The checks of Lock, Scan, Depart and Dock, destination permits, repair prices, insurance, and the rating requirements beyond "the next class, at a dock".
- Devices in the dockyard are values with serial numbers rather than heap objects, so aliasing is the claim that no serial number occurs twice; in FuelTanks they are heap objects.
- Sorting rocks is the library's: any ordering of the same rocks is allowed. The order of origins in a tribute is any order, not only the sorted one.
- The random streams themselves, belt rolls before the final touches, mass and drain multipliers, and the drill time of a remnant.
- Clone, run records, frontier counters other than cargo sold, and the one-shot disconnect notice.

/** A pilot's actions, gathered from the parts that model them, as the save layer sees them: one that is
    rejected must leave the save alone, for only an accepted one makes it dirty. */
module PilotIntents {
  import opened Wrappers
  import opened Berths
  import opened Routes
  import SaveProtocol
  import SaveSafety
  import Shipyard
  import ShipyardCareer
  import ShipyardEffects
  import ShipyardDock
  import CargoLedger
  import FuelTanks
  import Ferry
  import Fleet
  import FleetHangar
  import MiningRun
  import MiningSortie

  datatype Hauler = Hauler(docked: bool, credits: int, spent: int, jumpClass: int, active: string,
                           ships: map<string, string>, visited: set<string>)

  /** Everything about a pilot that is written to disk, part by part; the parts that spend have each
      their view of the purse. */
  datatype Saved = Saved(
    yard: Shipyard.Yard, books: CargoLedger.Books, levels: seq<real>, fuelCredits: int, fuelSpent: int,
    hauler: Hauler, fleet: Fleet.Fleet, stored: MiningRun.Stored)

  datatype Action =
    | Trade(order: Shipyard.Order)
    | SellCargo
    | Refuel(rate: nat)
    | Ferry(net: Network, burn: real, tariff: Ferry.Tariff, ship: string, to: string)
    | Jump(to: string, drift: Fleet.Drift)
    | Fly(action: MiningRun.Action, luck: MiningRun.Luck)

  class Pilot {
    const dock: ShipyardDock.Dock
    const hold: CargoLedger.Hold
    const ship: FuelTanks.Ship
    const hauler: Ferry.Pilot
    const hangar: FleetHangar.Hangar
    const sortie: MiningSortie.Sortie
    var running: bool   // a mining run is open

    constructor (dock: ShipyardDock.Dock, hold: CargoLedger.Hold, ship: FuelTanks.Ship, hauler: Ferry.Pilot,
                 hangar: FleetHangar.Hangar, sortie: MiningSortie.Sortie)
      ensures this.dock == dock && this.hold == hold && this.ship == ship && this.hauler == hauler
      ensures this.hangar == hangar && this.sortie == sortie && !running
    {
      this.dock, this.hold, this.ship, this.hauler, this.hangar, this.sortie := dock, hold, ship, hauler, hangar, sortie;
      running := false;
    }

    ghost function SavedPart(): Saved
      reads dock, hold, ship, ship.utility, hauler, hangar, sortie
    {
      Saved(dock.View(), hold.books, ship.Levels(), ship.credits, ship.spent,
            Hauler(hauler.docked, hauler.credits, hauler.spent, hauler.jumpClass, hauler.active, hauler.ships, hauler.visited),
            hangar.View(), sortie.stored)
    }

    /** What the content and the parts' own constructors guarantee. */
    ghost predicate Ready(a: Action)
      reads this, ship, ship.utility, sortie
    {
      && ship.Valid() && STARTER in dock.c.models && sortie.r.volume > 0
      && (a.Refuel? ==> a.rate > 0) && (a.Ferry? ==> WellFormed(a.net) && a.burn > 0.0)
      && (running ==> sortie.ended.None? && (sortie.course.phase.Combat? ==> sortie.course.fight.Some?))
    }

    /** When the pilot may do what is asked. */
    ghost predicate Allowed(a: Action)
      requires Ready(a)
      reads this, dock, hold, ship, ship.utility, hauler, hangar, sortie
    {
      match a
      case Trade(o) => Shipyard.Refusal(dock.c, dock.View(), o).None?
      case SellCargo => dock.docked && (hold.books.cargoValue > 0 || hold.books.vouchers > 0)
      case Refuel(rate) => dock.docked && FuelTanks.Sum(ship.Caps()) - FuelTanks.Sum(ship.Levels()) > FuelTanks.EPSILON && ship.credits >= rate
      case Ferry(net, burn, tariff, other, to) =>
        && hauler.docked && other in hauler.ships && other != hauler.active && SystemByID(net.systems, to).Some?
        && hauler.ships[other] != to && to in hauler.visited
        && exists d :: Distance(net, hauler.jumpClass, burn, hauler.ships[other], to, d) && hauler.credits >= Ferry.Price(tariff, d)
      case Jump(to, drift) => Fleet.JumpError(hangar.c, hangar.View(), to).None?
      case Fly(action, luck) => running && MiningRun.Accepts(sortie.r, sortie.View(), action)
    }

    /** What an accepted action has done, and to which part alone. */
    twostate predicate Happened(a: Action)
      requires old(Ready(a)) && old(Allowed(a))
      reads this, dock, hold, ship, ship.utility, hauler, hangar, sortie
    {
      match a
      case Trade(o) =>
        dock.View() == Shipyard.Do(dock.c, old(dock.View()), o) && SavedPart() == old(SavedPart()).(yard := dock.View())
      case SellCargo =>
        && SavedPart() == old(SavedPart()).(books := hold.books) && hold.books.cargoValue == hold.books.vouchers == 0
        && hold.books.credits == old(hold.books.credits + hold.books.cargoValue + hold.books.vouchers)
      case Refuel(rate) =>
        SavedPart() == old(SavedPart()).(levels := ship.Levels(), fuelCredits := ship.credits, fuelSpent := ship.spent)
      case Ferry(net, burn, tariff, other, to) =>
        SavedPart() == old(SavedPart()).(hauler := SavedPart().hauler) && hauler.ships == old(hauler.ships)[other := to]
      case Jump(to, drift) =>
        && hangar.View() == Fleet.Jumped(hangar.c, old(hangar.View()), to, drift)
        && SavedPart() == old(SavedPart()).(fleet := hangar.View())
      case Fly(action, luck) =>
        && sortie.Outlook() == MiningRun.Act(sortie.r, old(sortie.View()), action, luck) && running == sortie.ended.None?
        && SavedPart() == old(SavedPart()).(stored := sortie.stored)
    }

    method Trade(a: Action) returns (accepted: bool)
      requires Ready(a) && a.Trade?
      modifies dock
      ensures accepted <==> old(Allowed(a))
      ensures !accepted ==> SavedPart() == old(SavedPart())
      ensures accepted ==> Happened(a)
    {
      hide Shipyard.Refusal, Shipyard.Do;
      accepted := Deal(a.order);
    }

    method Deal(o: Shipyard.Order) returns (accepted: bool)
      requires STARTER in dock.c.models
      modifies dock
      ensures accepted <==> Shipyard.Refusal(dock.c, old(dock.View()), o).None?
      ensures dock.View() == Shipyard.Do(dock.c, old(dock.View()), o) && (!accepted ==> dock.View() == old(dock.View()))
    {
      hide Shipyard.Refusal, Shipyard.Do, ShipyardCareer.Honest, ShipyardEffects.Served;
      var refusal;
      match o {
        case Install(_, _, _, _, _) => refusal := dock.Install(o);
        case Store(_, _, _) => refusal := dock.Store(o);
        case Sell(_, _, _) => refusal := dock.Sell(o);
        case Replace(_, _, _, _, _) => refusal := dock.Replace(o);
        case Equip(_, _, _, _) => refusal := dock.Equip(o);
        case BuyTrack(_, _) => refusal := dock.BuyTrack(o);
        case Acquire(_) => refusal := dock.Acquire(o);
        case Switch(_) => refusal := dock.Switch(o);
      }
      accepted := refusal.None?;
    }

    method Sell(a: Action) returns (accepted: bool)
      requires Ready(a) && a.SellCargo?
      modifies hold
      ensures accepted <==> old(Allowed(a))
      ensures !accepted ==> SavedPart() == old(SavedPart())
      ensures accepted ==> Happened(a)
    {
      var sale := hold.SellCargo(dock.docked);
      accepted := sale.Sold?;
    }

    method Pump(a: Action) returns (accepted: bool)
      requires Ready(a) && a.Refuel?
      modifies ship, ship.utility
      ensures accepted <==> old(Allowed(a))
      ensures !accepted ==> SavedPart() == old(SavedPart())
      ensures accepted ==> Happened(a)
    {
      FuelTanks.RefuelSellsWhatIsMissing(dock.docked, FuelTanks.Sum(ship.Caps()) - FuelTanks.Sum(ship.Levels()), ship.credits, a.rate);
      hide FuelTanks.RefuelOutcome, FuelTanks.Sum;
      var outcome := ship.Refuel(dock.docked, a.rate);
      accepted := outcome.Bought?;
    }

    method Haul(a: Action) returns (accepted: bool)
      requires Ready(a) && a.Ferry?
      modifies hauler
      ensures accepted <==> old(Allowed(a))
      ensures !accepted ==> SavedPart() == old(SavedPart())
      ensures accepted ==> Happened(a)
    {
      hide Path, Fuel, Ferry.Quoted, Ferry.Price;
      var error := hauler.FerryShip(a.net, a.burn, a.tariff, a.ship, a.to);
      accepted := error.None?;
    }

    method Leap(a: Action) returns (accepted: bool)
      requires Ready(a) && a.Jump?
      modifies hangar
      ensures accepted <==> old(Allowed(a))
      ensures !accepted ==> SavedPart() == old(SavedPart())
      ensures accepted ==> Happened(a)
    {
      hide Fleet.JumpError, Fleet.Jumped;
      var error := hangar.Jump(a.to, a.drift);
      accepted := error.None?;
    }

    method Press(a: Action) returns (accepted: bool)
      requires Ready(a) && a.Fly?
      modifies this`running, sortie
      ensures accepted <==> old(Allowed(a))
      ensures !accepted ==> SavedPart() == old(SavedPart()) && running == old(running)
      ensures accepted ==> Happened(a)
    {
      hide MiningRun.Act, MiningRun.Accepts;
      if !running { return false; }
      accepted := sortie.Press(a.action, a.luck, 0);
      running := sortie.ended.None?;
    }

    /** An action goes through exactly when it is allowed, and has then its effect on its own part; one that is
        rejected changes nothing that is saved, and neither opens nor ends a run. */
    method Perform(a: Action) returns (accepted: bool)
      requires Ready(a)
      modifies this, dock, hold, ship, ship.utility, hauler, hangar, sortie
      ensures accepted <==> old(Allowed(a))
      ensures !accepted ==> SavedPart() == old(SavedPart()) && running == old(running)
      ensures accepted ==> Happened(a)
    {
      hide Allowed, Happened, SavedPart;
      match a {
        case Trade(_) => accepted := Trade(a);
        case SellCargo => accepted := Sell(a);
        case Refuel(_) => accepted := Pump(a);
        case Ferry(_, _, _, _, _) => accepted := Haul(a);
        case Jump(_, _) => accepted := Leap(a);
        case Fly(_, _) => accepted := Press(a);
      }
    }

    /** So every action is a step of the save protocol, however the saved part is encoded: the protocol
        asks of a rejected intent just what Perform ensures. */
    method Intend(a: Action, ghost s: SaveProtocol.System, ghost x: nat, ghost encode: Saved -> SaveProtocol.Row, ghost scanning: bool)
      returns (accepted: bool, ghost step: SaveProtocol.Step)
      requires Ready(a) && SaveSafety.Inv(s) && x in s.sessions && s.sessions[x].actor in s.actors
      requires s.actors[s.sessions[x].actor].pilot == SaveProtocol.Pilot(encode(SavedPart()), running, scanning)
      modifies this, dock, hold, ship, ship.utility, hauler, hangar, sortie
      ensures step == SaveProtocol.Intent(x, accepted, SaveProtocol.Pilot(encode(SavedPart()), running, scanning))
      ensures SaveProtocol.Enabled(s, step) && SaveSafety.Inv(SaveProtocol.Apply(s, step))
    {
      hide SaveSafety.Inv;
      accepted := Perform(a);
      step := SaveProtocol.Intent(x, accepted, SaveProtocol.Pilot(encode(SavedPart()), running, scanning));
      SaveSafety.StepKeeps(s, step);
    }
  }
}

/** One mining run as a state machine: drilling, hazards, the pirates' approach, tribute, combat and
    the escape burn. Random draws are inputs, indexed by the run's tick count. */
module MiningRun {
  import opened Wrappers
  import opened Numbers
  import Damage
  import CargoLedger

  datatype Phase = Mining | Tribute | Escaping | Combat

  datatype Outcome = Departed | Bailed | TributePaid | EscapedUnderFire | PirateDestroyed | ShipLost

  datatype Kind = PowerOutage | RadarBlackout | LifeSupport | CargoShift | ReactorSurge

  /** What the content and the ship fix for the length of a run. */
  datatype Rules = Rules(
    volume: int, value: int, mineRate: real, capacity: real, tank: real,
    drillDrain: real, surgeMul: real, recovery: real, instability: real, approach: real,
    eventHull: real, outageSeconds: real, blackoutSeconds: real, supportSeconds: real,
    shiftSeconds: real, surgeSeconds: real, cooldown: real, shiftFactor: real, surgeHit: real, bleed: real,
    tributeSeconds: real, tributePct: real, bonusPct: real, checkWindow: real,
    baseEscape: real, loadPenalty: real, escapeMul: real, escapeDrain: real, outRate: real, outCap: real,
    autocannon: real, attackRate: real, alwaysAttack: bool, armed: bool, keepThreshold: real)

  predicate RulesOk(r: Rules) {
    && r.volume > 0 && r.value >= 0 && r.mineRate >= 0.0 && r.capacity >= 0.0 && r.tank > 0.0
    && r.drillDrain >= 0.0 && r.surgeMul >= 0.0 && r.recovery >= 0.0
    && r.shiftFactor >= 1.0 && 0.0 < r.bonusPct <= 1.0 && 0.0 <= r.tributePct <= 1.0
    && r.baseEscape > 0.0 && r.loadPenalty >= 0.0 && r.escapeMul > 0.0 && r.outRate >= 0.0 && r.outCap >= 0.0
    && 0.0 <= r.keepThreshold <= 1.0
  }

  datatype Ore = Ore(extracted: real, held: real, jettisoned: real, worth: int)

  datatype Burn = Burn(base: real, required: real, elapsed: real, out: real, shiftMul: real)

  datatype Effect = Effect(kind: Kind, remaining: real)

  datatype Hazards = Hazards(active: Option<Effect>, cooldown: real, breached: bool)

  datatype Contact = Contact(
    distance: real, jammer: real, stability: real,
    empActive: bool, empSeconds: real, empDeployed: bool, launchers: nat)

  datatype Fight = Fight(hull: real, dps: real, fleeing: bool)

  datatype Course = Course(
    phase: Phase, tributePaid: bool, underAttack: bool, intent: Option<Outcome>,
    fight: Option<Fight>, tributeElapsed: real)

  datatype Status = Dormant | Lit | Hit | Missed

  datatype Check = Check(point: nat, elapsed: real)

  datatype Skill = Skill(points: seq<Status>, check: Option<Check>, nextIn: real)

  datatype Stored = Stored(units: real, value: int)

  datatype State = State(
    ore: Ore, burn: Burn, armor: Damage.Armor, fuel: real, hazards: Hazards, contact: Contact,
    course: Course, skill: Skill, stored: Stored, ticks: nat)

  /** The draws one tick may use. */
  datatype Luck = Luck(
    event: Option<Kind>, surgeHits: bool, demandsTribute: bool, nextCheck: real, empSeconds: real,
    pirate: Fight, load: real)

  /** The load term is a power of a ratio, so it lies in [0, 1]; a pirate has hull and weapons. */
  predicate LuckOk(l: Luck) { 0.0 <= l.load <= 1.0 && l.pirate.hull > 0.0 && l.pirate.dps > 0.0 }

  /** Damage dealt over some time. */
  function Dealt(dps: real, t: real): real { dps * t }

  // ---------------------------------------------------------------- fuel, the bounded counter

  function Burnt(fuel: real, amount: real): real { if amount <= 0.0 then 0.0 else RMin(amount, fuel) }

  function Refilled(fuel: real, tank: real, amount: real): real {
    if amount <= 0.0 then fuel else fuel + RMin(amount, RMax(0.0, tank - fuel))
  }

  // ---------------------------------------------------------------- hazards

  function Duration(r: Rules, k: Kind): real {
    match k
    case PowerOutage => r.outageSeconds
    case RadarBlackout => r.blackoutSeconds
    case LifeSupport => r.supportSeconds
    case CargoShift => r.shiftSeconds
    case ReactorSurge => r.surgeSeconds
  }

  predicate Is(h: Hazards, k: Kind) { h.active.Some? && h.active.value.kind == k }

  /** A new event is drawn only with nothing active, no cooldown, a damaged hull, and never while
      the pilot decides on a tribute or fights. */
  function NewEvent(r: Rules, phase: Phase, h: Hazards, hull: int, l: Luck): Option<Kind> {
    if phase.Mining? || phase.Escaping? then
      if h.active.None? && h.cooldown <= 0.0 && hull as real < r.eventHull then l.event else None
    else None
  }

  function TickHazards(r: Rules, phase: Phase, h: Hazards, hull: int, l: Luck, dt: real): Hazards {
    if phase.Tribute? || (phase.Combat? && h.active.None?) then h
    else if h.active.Some? then
      var e := h.active.value.(remaining := h.active.value.remaining - dt);
      Hazards(if e.remaining <= 0.0 then None else Some(e),
              if e.remaining <= 0.0 then r.cooldown else h.cooldown,
              h.breached || (e.kind.LifeSupport? && e.remaining <= 0.0 && phase.Mining?))
    else if h.cooldown > 0.0 then h.(cooldown := RMax(0.0, h.cooldown - dt))
    else match NewEvent(r, phase, h, hull, l)
      case Some(k) => h.(active := Some(Effect(k, Duration(r, k))))
      case None => h
  }

  function Lengthened(r: Rules, base: real): real { base * r.shiftFactor }

  /** A cargo shift slows an escape already under way and every later one. */
  function TickShift(r: Rules, phase: Phase, h: Hazards, hull: int, l: Luck, b: Burn): Burn {
    if NewEvent(r, phase, h, hull, l) == Some(CargoShift) then
      b.(shiftMul := b.shiftMul * r.shiftFactor, base := if phase.Escaping? then Lengthened(r, b.base) else b.base)
    else b
  }

  function TickSurge(r: Rules, phase: Phase, h: Hazards, a: Damage.Armor, l: Luck): Damage.Armor {
    if NewEvent(r, phase, h, a.hull, l) == Some(ReactorSurge) && l.surgeHits then Damage.HullHit(a, r.surgeHit) else a
  }

  function TickEvents(r: Rules, s: State, l: Luck, dt: real): State {
    s.(hazards := TickHazards(r, s.course.phase, s.hazards, s.armor.hull, l, dt),
       burn := TickShift(r, s.course.phase, s.hazards, s.armor.hull, l, s.burn),
       armor := TickSurge(r, s.course.phase, s.hazards, s.armor, l))
  }

  // ---------------------------------------------------------------- drilling

  function Room(r: Rules, stored: Stored): real { RMax(0.0, r.capacity - stored.units) }

  predicate Depleted(r: Rules, ore: Ore) { ore.extracted >= r.volume as real }

  predicate CargoFull(r: Rules, ore: Ore, stored: Stored) { ore.held >= Room(r, stored) }

  /** What the drill may still take: the rest of the rock, or of the hold. */
  function Remaining(r: Rules, ore: Ore, stored: Stored): real {
    RMin(RMax(0.0, r.volume as real - ore.extracted), RMax(0.0, Room(r, stored) - ore.held))
  }

  /** The value of a part of the rock, by volume. */
  function Share(value: int, part: real, whole: int): real
    requires whole > 0
  {
    value as real * part / whole as real
  }

  function Worth(r: Rules, held: real): int
    requires r.volume > 0
  {
    Round(Share(r.value, held, r.volume))
  }

  function Extract(ore: Ore, amount: real): Ore {
    ore.(extracted := ore.extracted + amount, held := ore.held + amount)
  }

  predicate Drilling(r: Rules, ore: Ore, stored: Stored, fuel: real) { Remaining(r, ore, stored) > 0.0 && fuel > 0.0 }

  function Drilled(r: Rules, ore: Ore, stored: Stored, fuel: real, dt: real): Ore
    requires r.volume > 0
  {
    var next := if Drilling(r, ore, stored, fuel)
                then Extract(ore, RMax(0.0, RMin(Remaining(r, ore, stored), r.mineRate * dt))) else ore;
    next.(worth := Worth(r, next.held))
  }

  /** The fuel a burner asks for; a reactor surge makes it thirstier. */
  function Drain(perSecond: real, r: Rules, surge: bool, dt: real): real {
    (if surge then perSecond * r.surgeMul else perSecond) * dt
  }

  function Recovered(r: Rules, used: real): real { used * r.recovery }

  /** Drilling burns fuel; a fuel vein gives back in proportion to what was burnt. */
  function DrilledFuel(r: Rules, ore: Ore, stored: Stored, fuel: real, surge: bool, dt: real): real {
    if Drilling(r, ore, stored, fuel) then
      var used := Burnt(fuel, Drain(r.drillDrain, r, surge, dt));
      Refilled(fuel - used, r.tank, Recovered(r, used))
    else fuel
  }

  function SetStatus(points: seq<Status>, i: nat, status: Status): seq<Status> {
    if i < |points| then points[i := status] else points
  }

  /** The first untouched pressure point, or -1. */
  function NextPoint(points: seq<Status>, i: nat): (n: int)
    requires i <= |points|
    ensures n == -1 || (i <= n < |points| && points[n].Dormant?)
    ensures n == -1 ==> forall j :: i <= j < |points| ==> !points[j].Dormant?
    decreases |points| - i
  {
    if i == |points| then -1 else if points[i].Dormant? then i else NextPoint(points, i + 1)
  }

  function TickSkill(r: Rules, skill: Skill, ore: Ore, stored: Stored, l: Luck, dt: real): Skill {
    if Depleted(r, ore) || CargoFull(r, ore, stored) then
      match skill.check
      case Some(c) => skill.(points := SetStatus(skill.points, c.point, Dormant), check := None)
      case None => skill
    else match skill.check
      case Some(c) =>
        if c.elapsed + dt >= r.checkWindow
        then Skill(SetStatus(skill.points, c.point, Missed), None, l.nextCheck)
        else skill.(check := Some(c.(elapsed := c.elapsed + dt)))
      case None =>
        var point := NextPoint(skill.points, 0);
        if point < 0 then skill
        else if skill.nextIn - dt > 0.0 then skill.(nextIn := skill.nextIn - dt)
        else Skill(SetStatus(skill.points, point, Lit), Some(Check(point, 0.0)), skill.nextIn - dt)
  }

  function TickEmp(c: Contact, dt: real): Contact {
    if !c.empActive then c
    else c.(empSeconds := RMax(0.0, c.empSeconds - dt), empActive := c.empSeconds - dt > 0.0)
  }

  function Closing(r: Rules, t: real): real { r.approach * t }

  /** The contact closes in once jamming has run out; a blackout hides the approach. */
  function TickApproach(r: Rules, c: Contact, blackout: bool, dt: real): Contact {
    var suppressed := if c.jammer > 0.0 then RMin(dt, c.jammer) else 0.0;
    var left := dt - suppressed;
    c.(jammer := if c.jammer > 0.0 then RMax(0.0, c.jammer - suppressed) else c.jammer,
       distance := if !blackout && left > 0.0 then RMax(0.0, c.distance - Closing(r, left)) else c.distance)
  }

  function Weakened(r: Rules, c: Contact, dt: real): real {
    if r.instability > 0.0 then RMax(0.0, c.stability - dt * r.instability) else c.stability
  }

  predicate Collapses(r: Rules, c: Contact, dt: real) { r.instability > 0.0 && Weakened(r, c, dt) == 0.0 }

  /** Broken life support bleeds the hull. */
  function Bled(r: Rules, h: Hazards, a: Damage.Armor, dt: real): Damage.Armor {
    if h.breached && r.bleed > 0.0 && dt > 0.0 then Damage.HullHit(a, Dealt(r.bleed, dt)) else a
  }

  function TickMining(r: Rules, s: State, l: Luck, dt: real): State
    requires r.volume > 0
  {
    var outage := Is(s.hazards, PowerOutage);
    var collapsed := Collapses(r, s.contact, dt);
    var ore := if outage || collapsed then s.ore else Drilled(r, s.ore, s.stored, s.fuel, dt);
    var stable := s.contact.(stability := Weakened(r, s.contact, dt));
    s.(ore := ore,
       fuel := if outage || collapsed then s.fuel
               else DrilledFuel(r, s.ore, s.stored, s.fuel, Is(s.hazards, ReactorSurge), dt),
       skill := if outage || collapsed then s.skill else TickSkill(r, s.skill, ore, s.stored, l, dt),
       armor := if collapsed then s.armor.(hull := 0) else Bled(r, s.hazards, s.armor, dt),
       contact := if collapsed then stable
                  else TickApproach(r, TickEmp(stable, dt), Is(s.hazards, RadarBlackout), dt))
  }

  // ---------------------------------------------------------------- leaving

  function Intended(r: Rules, s: State): Option<Outcome> {
    if s.course.intent.Some? then s.course.intent else Some(if Depleted(r, s.ore) then Departed else Bailed)
  }

  /** Starts the burn afresh. */
  function Configured(r: Rules, b: Burn, load: real): Burn {
    var mul := if b.shiftMul <= 0.0 then 1.0 else b.shiftMul;
    var base := (r.baseEscape + load * r.loadPenalty) * mul * r.escapeMul;
    Burn(base, base, 0.0, 0.0, mul)
  }

  function StartEscape(r: Rules, s: State, load: real): State {
    s.(course := s.course.(phase := Escaping, intent := Intended(r, s)), burn := Configured(r, s.burn, load))
  }

  function StartCombat(r: Rules, s: State, withEscape: bool, l: Luck): State {
    s.(course := s.course.(phase := Combat, underAttack := true, fight := Some(l.pirate.(fleeing := withEscape)),
                           intent := if withEscape then Intended(r, s) else s.course.intent),
       burn := if withEscape then Configured(r, s.burn, l.load) else s.burn)
  }

  function PirateActs(r: Rules, s: State, l: Luck): State {
    if r.alwaysAttack || !l.demandsTribute then StartCombat(r, s, !r.armed, l)
    else s.(course := s.course.(phase := Tribute, tributeElapsed := 0.0))
  }

  /** The pirates act on arrival, unless an EMP or a jammer holds them; a loaded EMP launcher fires once a run. */
  function Arrival(r: Rules, s: State, l: Luck): State {
    var c := s.contact;
    if c.distance > 0.0 || c.empActive || c.jammer > 0.0 then s
    else if !c.empDeployed && c.launchers > 0 then
      s.(contact := c.(empDeployed := true, empActive := true, empSeconds := l.empSeconds, launchers := c.launchers - 1))
    else PirateActs(r, s, l)
  }

  /** What time without fuel adds to the burn, up to a cap. */
  function Penalty(r: Rules, out: real): real { RMin(out * r.outRate, r.outCap) }

  function BurnTick(r: Rules, b: Burn, fuel: real, surge: bool, dt: real): (Burn, real) {
    var left := fuel - Burnt(fuel, Drain(r.escapeDrain, r, surge, dt));
    var out := if left <= 0.0 then b.out + dt else b.out;
    (b.(elapsed := b.elapsed + dt, out := out, required := b.base + Penalty(r, out)), left)
  }

  function TickBurn(r: Rules, s: State, dt: real): State {
    var (b, fuel) := BurnTick(r, s.burn, s.fuel, Is(s.hazards, ReactorSurge), dt);
    s.(burn := b, fuel := fuel)
  }

  /** Seconds until the autocannon wins, if it ever does. */
  function KillAt(r: Rules, f: Fight): Option<real> {
    if r.autocannon > 0.0 then Some(RMax(0.0, f.hull) / r.autocannon) else None
  }

  function DoneAt(f: Fight, b: Burn): Option<real> {
    if f.fleeing then Some(RMax(0.0, b.required - b.elapsed)) else None
  }

  function Sooner(dt: real, at: Option<real>): real { if at.Some? then RMin(dt, at.value) else dt }

  /** A combat tick stops at the first thing that would end the fight. */
  function CombatTime(r: Rules, f: Fight, b: Burn, dt: real): real { Sooner(Sooner(dt, KillAt(r, f)), DoneAt(f, b)) }

  predicate AutocannonWins(r: Rules, f: Fight, b: Burn, dt: real) {
    var k, d := KillAt(r, f), DoneAt(f, b);
    k.Some? && k.value <= dt && (d.Some? ==> k.value <= d.value)
  }

  /** The autocannon's work on the pirate over t seconds. */
  function ShotAt(r: Rules, f: Fight, t: real): real {
    if r.autocannon > 0.0 then RMax(0.0, f.hull - r.autocannon * t) else f.hull
  }

  /** The pirate's work on the ship over t seconds. */
  function Shelled(f: Fight, a: Damage.Armor, t: real): Damage.Armor {
    if f.dps > 0.0 then Damage.AttackHit(a, Dealt(f.dps, t)) else a
  }

  function PirateHull(s: State, hull: real): State
    requires s.course.fight.Some?
  {
    s.(course := s.course.(fight := Some(s.course.fight.value.(hull := hull))))
  }

  function TickCombat(r: Rules, s: State, dt: real): State
    requires s.course.fight.Some?
  {
    var f := s.course.fight.value;
    var t := CombatTime(r, f, s.burn, dt);
    if t <= 0.0 then s
    else
      var after := PirateHull(s, ShotAt(r, f, t)).(armor := Shelled(f, s.armor, t));
      if f.fleeing then TickBurn(r, after, t) else after
  }

  // ---------------------------------------------------------------- one tick

  datatype Result = Going(state: State) | Ended(state: State, outcome: Outcome)

  predicate Burning(c: Course) { c.phase.Escaping? || (c.phase.Combat? && c.fight.Some? && c.fight.value.fleeing) }

  function EscapeKind(c: Course): Outcome {
    if c.tributePaid then TributePaid else if c.underAttack then EscapedUnderFire
    else if c.intent.Some? then c.intent.value else Bailed
  }

  /** What a finished tick means. */
  function Judge(s: State): Result {
    if s.armor.hull <= 0 then Ended(s, ShipLost)
    else if Burning(s.course) && s.burn.elapsed >= s.burn.required then Ended(s, EscapeKind(s.course))
    else Going(s)
  }

  function Refused(r: Rules, s: State, l: Luck): State { StartCombat(r, s, true, l) }

  function TickTribute(r: Rules, s: State, l: Luck, dt: real): State {
    var waited := s.(course := s.course.(tributeElapsed := s.course.tributeElapsed + dt));
    if waited.course.tributeElapsed >= r.tributeSeconds then Refused(r, waited, l) else waited
  }

  /** An escape under attack would take fire; MiningSafety shows it never is. */
  function TickEscape(r: Rules, s: State, dt: real): State {
    TickBurn(r, s.(armor := if s.course.underAttack && r.attackRate > 0.0 && dt > 0.0
                            then Damage.AttackHit(s.armor, Dealt(r.attackRate, dt)) else s.armor), dt)
  }

  function Tick(r: Rules, s: State, l: Luck, time: real): Result
    requires r.volume > 0 && (s.course.phase.Combat? ==> s.course.fight.Some?)
  {
    var dt := RMax(0.0, time);
    var s1 := TickEvents(r, s.(ticks := s.ticks + 1), l, dt);
    match s.course.phase
    case Mining => Judge(Arrival(r, TickMining(r, s1, l, dt), l))
    case Tribute => Judge(TickTribute(r, s1, l, dt))
    case Escaping => Judge(TickEscape(r, s1, dt))
    case Combat =>
      var f, s2 := s1.course.fight.value, TickCombat(r, s1, dt);
      if s2.armor.hull > 0 && AutocannonWins(r, f, s1.burn, dt) then Ended(PirateHull(s2, 0.0), PirateDestroyed) else Judge(s2)
  }

  // ---------------------------------------------------------------- the pilot's actions

  datatype Action =
    | BailOrDepart
    | AcceptTribute
    | RefuseTribute
    | Fight
    | CombatEscape
    | StrikePoint
    | Hit(damage: real)   // a laser volley or missile that struck

  predicate Accepts(r: Rules, s: State, a: Action) {
    match a
    case BailOrDepart => s.course.phase.Mining?
    case AcceptTribute => s.course.phase.Tribute?
    case RefuseTribute => s.course.phase.Tribute?
    case Fight => s.course.phase.Tribute? && r.armed
    case CombatEscape => s.course.phase.Combat?
    case StrikePoint => s.course.phase.Mining? && s.skill.check.Some?
    case Hit(damage) => s.course.phase.Combat? && r.armed && damage >= 0.0
  }

  function Asked(r: Rules, s: State): int { CargoLedger.Demand(s.stored.value + s.ore.worth, r.tributePct) }

  function StoredShare(r: Rules, s: State): int { CargoLedger.StoredPart(Asked(r, s), s.stored.value, s.ore.worth) }

  function Paid(r: Rules, s: State, load: real): State {
    var fromStored := StoredShare(r, s);
    var fromRun := Asked(r, s) - fromStored;
    var units := CargoLedger.UnitsLost(s.ore.held, s.ore.worth, fromRun);
    var paid := s.(
      stored := Stored(RMax(0.0, s.stored.units - CargoLedger.UnitsLost(s.stored.units, s.stored.value, fromStored)),
                       s.stored.value - fromStored),
      ore := Ore(s.ore.extracted, RMax(0.0, s.ore.held - units), s.ore.jettisoned + units, s.ore.worth - fromRun),
      course := s.course.(tributePaid := true));
    StartEscape(r, paid, load)
  }

  function Reachable(r: Rules, ore: Ore, stored: Stored): real {
    RMin(r.volume as real - ore.extracted, RMax(0.0, Room(r, stored) - ore.held))
  }

  /** What a struck pressure point breaks loose. */
  function Bonus(r: Rules, ore: Ore, stored: Stored): real {
    Reachable(r, ore, stored) * r.bonusPct
  }

  function Struck(r: Rules, s: State, l: Luck): State
    requires r.volume > 0 && s.skill.check.Some?
  {
    var bonus := Bonus(r, s.ore, s.stored);
    var ore := Extract(s.ore, bonus);
    s.(skill := Skill(SetStatus(s.skill.points, s.skill.check.value.point, Status.Hit), None, l.nextCheck),
       ore := if Depleted(r, s.ore) || CargoFull(r, s.ore, s.stored) || bonus <= 0.0 then s.ore
              else ore.(worth := Worth(r, ore.held)))
  }

  function Act(r: Rules, s: State, a: Action, l: Luck): Result
    requires r.volume > 0 && Accepts(r, s, a) && (s.course.phase.Combat? ==> s.course.fight.Some?)
  {
    match a
    case BailOrDepart => Going(StartEscape(r, s, l.load))
    case AcceptTribute => Going(Paid(r, s, l.load))
    case RefuseTribute => Going(Refused(r, s, l))
    case Fight => Going(StartCombat(r, s, false, l))
    case CombatEscape =>
      if s.course.fight.value.fleeing then Going(s)
      else Going(s.(course := s.course.(intent := Intended(r, s), fight := Some(s.course.fight.value.(fleeing := true))),
                    burn := Configured(r, s.burn, l.load)))
    case StrikePoint => Going(Struck(r, s, l))
    case Hit(damage) =>
      var f := s.course.fight.value;
      var after := PirateHull(s, RMax(0.0, f.hull - damage));
      if f.hull - damage <= 0.0 then Ended(after, PirateDestroyed) else Going(after)
  }

  // ---------------------------------------------------------------- runs

  datatype Step = Ticks(time: real, luck: Luck) | Acts(action: Action, luck: Luck)

  predicate Enabled(r: Rules, s: State, step: Step) {
    && (s.course.phase.Combat? ==> s.course.fight.Some?)
    && LuckOk(step.luck) && (step.Acts? ==> Accepts(r, s, step.action))
  }

  function Do(r: Rules, s: State, step: Step): Result
    requires r.volume > 0 && Enabled(r, s, step)
  {
    match step
    case Ticks(time, l) => Tick(r, s, l, time)
    case Acts(a, l) => Act(r, s, a, l)
  }

  /** Steps that are taken one after another until the run ends. */
  predicate Legal(r: Rules, s: State, steps: seq<Step>)
    requires r.volume > 0
    decreases |steps|
  {
    steps != [] ==> Enabled(r, s, steps[0]) && (Do(r, s, steps[0]).Going? ==> Legal(r, Do(r, s, steps[0]).state, steps[1..]))
  }

  function Exec(r: Rules, s: State, steps: seq<Step>): Result
    requires r.volume > 0 && Legal(r, s, steps)
    decreases |steps|
  {
    if steps == [] then Going(s)
    else match Do(r, s, steps[0])
      case Going(next) => Exec(r, next, steps[1..])
      case Ended(last, outcome) => Ended(last, outcome)
  }

  /** A run just locked on to its asteroid. */
  function Locked(armor: Damage.Armor, fuel: real, stored: Stored, distance: real, jammer: real,
                  launchers: nat, points: nat, nextCheck: real): State {
    State(Ore(0.0, 0.0, 0.0, 0), Burn(0.0, 0.0, 0.0, 0.0, 1.0), armor.(carry := 0.0), fuel,
          Hazards(None, 0.0, false), Contact(distance, jammer, 1.0, false, 0.0, false, launchers),
          Course(Mining, false, false, None, None, 0.0),
          Skill(seq(points, _ => Dormant), None, nextCheck), stored, 0)
  }

  // ---------------------------------------------------------------- after the run

  datatype Rock = Rock(volume: int, value: int)

  /** The fraction of the rock that is still there. */
  function LeftOver(r: Rules, ore: Ore): real
    requires r.volume > 0
  {
    Clamp(Share(1, r.volume as real - ore.extracted, r.volume), 0.0, 1.0)
  }

  function Part(value: int, fraction: real): real { value as real * fraction }

  /** What the belt keeps of the asteroid. */
  function Remnant(r: Rules, s: State, outcome: Outcome): Option<Rock>
    requires r.volume > 0
  {
    var volume := r.volume as real;
    var left := LeftOver(r, s.ore);
    if outcome.ShipLost? || (outcome.Departed? && s.ore.extracted >= volume) || 1.0 - s.ore.extracted / volume < r.keepThreshold
    then None
    else Some(Rock(Max(1, Round(Part(r.volume, left))), Round(Part(r.value, left))))
  }

  function StoredAfter(s: State, outcome: Outcome): Stored {
    if outcome.ShipLost? then Stored(0.0, 0) else Stored(s.stored.units + s.ore.held, s.stored.value + s.ore.worth)
  }
}

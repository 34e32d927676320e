/** The drawdown guard of app/cfd_risk/risk_guard.py: balance, floating result, halt status
    and the daily reset. Times are whole milliseconds. */
module RiskGuards {
  import opened Prelude

  datatype Status = Active | DailyHalt | MaxDdBreach

  datatype Config = Config(
    initialBalance: real, dailyDdPct: real, maxDdPct: real,
    resetHour: int, resetMinute: int, resetOffsetMs: int, maxRiskPct: real, maxOpenRiskPct: real)

  datatype Daily = Daily(sod: real, realized: real, lowest: real, resetAt: int, trades: nat)

  /** The reset instant of the local calendar day that contains `now`. */
  function Boundary(config: Config, now: int): int {
    (now + config.resetOffsetMs) / 86_400_000 * 86_400_000
    + config.resetHour * 3_600_000 + config.resetMinute * 60_000 - config.resetOffsetMs
  }

  datatype Guard = Guard(
    config: Config, balance: real, unrealized: real, peak: real, status: Status, daily: Daily,
    floor: real, totalRealized: real, totalTrades: nat, halts: nat)
  {
    function Equity(): real { balance + unrealized }

    function DailyLimit(): real { daily.sod * (config.dailyDdPct / 100.0) }

    /** What may still be lost today. */
    function DailyRemaining(): real {
      Max(0.0, DailyLimit() - Max(0.0, daily.sod - Equity()))
    }

    function MaxPerTrade(): real { config.initialBalance * (config.maxRiskPct / 100.0) }

    /** Max drawdown first; a halted day is not re-examined, a blown account never is. */
    function Checked(): Guard {
      if status == MaxDdBreach then this
      else if Equity() <= floor then this.(status := MaxDdBreach)
      else if status == DailyHalt then this
      else if daily.sod - Equity() >= DailyLimit() then this.(status := DailyHalt, halts := halts + 1)
      else this
    }

    predicate Tradable() { Checked().status == Active }

    /** May a trade of this risk be opened? */
    predicate Accepts(risk: real) {
      Tradable() && risk <= MaxPerTrade() && risk <= DailyRemaining()
    }

    function Realized(pnl: real): Guard {
      var b := balance + pnl;
      this.(balance := b, totalRealized := totalRealized + pnl, totalTrades := totalTrades + 1, peak := Max(peak, b),
            daily := daily.(realized := daily.realized + pnl, trades := daily.trades + 1)).Checked()
    }

    function Floating(pnl: real): Guard {
      this.(unrealized := pnl, daily := daily.(lowest := Min(daily.lowest, balance + pnl))).Checked()
    }

    function DailyReset(at: int): Guard {
      var sod := Max(balance, Equity());
      this.(daily := Daily(sod, 0.0, sod, at, 0), status := if status == DailyHalt then Active else status)
    }

    predicate ResetDue(now: int) { daily.resetAt < Boundary(config, now) <= now }

    function Based(base: real): Guard {
      Guard(config, base, 0.0, base, Active, Daily(base, 0.0, base, 0, 0),
            base * (1.0 - config.maxDdPct / 100.0), 0.0, 0, 0)
    }
  }

  function Fresh(config: Config): Guard {
    Guard(config, config.initialBalance, 0.0, config.initialBalance, Active,
          Daily(config.initialBalance, 0.0, config.initialBalance, 0, 0),
          config.initialBalance * (1.0 - config.maxDdPct / 100.0), 0.0, 0, 0)
  }

  /** An explicit time wins over the clock, unless it is missing or zero. */
  function EffectiveNow(current: Option<int>, clock: int): int {
    if current.Some? && current.value != 0 then current.value else clock
  }

  /** Everything that can happen to a guard. */
  datatype Event =
    | Query
    | RealizedPnl(pnl: real)
    | FloatingPnl(pnl: real)
    | CheckReset(current: Option<int>, clock: int)
    | ForceReset(clock: int)
    | ResetAccount(newBalance: Option<real>)
    | Seed(balance: real)

  function NewBase(g: Guard, newBalance: Option<real>): real {
    if newBalance.Some? && newBalance.value != 0.0 then newBalance.value else g.config.initialBalance
  }

  function Step(g: Guard, e: Event): Guard {
    match e
    case Query => g.Checked()
    case RealizedPnl(pnl) => g.Realized(pnl)
    case FloatingPnl(pnl) => g.Floating(pnl)
    case CheckReset(current, clock) =>
      var now := EffectiveNow(current, clock);
      if g.ResetDue(now) then g.DailyReset(now) else g
    case ForceReset(clock) => g.DailyReset(clock)
    case ResetAccount(newBalance) =>
      var base := NewBase(g, newBalance);
      g.(config := g.config.(initialBalance := base)).Based(base)
    case Seed(balance) => g.Based(balance)
  }

  function Run(g: Guard, es: seq<Event>, n: nat): Guard
    requires n <= |es|
  {
    if n == 0 then g else Step(Run(g, es, n - 1), es[n - 1])
  }

  class RiskGuard {
    var config: Config
    var balance: real
    var unrealized: real
    var peak: real
    var status: Status
    var daily: Daily
    var floor: real
    var totalRealized: real
    var totalTrades: nat
    var halts: nat

    function View(): Guard
      reads this
    {
      Guard(config, balance, unrealized, peak, status, daily, floor, totalRealized, totalTrades, halts)
    }

    constructor (config: Config)
      ensures View() == Fresh(config)
    {
      this.config := config;
      balance, unrealized, peak := config.initialBalance, 0.0, config.initialBalance;
      status := Active;
      daily := Daily(config.initialBalance, 0.0, config.initialBalance, 0, 0);
      floor := config.initialBalance * (1.0 - config.maxDdPct / 100.0);
      totalRealized, totalTrades, halts := 0.0, 0, 0;
    }

    method CheckDdBreach()
      modifies this`status, this`halts
      ensures View() == old(View()).Checked()
    {
      if status == MaxDdBreach {
        return;
      }
      var equity := balance + unrealized;
      if equity <= floor {
        status := MaxDdBreach;
        return;
      }
      if status == DailyHalt {
        return;
      }
      if daily.sod - equity >= daily.sod * (config.dailyDdPct / 100.0) {
        status := DailyHalt;
        halts := halts + 1;
      }
    }

    method CanTrade() returns (ok: bool)
      modifies this`status, this`halts
      ensures View() == old(View()).Checked() && (ok <==> old(View()).Tradable())
    {
      CheckDdBreach();
      ok := status == Active;
    }

    method CheckTradeRisk(risk: real) returns (ok: bool)
      modifies this`status, this`halts
      ensures View() == old(View()).Checked() && (ok <==> old(View()).Accepts(risk))
    {
      ok := CanTrade();
      if !ok {
        return;
      }
      var maxPerTrade := config.initialBalance * (config.maxRiskPct / 100.0);
      if risk > maxPerTrade {
        return false;
      }
      return risk <= View().DailyRemaining();
    }

    method AddRealizedPnl(pnl: real)
      modifies this
      ensures View() == old(View()).Realized(pnl)
    {
      hide Guard.Checked;
      balance := balance + pnl;
      totalRealized := totalRealized + pnl;
      totalTrades := totalTrades + 1;
      daily := daily.(realized := daily.realized + pnl, trades := daily.trades + 1);
      if balance > peak {
        peak := balance;
      }
      CheckDdBreach();
    }

    method UpdateUnrealizedPnl(pnl: real)
      modifies this
      ensures View() == old(View()).Floating(pnl)
    {
      hide Guard.Checked;
      unrealized := pnl;
      var equity := balance + unrealized;
      if equity < daily.lowest {
        daily := daily.(lowest := equity);
      }
      CheckDdBreach();
    }

    method PerformDailyReset(at: int)
      modifies this`daily, this`status
      ensures View() == old(View()).DailyReset(at)
    {
      var sod := Max(balance, balance + unrealized);
      daily := Daily(sod, 0.0, sod, at, 0);
      if status == DailyHalt {
        status := Active;
      }
    }

    method CheckDailyReset(current: Option<int>, clock: int) returns (performed: bool)
      modifies this`daily, this`status
      ensures View() == Step(old(View()), CheckReset(current, clock))
      ensures performed <==> old(View()).ResetDue(EffectiveNow(current, clock))
    {
      var now := if current.Some? && current.value != 0 then current.value else clock;
      var todayReset := Boundary(config, now);
      if todayReset > daily.resetAt && now >= todayReset {
        PerformDailyReset(now);
        return true;
      }
      return false;
    }

    method Rebase(base: real)
      modifies this
      ensures View() == old(View()).Based(base)
    {
      balance, unrealized, peak := base, 0.0, base;
      floor := base * (1.0 - config.maxDdPct / 100.0);
      daily := Daily(base, 0.0, base, 0, 0);
      status := Active;
      totalRealized, totalTrades, halts := 0.0, 0, 0;
    }

    method ResetAccount(newBalance: Option<real>)
      modifies this
      ensures View() == Step(old(View()), Event.ResetAccount(newBalance))
    {
      var base := if newBalance.Some? && newBalance.value != 0.0 then newBalance.value else config.initialBalance;
      config := config.(initialBalance := base);
      Rebase(base);
    }

    method SeedBalance(brokerBalance: real)
      modifies this
      ensures View() == Step(old(View()), Seed(brokerBalance))
    {
      Rebase(brokerBalance);
    }
  }

  // ----- laws of every run -----

  predicate Rebases(e: Event) { e.ResetAccount? || e.Seed? }

  /** Whether this event starts a new risk day. */
  ghost predicate StartsDay(g: Guard, e: Event) {
    e.ForceReset? || Rebases(e) || (e.CheckReset? && g.ResetDue(EffectiveNow(e.current, e.clock)))
  }

  /** A blown account stays blown until it is reset or seeded. */
  lemma {:induction false} BreachIsAbsorbing(g: Guard, es: seq<Event>, n: nat, m: nat)
    requires n <= m <= |es| && Run(g, es, n).status == MaxDdBreach
    requires forall i :: n <= i < m ==> !Rebases(es[i])
    ensures Run(g, es, m).status == MaxDdBreach
  {
    if n < m { BreachIsAbsorbing(g, es, n, m - 1); }
  }

  /** A halted day stays halted, or is blown, until the next day starts. */
  lemma {:induction false} HaltLastsTheDay(g: Guard, es: seq<Event>, n: nat, m: nat)
    requires n <= m <= |es| && Run(g, es, n).status != Active
    requires forall i :: n <= i < m ==> !StartsDay(Run(g, es, i), es[i])
    ensures Run(g, es, m).status != Active
  {
    hide Step, StartsDay;
    if n < m {
      HaltLastsTheDay(g, es, n, m - 1);
      HaltStays(Run(g, es, m - 1), es[m - 1]);
    }
  }

  lemma {:induction false} HaltStays(g: Guard, e: Event)
    requires g.status != Active && !StartsDay(g, e)
    ensures Step(g, e).status != Active
  {
    hide Boundary;
  }

  /** Trading is allowed only above the maximum-drawdown floor and under the daily limit. */
  lemma {:induction false} TradableIsSafe(g: Guard)
    ensures g.Tradable() <==> g.status == Active && g.Equity() > g.floor && g.daily.sod - g.Equity() < g.DailyLimit()
  {
  }

  /** If an accepted trade loses all it risked, equity is still at or above the daily floor. */
  lemma {:induction false} AcceptedLossStaysAboveDailyFloor(g: Guard, risk: real)
    requires g.Accepts(risk)
    ensures g.Equity() - risk >= g.daily.sod - g.DailyLimit()
  {
    hide Guard.DailyLimit, Guard.MaxPerTrade;
  }

  /** The maximum-drawdown floor is not part of the acceptance test: a full loss stays above it
      for every acceptable risk exactly when the tighter of the two tests is. */
  lemma {:induction false} AcceptedLossAndMaxFloor(g: Guard)
    requires g.Tradable()
    ensures (forall risk: real :: g.Accepts(risk) ==> g.Equity() - risk > g.floor)
            <==> Min(g.MaxPerTrade(), g.DailyRemaining()) < g.Equity() - g.floor
  {
    hide Guard.DailyLimit, Guard.MaxPerTrade, Guard.DailyRemaining, Guard.Checked;
    var worst := Min(g.MaxPerTrade(), g.DailyRemaining());
    assert g.Accepts(worst);
  }

  /** A guard that would accept a trade whose full loss reaches the maximum-drawdown floor. */
  ghost predicate AcceptsToTheFloor(g: Guard, risk: real) {
    g.Accepts(risk) && g.Equity() - risk <= g.floor
  }

  /** Realise a loss to just above the floor, then start a new day. */
  function NearFloor(config: Config, gap: real): seq<Event> {
    [RealizedPnl(gap - config.initialBalance * (config.maxDdPct / 100.0)), ForceReset(0)]
  }

  lemma {:induction false} NearFloorGuard(config: Config, gap: real)
    requires gap > 0.0
    ensures var g := Run(Fresh(config), NearFloor(config, gap), 2);
            && g.status == Active && g.unrealized == 0.0 && g.config == config
            && g.balance == g.floor + gap && g.daily.sod == g.balance
            && g.floor == config.initialBalance * (1.0 - config.maxDdPct / 100.0)
  {
    var es, lost := NearFloor(config, gap), config.initialBalance * (config.maxDdPct / 100.0);
    var g0 := Fresh(config);
    assert g0.floor == config.initialBalance - lost;
    var g1 := Step(g0, es[0]);
    assert Run(g0, es, 1) == g1 && g1.balance == g0.floor + gap && g1.status != MaxDdBreach;
  }

  /** Under sound drawdown limits some run reaches such a guard exactly when a trade may risk
      anything at all. */
  lemma {:induction false} FloorIsUnguarded(config: Config)
    requires config.initialBalance > 0.0 && config.dailyDdPct > 0.0 && 0.0 < config.maxDdPct < 100.0
    requires config.maxRiskPct >= 0.0
    ensures (exists es, risk :: AcceptsToTheFloor(Run(Fresh(config), es, |es|), risk)) <==> config.maxRiskPct > 0.0
  {
    hide Guard.Accepts, Guard.Tradable;
    if config.maxRiskPct > 0.0 {
      var floor := config.initialBalance * (1.0 - config.maxDdPct / 100.0);
      var risk := Min(config.initialBalance * (config.maxRiskPct / 100.0), floor * (config.dailyDdPct / 100.0));
      assert floor > 0.0 && risk > 0.0;
      var es := NearFloor(config, risk);
      NearFloorGuard(config, risk);
      FloorTrade(Run(Fresh(config), es, |es|), risk);
    } else {
      forall es, risk ensures !AcceptsToTheFloor(Run(Fresh(config), es, |es|), risk) {
        RunKeepsRiskPct(Fresh(config), es, |es|);
        NoRiskNoFloor(Run(Fresh(config), es, |es|), risk);
      }
    }
  }

  lemma {:induction false} FloorTrade(g: Guard, risk: real)
    requires g.status == Active && g.unrealized == 0.0 && g.daily.sod == g.balance == g.floor + risk
    requires g.config.dailyDdPct > 0.0
    requires 0.0 < risk <= g.MaxPerTrade() && risk <= g.floor * (g.config.dailyDdPct / 100.0)
    ensures AcceptsToTheFloor(g, risk)
  {
    assert risk * (g.config.dailyDdPct / 100.0) > 0.0;
    assert g.DailyLimit() == g.floor * (g.config.dailyDdPct / 100.0) + risk * (g.config.dailyDdPct / 100.0);
    TradableIsSafe(g);
  }

  lemma {:induction false} NoRiskNoFloor(g: Guard, risk: real)
    requires g.config.maxRiskPct == 0.0
    ensures !AcceptsToTheFloor(g, risk)
  {
    TradableIsSafe(g);
  }

  lemma {:induction false} RunKeepsRiskPct(g: Guard, es: seq<Event>, n: nat)
    requires n <= |es|
    ensures Run(g, es, n).config.maxRiskPct == g.config.maxRiskPct
  {
    if n > 0 { RunKeepsRiskPct(g, es, n - 1); }
  }

  // ----- the ledger -----

  /** The balance the last reset or seed set. */
  function Base(g: Guard, es: seq<Event>, n: nat): real
    requires n <= |es|
  {
    if n == 0 then g.balance
    else
      match es[n - 1]
      case ResetAccount(newBalance) => NewBase(Run(g, es, n - 1), newBalance)
      case Seed(balance) => balance
      case _ => Base(g, es, n - 1)
  }

  /** Everything realised since. */
  function RealizedSince(es: seq<Event>, n: nat): real
    requires n <= |es|
  {
    if n == 0 then 0.0
    else
      match es[n - 1]
      case ResetAccount(_) => 0.0
      case Seed(_) => 0.0
      case RealizedPnl(pnl) => RealizedSince(es, n - 1) + pnl
      case _ => RealizedSince(es, n - 1)
  }

  /** Over any run the balance is its base plus everything realised since. */
  lemma {:induction false} BalanceIsBasePlusRealized(config: Config, es: seq<Event>, n: nat)
    requires n <= |es|
    ensures Run(Fresh(config), es, n).balance == Base(Fresh(config), es, n) + RealizedSince(es, n)
  {
    if n > 0 { BalanceIsBasePlusRealized(config, es, n - 1); }
  }

  // ----- the daily reset -----

  lemma {:induction false} BoundaryOfDay(config: Config, now: int, later: int)
    requires now <= later
    ensures Boundary(config, now) <= Boundary(config, later)
    ensures (now + config.resetOffsetMs) / 86_400_000 == (later + config.resetOffsetMs) / 86_400_000
            <==> Boundary(config, now) == Boundary(config, later)
  {
  }

  /** Times of daily-reset checks never run backwards. */
  ghost predicate ForwardChecks(es: seq<Event>) {
    forall i, j :: 0 <= i < j < |es| && Timed(es[i]) && Timed(es[j]) ==> NowOf(es[i]) <= NowOf(es[j])
  }

  predicate Timed(e: Event) { e.CheckReset? || e.ForceReset? }

  function NowOf(e: Event): int {
    match e
    case CheckReset(current, clock) => EffectiveNow(current, clock)
    case ForceReset(clock) => clock
    case _ => 0
  }

  lemma {:induction false} RunKeepsClock(g: Guard, es: seq<Event>, n: nat, now: int)
    requires n <= |es|
    ensures Boundary(Run(g, es, n).config, now) == Boundary(g.config, now)
  {
    if n > 0 { RunKeepsClock(g, es, n - 1, now); }
  }

  /** Account resets and seedings among the events from `i` up to `n`. */
  function Rebasings(es: seq<Event>, i: nat, n: nat): nat
    requires i <= n <= |es|
  {
    if n == i then 0 else Rebasings(es, i, n - 1) + if Rebases(es[n - 1]) then 1 else 0
  }

  /** The recorded reset time is never behind a reset that was performed. */
  lemma {:induction false} ResetTimeAdvances(g: Guard, es: seq<Event>, i: nat, n: nat)
    requires ForwardChecks(es) && i < n <= |es| && Timed(es[i]) && StartsDay(Run(g, es, i), es[i])
    requires Rebasings(es, i, n) == 0
    ensures Run(g, es, n).daily.resetAt >= NowOf(es[i])
    decreases n
  {
    if n > i + 1 {
      ResetTimeAdvances(g, es, i, n - 1);
    }
  }

  /** Two checks of a run that both perform a reset. */
  ghost predicate BothReset(g: Guard, es: seq<Event>, i: nat, j: nat) {
    && i < j < |es| && es[i].CheckReset? && es[j].CheckReset?
    && StartsDay(Run(g, es, i), es[i]) && StartsDay(Run(g, es, j), es[j])
  }

  /** Each daily boundary is used at most once between two account resets or seedings: of two
      performed resets, the later one crosses a strictly later boundary. */
  lemma {:induction false} OneResetPerBoundary(g: Guard, es: seq<Event>, i: nat, j: nat)
    requires ForwardChecks(es) && BothReset(g, es, i, j) && Rebasings(es, i, j) == 0
    ensures Boundary(g.config, NowOf(es[i])) < Boundary(g.config, NowOf(es[j]))
  {
    ResetTimeAdvances(g, es, i, j);
    RunKeepsClock(g, es, i, NowOf(es[i]));
    RunKeepsClock(g, es, j, NowOf(es[j]));
  }

  /** Two resets at one boundary, with at most `n` account resets or seedings in between. */
  ghost predicate ResetsTwice(g: Guard, es: seq<Event>, i: nat, j: nat, n: nat) {
    && ForwardChecks(es) && BothReset(g, es, i, j) && Rebasings(es, i, j) <= n
    && Boundary(g.config, NowOf(es[i])) == Boundary(g.config, NowOf(es[j]))
  }

  /** A check, a seeding and a check at the same instant. */
  function SeededTwice(now: int, balance: real): seq<Event> {
    [CheckReset(Some(now), now), Seed(balance), CheckReset(Some(now), now)]
  }

  lemma {:induction false} SeedingResetsAgain(config: Config, now: int)
    requires Boundary(config, now) == now > 0
    ensures ResetsTwice(Fresh(config), SeededTwice(now, config.initialBalance), 0, 2, 1)
  {
    hide Boundary;
    var g, es := Fresh(config), SeededTwice(now, config.initialBalance);
    assert Run(g, es, 1) == g.DailyReset(now);
    assert Run(g, es, 2) == g.DailyReset(now).Based(config.initialBalance);
    assert Rebasings(es, 0, 1) == 0;
  }

  /** The same boundary can reset the day twice exactly when an account reset or a seeding may
      lie between the two checks. */
  lemma {:induction false} RebasingBound(config: Config, n: nat)
    requires 0 <= config.resetHour < 24 && 0 <= config.resetMinute < 60
    ensures (exists es, i, j :: ResetsTwice(Fresh(config), es, i, j, n)) <==> n >= 1
  {
    hide Boundary, Rebasings, Fresh, ForwardChecks, BothReset;
    if n >= 1 {
      var now := ResetInstant(config);
      SeedingResetsAgain(config, now);
      assert ResetsTwice(Fresh(config), SeededTwice(now, config.initialBalance), 0, 2, n);
    } else {
      forall es, i, j ensures !ResetsTwice(Fresh(config), es, i, j, n) {
        if ResetsTwice(Fresh(config), es, i, j, n) {
          OneResetPerBoundary(Fresh(config), es, i, j);
          assert false;
        }
      }
    }
  }

  /** A reset instant after time zero. */
  lemma {:induction false} ResetInstant(config: Config) returns (now: int)
    requires 0 <= config.resetHour < 24 && 0 <= config.resetMinute < 60
    ensures Boundary(config, now) == now > 0
  {
    var delay := config.resetHour * 3_600_000 + config.resetMinute * 60_000;
    var days := Abs(config.resetOffsetMs as real).Floor + 1;
    now := 86_400_000 * days + delay - config.resetOffsetMs;
    assert (now + config.resetOffsetMs) / 86_400_000 == days;
  }

  /** Some daily boundary lies after `last` and not after `now`. */
  ghost predicate BoundaryPassed(config: Config, last: int, now: int) {
    exists t :: t <= now && last < Boundary(config, t) <= now
  }

  /** A check performs every reset that is due exactly when the firm resets at local midnight:
      with a later reset hour, a boundary that passed before midnight is missed afterwards. */
  lemma {:induction false} ResetsAreCaughtUp(config: Config)
    requires 0 <= config.resetHour < 24 && 0 <= config.resetMinute < 60
    ensures (forall last: int, now: int :: BoundaryPassed(config, last, now) ==> last < Boundary(config, now) <= now)
            <==> config.resetHour == 0 && config.resetMinute == 0
  {
    var delay := config.resetHour * 3_600_000 + config.resetMinute * 60_000;
    if delay == 0 {
      forall last: int, now: int | BoundaryPassed(config, last, now) ensures last < Boundary(config, now) <= now {
        var t :| t <= now && last < Boundary(config, t) <= now;
        BoundaryOfDay(config, t, now);
      }
    } else {
      var now := -config.resetOffsetMs;
      var t := now - 1;
      assert Boundary(config, t) == -86_400_000 + delay - config.resetOffsetMs;
      assert Boundary(config, now) == delay - config.resetOffsetMs;
      assert BoundaryPassed(config, Boundary(config, t) - 1, now);
    }
  }

  /** A reset is due by the boundaries that passed, and the check at `now` does not perform it. */
  ghost predicate MissesAReset(g: Guard, now: int) {
    g.daily.resetAt <= now && BoundaryPassed(g.config, g.daily.resetAt, now) && !g.ResetDue(now)
  }

  /** Some run reaches a guard whose next check misses a due reset exactly when the firm does not
      reset at local midnight. */
  lemma {:induction false} SomeRunMissesAReset(config: Config)
    requires 0 <= config.resetHour < 24 && 0 <= config.resetMinute < 60
    ensures (exists es, now :: MissesAReset(Run(Fresh(config), es, |es|), now))
            <==> !(config.resetHour == 0 && config.resetMinute == 0)
  {
    hide Boundary, BoundaryPassed;
    ResetsAreCaughtUp(config);
    if config.resetHour == 0 && config.resetMinute == 0 {
      forall es, now ensures !MissesAReset(Run(Fresh(config), es, |es|), now) {
        SameClock(config, es, now);
      }
    } else {
      var last: int, now: int :| BoundaryPassed(config, last, now) && !(last < Boundary(config, now) <= now);
      var es := [ForceReset(last)];
      assert Run(Fresh(config), es, 1) == Fresh(config).DailyReset(last);
      PassedIsLater(config, last, now);
      assert MissesAReset(Run(Fresh(config), es, |es|), now);
    }
  }

  lemma {:induction false} PassedIsLater(config: Config, last: int, now: int)
    requires BoundaryPassed(config, last, now)
    ensures last <= now
  {
  }

  lemma {:induction false} SameClock(config: Config, es: seq<Event>, now: int)
    ensures var g := Run(Fresh(config), es, |es|);
            && g.ResetDue(now) == (g.daily.resetAt < Boundary(config, now) <= now)
            && BoundaryPassed(g.config, g.daily.resetAt, now) == BoundaryPassed(config, g.daily.resetAt, now)
  {
    hide Boundary;
    var g := Run(Fresh(config), es, |es|);
    forall t ensures Boundary(g.config, t) == Boundary(config, t) {
      RunKeepsClock(Fresh(config), es, |es|, t);
    }
  }
}

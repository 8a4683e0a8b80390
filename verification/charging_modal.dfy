/** The charging-session controller of the charging modal: a four-phase state
    machine (pre-charging, charging, post-charging, error), a one-second meter
    tick that derives energy, cost and a candidate wallet balance, and the
    wallet persisted under the storage key `mockWallet`.

    Units: energy in hundredths of a kWh, money in hundredths of an ETB. The
    meter accrues 0.01 kWh per second, so after `elapsed` whole seconds the
    session holds `elapsed` hundredths of a kWh and costs `15 * elapsed`
    hundredths of an ETB. */
module ChargingModal {
  import opened Wrappers
  import Routes

  /** Balance of a fresh or reset wallet: 1000.00 ETB. */
  const DefaultBalance: int := 100000
  /** Price per kWh in ETB (hundredths of an ETB per hundredth of a kWh). */
  const PricePerKwh: int := 15

  /** `chargingState`; `Failed` is the source's 'error'. */
  datatype Phase = PreCharging | Charging | PostCharging | Failed

  datatype SessionStatus = Idle | Active | Completed

  datatype Session = Session(kwh: nat, cost: nat, startTime: Option<int>, status: SessionStatus)

  /** A connector ("gun") of the station, as far as the controller reads it. */
  datatype Gun = Gun(id: string, status: string)

  /** The station-details reply: a status code and, with it, the station's guns. */
  datatype StationReply = StationReply(statusCode: int, guns: seq<Gun>)

  /** The reply of the session backend to a start or stop request, or the
      exception the request raised. */
  datatype Reply = Reply(statusCode: int) | Thrown(message: string)

  /** The `balance` member of the parsed storage entry: a JSON number, or
      anything else (a string, `null`, missing). */
  datatype JsonBalance = Number(hundredths: int) | NotANumber

  /** The storage entry `mockWallet`: absent, text on which reading `.balance`
      throws (invalid JSON, `null`), or a parsed object. */
  datatype StoredWallet = NoEntry | Malformed(message: string) | Entry(balance: JsonBalance)

  /** `guns.find(g => g.id === gunId)`: the first gun with that id. */
  function FindGun(guns: seq<Gun>, gunId: string): (r: Option<Gun>)
    ensures r.None? <==> forall i :: 0 <= i < |guns| ==> guns[i].id != gunId
    ensures r.Some? ==> r.value.id == gunId && r.value in guns
    ensures r.Some? ==> exists i :: 0 <= i < |guns| && guns[i] == r.value && forall j :: 0 <= j < i ==> guns[j].id != gunId
  {
    if guns == [] then None
    else if guns[0].id == gunId then Some(guns[0])
    else
      var r := FindGun(guns[1..], gunId);
      assert forall i :: 1 <= i < |guns| ==> guns[i] == guns[1..][i - 1];
      r
  }

  /** The balance adopted when the modal loads: a stored number that is not
      negative is kept, anything else becomes the default. `None` when reading
      the entry throws, in which case the wallet keeps its initial state. A
      missing entry reads as the fallback text `{"balance": 1000}`. */
  function WalletOnLoad(saved: StoredWallet): (r: Option<int>)
    ensures r.None? <==> saved.Malformed?
    ensures r.Some? ==> r.value >= 0
    ensures saved.Entry? && saved.balance.Number? && saved.balance.hundredths >= 0
            ==> r == Some(saved.balance.hundredths)
    ensures r.Some? && r.value != DefaultBalance ==> saved == Entry(Number(r.value))
  {
    match saved
    case NoEntry => Some(DefaultBalance)
    case Malformed(_) => None
    case Entry(Number(b)) => if b >= 0 then Some(b) else Some(DefaultBalance)
    case Entry(NotANumber) => Some(DefaultBalance)
  }

  /** What one firing of the charging interval decides, `elapsed` whole
      seconds after the start, against the balance the interval closed over. */
  datatype TickResult = Accepted(kwh: nat, cost: nat, balance: int) | Rejected

  function TickDecision(balance: int, elapsed: nat): (r: TickResult)
    ensures r.Accepted? <==> balance >= PricePerKwh * elapsed
    ensures r.Accepted? ==> r.kwh == elapsed && r.cost == PricePerKwh * r.kwh
    ensures r.Accepted? ==> r.balance + r.cost == balance && 0 <= r.balance <= balance
  {
    var kwh := elapsed;
    var cost := PricePerKwh * kwh;
    var candidate := balance - cost;
    if candidate < 0 then Rejected else Accepted(kwh, cost, candidate)
  }

  /** What the ticks observe: the wallet balance, the session's energy and
      cost, and whether the interval has been halted. */
  datatype Meter = Meter(balance: int, kwh: nat, cost: nat, halted: bool)

  /** One tick as the source runs it. The interval is re-created whenever the
      wallet balance changes, so each tick debits the cumulative cost from the
      balance left by the previous tick. A rejected tick halts the interval
      and leaves balance, energy and cost as they were. */
  function Step(m: Meter, elapsed: nat): (r: Meter)
    ensures m.halted ==> r == m
    ensures r.balance <= m.balance
    ensures m.balance >= 0 ==> r.balance >= 0
    ensures !r.halted ==> r.kwh == elapsed && r.cost == PricePerKwh * r.kwh
    ensures r.halted && !m.halted ==> r == m.(halted := true)
    ensures !m.halted ==> (r.halted <==> m.balance < PricePerKwh * elapsed)
    ensures !m.halted && !r.halted ==> r.balance == m.balance - PricePerKwh * elapsed
  {
    if m.halted then m
    else match TickDecision(m.balance, elapsed)
      case Rejected => m.(halted := true)
      case Accepted(k, c, b) => Meter(b, k, c, false)
  }

  /** The meter after the interval fired at each of `ticks` (seconds since the
      start), starting from a fresh session and the balance `initial`. */
  function RunTicks(initial: int, ticks: seq<nat>): (r: Meter)
    ensures r.cost == PricePerKwh * r.kwh
    ensures !r.halted && ticks != [] ==> r.kwh == ticks[|ticks| - 1]
    decreases |ticks|
  {
    if ticks == [] then Meter(initial, 0, 0, false)
    else Step(RunTicks(initial, ticks[..|ticks| - 1]), ticks[|ticks| - 1])
  }

  /** Whatever the tick times, the balance never rises above where it started,
      never goes negative, and the cost is always 15 times the energy. */
  lemma {:induction false} RunTicksBounds(initial: int, ticks: seq<nat>)
    requires initial >= 0
    ensures 0 <= RunTicks(initial, ticks).balance <= initial
    ensures RunTicks(initial, ticks).cost == PricePerKwh * RunTicks(initial, ticks).kwh
    decreases |ticks|
  {
    if ticks != [] {
      RunTicksBounds(initial, ticks[..|ticks| - 1]);
    }
  }

  /** The balance is non-increasing along every run: a later observation is
      never above an earlier one. */
  lemma {:induction false} RunTicksNonIncreasing(initial: int, ticks: seq<nat>, i: nat)
    requires i <= |ticks|
    ensures RunTicks(initial, ticks).balance <= RunTicks(initial, ticks[..i]).balance
    decreases |ticks|
  {
    if i < |ticks| {
      var n := |ticks| - 1;
      assert ticks[..n][..i] == ticks[..i];
      RunTicksNonIncreasing(initial, ticks[..n], i);
    } else {
      assert ticks[..i] == ticks;
    }
  }

  /** A rejected tick is final: once halted, later firings change nothing, so
      the wallet keeps its last accepted value. */
  lemma {:induction false} HaltIsFinal(initial: int, ticks: seq<nat>, i: nat)
    requires i <= |ticks|
    requires RunTicks(initial, ticks[..i]).halted
    ensures RunTicks(initial, ticks) == RunTicks(initial, ticks[..i])
    decreases |ticks|
  {
    if i < |ticks| {
      var n := |ticks| - 1;
      assert ticks[..n][..i] == ticks[..i];
      HaltIsFinal(initial, ticks[..n], i);
    } else {
      assert ticks[..i] == ticks;
    }
  }

  /** The ticks of an uninterrupted run: 1, 2, ..., n seconds after the start. */
  function Seconds(n: nat): (s: seq<nat>)
    ensures |s| == n
    ensures forall i :: 0 <= i < n ==> s[i] == i + 1
  {
    if n == 0 then [] else Seconds(n - 1) + [n]
  }

  /** 1 + 2 + ... + n. */
  function Triangle(n: nat): nat {
    if n == 0 then 0 else Triangle(n - 1) + n
  }

  /** As written, after n one-second ticks the wallet has been debited
      15 * (1 + 2 + ... + n) hundredths, not 15 * n: every tick charges the
      whole session again. */
  lemma {:induction false} AsWrittenDebit(initial: int, n: nat)
    requires PricePerKwh * Triangle(n) <= initial
    ensures RunTicks(initial, Seconds(n)) == Meter(initial - PricePerKwh * Triangle(n), n, PricePerKwh * n, false)
  {
    if n > 0 {
      assert Seconds(n)[..n - 1] == Seconds(n - 1);
      AsWrittenDebit(initial, n - 1);
    }
  }

  /** The corrected tick: the candidate balance is the balance at the start of
      the session minus the session's cost. */
  function IntendedStep(initial: int, m: Meter, elapsed: nat): Meter {
    if m.halted then m
    else match TickDecision(initial, elapsed)
      case Rejected => m.(halted := true)
      case Accepted(k, c, b) => Meter(b, k, c, false)
  }

  function IntendedRun(initial: int, ticks: seq<nat>): (r: Meter)
    ensures r.cost == PricePerKwh * r.kwh
    ensures !r.halted && ticks != [] ==> r.kwh == ticks[|ticks| - 1]
    decreases |ticks|
  {
    if ticks == [] then Meter(initial, 0, 0, false)
    else IntendedStep(initial, IntendedRun(initial, ticks[..|ticks| - 1]), ticks[|ticks| - 1])
  }

  /** With the corrected tick, balance plus cost is always the starting
      balance, and the balance never goes negative. */
  lemma {:induction false} IntendedRunConservesMoney(initial: int, ticks: seq<nat>)
    requires initial >= 0
    ensures IntendedRun(initial, ticks).balance + IntendedRun(initial, ticks).cost == initial
    ensures IntendedRun(initial, ticks).balance >= 0
    ensures IntendedRun(initial, ticks).cost == PricePerKwh * IntendedRun(initial, ticks).kwh
    decreases |ticks|
  {
    if ticks != [] {
      IntendedRunConservesMoney(initial, ticks[..|ticks| - 1]);
    }
  }

  /** With the corrected tick, n uninterrupted seconds cost exactly 15 * n. */
  lemma {:induction false} IntendedDebit(initial: int, n: nat)
    requires PricePerKwh * n <= initial
    ensures IntendedRun(initial, Seconds(n)) == Meter(initial - PricePerKwh * n, n, PricePerKwh * n, false)
  {
    if n > 0 {
      assert Seconds(n)[..n - 1] == Seconds(n - 1);
      IntendedDebit(initial, n - 1);
    }
  }

  /** Two ticks from 1000.00 ETB: as written the wallet shows 999.55 ETB, the
      intended 999.70 ETB. After 100 seconds the intended wallet shows 985.00
      ETB for 1.00 kWh, while the code as written is down to 242.50 ETB. */
  lemma CumulativeDebitOvercharges()
    ensures RunTicks(DefaultBalance, Seconds(2)).balance == 99955
    ensures IntendedRun(DefaultBalance, Seconds(2)).balance == 99970
    ensures RunTicks(DefaultBalance, Seconds(100)) == Meter(24250, 100, 1500, false)
    ensures IntendedRun(DefaultBalance, Seconds(100)) == Meter(98500, 100, 1500, false)
  {
    AsWrittenDebit(DefaultBalance, 2);
    IntendedDebit(DefaultBalance, 2);
    TriangleClosedForm(100);
    AsWrittenDebit(DefaultBalance, 100);
    IntendedDebit(DefaultBalance, 100);
  }

  /** From 10.00 ETB the code as written halts at the 12th second with 0.10
      ETB left after 0.11 kWh, where the intended meter runs to the 66th
      second and halts at the 67th. */
  lemma SmallWalletHaltsEarly()
    ensures RunTicks(1000, Seconds(11)) == Meter(10, 11, 165, false)
    ensures RunTicks(1000, Seconds(12)) == Meter(10, 11, 165, true)
    ensures IntendedRun(1000, Seconds(66)) == Meter(10, 66, 990, false)
    ensures IntendedRun(1000, Seconds(67)) == Meter(10, 66, 990, true)
  {
    TriangleClosedForm(11);
    AsWrittenDebit(1000, 11);
    assert Seconds(12)[..11] == Seconds(11);
    IntendedDebit(1000, 66);
    assert Seconds(67)[..66] == Seconds(66);
  }

  lemma {:induction false} TriangleClosedForm(n: nat)
    ensures 2 * Triangle(n) == n * (n + 1)
  {
    if n > 0 {
      TriangleClosedForm(n - 1);
    }
  }

  /** The modal's state. `storage` is the `mockWallet` entry of local storage.
      The interval runs exactly while the phase is `Charging`: the effect that
      owns it is torn down whenever the phase changes. */
  class Controller {
    var phase: Phase
    var station: Option<seq<Gun>>
    var connector: Option<Gun>
    var balance: int
    var storage: StoredWallet
    var session: Session
    var error: Option<string>

    ghost predicate Valid()
      reads this
    {
      && session.cost == PricePerKwh * session.kwh
      && balance >= 0
      && (phase == Failed <==> error.Some?)
      && (phase == PreCharging ==> station.Some? && connector.Some?)
      && (phase == Charging ==>
            connector.Some? && connector.value.status == "available"
            && session.status == Active && session.startTime.Some?)
      && (phase == PostCharging ==> session.status == Completed)
      && (phase != Failed ==> storage == Entry(Number(balance)))
    }

    /** The meter the ticks see; halted unless charging. */
    function Reading(): Meter
      reads this
    {
      Meter(balance, session.kwh, session.cost, phase != Charging)
    }

    /** Mounting the modal for `gunId`: the load effect reads the station reply,
        looks the gun up, then reads, validates and writes back the wallet. */
    constructor (gunId: string, reply: StationReply, saved: StoredWallet)
      ensures Valid()
      ensures reply.statusCode == 200 ==> station == Some(reply.guns) && connector == FindGun(reply.guns, gunId)
      ensures reply.statusCode != 200 ==> station.None? && connector.None?
      ensures balance == WalletOnLoad(saved).GetOr(DefaultBalance)
      ensures storage == if saved.Malformed? then saved else Entry(Number(balance))
      ensures session == Session(0, 0, None, Idle)
      ensures phase == if saved.Malformed? || station.None? || connector.None? then Failed else PreCharging
      ensures saved.Malformed? ==> error == Some("Error loading data: " + saved.message)
      ensures !saved.Malformed? && reply.statusCode != 200 ==> error == Some("Failed to fetch station details.")
      ensures !saved.Malformed? && reply.statusCode == 200 && connector.None? ==> error == Some("Connector not found.")
    {
      var ph, st, con, err := PreCharging, None, None, None;
      if reply.statusCode == 200 {
        st := Some(reply.guns);
        con := FindGun(reply.guns, gunId);
        if con.None? {
          err := Some("Connector not found.");
          ph := Failed;
        }
      } else {
        err := Some("Failed to fetch station details.");
        ph := Failed;
      }
      var bal, stored := DefaultBalance, saved;
      var loaded := WalletOnLoad(saved);
      if loaded.Some? {
        bal := loaded.value;
        stored := Entry(Number(bal));
      } else {
        err := Some("Error loading data: " + saved.message);
        ph := Failed;
      }
      phase, station, connector, error := ph, st, con, err;
      balance, storage := bal, stored;
      session := Session(0, 0, None, Idle);
    }

    /** `startCharging`, offered only in the pre-charging view. An unavailable
        connector and a failed start both end in the error phase; the wallet
        is never touched. */
    method StartCharging(now: int, reply: Reply)
      requires Valid() && phase == PreCharging
      modifies this
      ensures Valid()
      ensures station == old(station) && connector == old(connector)
      ensures balance == old(balance) && storage == old(storage)
      ensures connector.value.status != "available"
              ==> phase == Failed && error == Some("Connector is not available.") && session == old(session)
      ensures connector.value.status == "available" && reply == Reply(200)
              ==> phase == Charging && session == Session(0, 0, Some(now), Active) && error.None?
      ensures connector.value.status == "available" && reply.Reply? && reply.statusCode != 200
              ==> phase == Failed && error == Some("Failed to start charging session.") && session == old(session)
      ensures connector.value.status == "available" && reply.Thrown?
              ==> phase == Failed && error == Some("Error starting session: " + reply.message) && session == old(session)
    {
      if connector.value.status != "available" {
        error := Some("Connector is not available.");
        phase := Failed;
        return;
      }
      match reply
      case Reply(code) =>
        if code == 200 {
          session := Session(0, 0, Some(now), Active);
          phase := Charging;
        } else {
          error := Some("Failed to start charging session.");
          phase := Failed;
        }
      case Thrown(message) =>
        error := Some("Error starting session: " + message);
        phase := Failed;
    }

    /** One firing of the interval, `elapsed` seconds after the start. Outside
        the charging phase no interval runs and nothing changes. */
    method Tick(elapsed: nat)
      requires Valid()
      modifies this
      ensures Valid()
      ensures Reading() == Step(old(Reading()), elapsed)
      ensures station == old(station) && connector == old(connector)
      ensures old(phase) != Charging ==> unchanged(this)
      ensures old(phase) == Charging && TickDecision(old(balance), elapsed).Rejected?
              ==> phase == Failed && error == Some("Insufficient wallet balance.")
                  && session == old(session) && balance == old(balance) && storage == old(storage)
      ensures old(phase) == Charging && TickDecision(old(balance), elapsed).Accepted?
              ==> phase == Charging && error == old(error) && storage == Entry(Number(balance))
                  && session == old(session).(kwh := elapsed, cost := PricePerKwh * elapsed, status := Active)
    {
      if phase != Charging {
        return;
      }
      var kwh := elapsed;
      var cost := PricePerKwh * kwh;
      var candidate := balance - cost;
      if candidate < 0 {
        error := Some("Insufficient wallet balance.");
        phase := Failed;
        return;
      }
      session := session.(kwh := kwh, cost := cost, status := Active);
      balance := candidate;
      storage := Entry(Number(candidate));
    }

    /** `stopCharging`, offered only in the charging view. Success freezes
        energy and cost and completes the session; any failure enters the
        error phase, which also tears the interval down. */
    method StopCharging(reply: Reply)
      requires Valid() && phase == Charging
      modifies this
      ensures Valid()
      ensures station == old(station) && connector == old(connector)
      ensures balance == old(balance) && storage == old(storage)
      ensures session.kwh == old(session.kwh) && session.cost == old(session.cost)
      ensures reply == Reply(200)
              ==> phase == PostCharging && session == old(session).(status := Completed) && error.None?
      ensures reply.Reply? && reply.statusCode != 200
              ==> phase == Failed && error == Some("Failed to stop charging session.") && session == old(session)
      ensures reply.Thrown?
              ==> phase == Failed && error == Some("Error stopping session: " + reply.message) && session == old(session)
    {
      match reply
      case Reply(code) =>
        if code == 200 {
          session := session.(status := Completed);
          phase := PostCharging;
        } else {
          error := Some("Failed to stop charging session.");
          phase := Failed;
        }
      case Thrown(message) =>
        error := Some("Error stopping session: " + message);
        phase := Failed;
    }

    /** `resetWallet`: the wallet and its storage entry go back to 1000.00 ETB. */
    method ResetWallet()
      requires Valid()
      modifies this
      ensures Valid()
      ensures balance == DefaultBalance && storage == Entry(Number(DefaultBalance))
      ensures phase == old(phase) && session == old(session) && error == old(error)
      ensures station == old(station) && connector == old(connector)
    {
      balance := DefaultBalance;
      storage := Entry(Number(DefaultBalance));
    }

    /** The close and return buttons: reset the wallet, then leave for the
        home page. */
    method Close() returns (path: string)
      requires Valid()
      modifies this
      ensures Valid()
      ensures path == Routes.HomePath
      ensures balance == DefaultBalance && storage == Entry(Number(DefaultBalance))
      ensures phase == old(phase) && session == old(session) && error == old(error)
      ensures station == old(station) && connector == old(connector)
    {
      ResetWallet();
      path := Routes.HomePath;
    }
  }
}

/**
 * The simulated route-risk engine of src/tbw/navigation/NavRiskEngine.js.
 * The interval is a flag plus a count of intervals created; each firing of
 * the interval is an explicit call of `Tick` with the `Math.random()` draw
 * `r`. The callbacks are recorded, in call order, in `emitted`; an omitted
 * callback (`onRisk?.`) records nothing.
 */
module NavRiskEngine {
  import opened Wrappers

  datatype CriticalEvent = CriticalEvent(kind: string, text: string, severity: string, lat: real, lon: real)

  const DemoEvents: seq<CriticalEvent> := [
    CriticalEvent("WEATHER_SNOW", "POJAČAN SNIJEG NA RUTI — SMANJITE BRZINU", "CRITICAL", 45.815, 15.9819),
    CriticalEvent("ACCIDENT", "NESREĆA 23 km ISPRED — KOLONA ~5 km", "CRITICAL", 45.90, 16.05)
  ]

  /** One callback invocation. */
  datatype Emission = OnRisk(risk: bool) | OnClear(event: Option<CriticalEvent>)

  /** `DEMO_EVENTS[Math.floor(r * DEMO_EVENTS.length)]` for a draw `r` in [0, 1). */
  function PickEvent(r: real): (ev: CriticalEvent)
    requires 0.0 <= r < 1.0
    ensures ev in DemoEvents
  {
    var i := (r * 2.0).Floor;
    DemoEvents[i]
  }

  class Engine {
    const hasOnRisk: bool
    const hasOnClear: bool
    /** `timer !== null`. */
    var timer: bool
    /** How many intervals `start` has created. */
    var intervals: nat
    var active: bool
    var emitted: seq<Emission>

    /** `createNavRiskEngine({ onRisk, onClear })`. */
    constructor (hasOnRisk: bool, hasOnClear: bool)
      ensures this.hasOnRisk == hasOnRisk && this.hasOnClear == hasOnClear
      ensures !timer && intervals == 0 && !active && emitted == []
    {
      this.hasOnRisk := hasOnRisk;
      this.hasOnClear := hasOnClear;
      timer := false;
      intervals := 0;
      active := false;
      emitted := [];
    }

    /** The calls `onRisk?.(risk)` makes. */
    function Risk(risk: bool): seq<Emission>
      reads this
    {
      if hasOnRisk then [OnRisk(risk)] else []
    }

    /** The calls `onClear?.(ev)` makes. */
    function Clear(ev: Option<CriticalEvent>): seq<Emission>
      reads this
    {
      if hasOnClear then [OnClear(ev)] else []
    }

    /** `start()`: creates an interval unless one exists, so a second `start` creates none. */
    method Start()
      modifies this
      ensures timer
      ensures intervals == if old(timer) then old(intervals) else old(intervals) + 1
      ensures active == old(active) && emitted == old(emitted)
    {
      if timer {
        return;
      }
      timer := true;
      intervals := intervals + 1;
    }

    /**
     * One firing of the interval: while a risk is active nothing happens;
     * otherwise the risk turns active and `onRisk(true)`, `onClear(null)`
     * and `onClear(ev)` follow in that order, `ev` one of the demo events.
     */
    method Tick(r: real)
      requires timer
      requires 0.0 <= r < 1.0
      modifies this
      ensures old(active) ==> active && emitted == old(emitted)
      ensures !old(active) ==> active && emitted == old(emitted) + Risk(true) + Clear(None) + Clear(Some(PickEvent(r)))
      ensures timer == old(timer) && intervals == old(intervals)
    {
      if active {
        return;
      }
      var ev := PickEvent(r);
      active := true;
      emitted := emitted + Risk(true);
      emitted := emitted + Clear(None);
      emitted := emitted + Clear(Some(ev));
    }

    /** `stop()`: the interval is cleared; a raised risk stays raised. */
    method Stop()
      modifies this
      ensures !timer && intervals == old(intervals)
      ensures active == old(active) && emitted == old(emitted)
    {
      timer := false;
    }

    /** `clear()`: the risk is lowered and `onRisk(false)`, `onClear(null)` follow. */
    method ClearRisk()
      modifies this
      ensures !active && emitted == old(emitted) + Risk(false) + Clear(None)
      ensures timer == old(timer) && intervals == old(intervals)
    {
      active := false;
      emitted := emitted + Risk(false);
      emitted := emitted + Clear(None);
    }
  }

  /** After `clear()`, the next firing raises the risk again. */
  method ClearRearms(e: Engine, r: real)
    requires e.timer && 0.0 <= r < 1.0
    modifies e
    ensures e.active
    ensures e.emitted == old(e.emitted) + e.Risk(false) + e.Clear(None) + e.Risk(true) + e.Clear(None) + e.Clear(Some(PickEvent(r)))
  {
    e.ClearRisk();
    e.Tick(r);
  }
}

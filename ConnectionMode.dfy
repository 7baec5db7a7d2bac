/**
 * The firmware's Bluetooth connection mode: whether a client is connected,
 * whether the device is discoverable (pairing enabled by the on-screen
 * CONNECT button for 60 seconds), and the touch edge detector behind the
 * CONNECT and STOP buttons. The serial-port callback and each pass of the
 * main loop are discrete events on this state.
 */
module ConnectionMode {
  import opened Arduino

  /** How long the device stays discoverable after CONNECT (`DISCOVERABLE_DURATION`). */
  const DISCOVERABLE_DURATION: Millis := 60000

  /** The serial-port profile events the callback distinguishes. */
  datatype SppEvent = SrvOpen | Close | OtherSpp

  /**
   * The globals `btConnected`, `btDiscoverable`, `discoverableStartTime`
   * and the loop's `static bool lastTouchState`.
   */
  datatype BtState = BtState(connected: bool, discoverable: bool, startTime: Millis, lastTouch: bool)

  /** The state after boot: not connected, not discoverable, no touch seen. */
  const Boot: BtState := BtState(false, false, 0, false)

  /** The screen shown by `updateDisplay`: 0 idle, 1 searching, 2 connected. */
  function DisplayState(connected: bool, discoverable: bool): (r: int)
    ensures r == 2 <==> connected
    ensures r == 1 <==> discoverable && !connected
    ensures r == 0 <==> !connected && !discoverable
  {
    if connected then 2 else if discoverable then 1 else 0
  }

  /** The touch panel reports (-1, -1), or another non-positive point, when not pressed. */
  predicate Touching(x: int, y: int)
  {
    x > 0 && y > 0
  }

  /** The CONNECT button on the idle screen: x in [70, 250], y in [190, 240]. */
  predicate InConnectButton(x: int, y: int)
  {
    70 <= x <= 250 && 190 <= y <= 240
  }

  /** The STOP button on the connected screen: x in [195, 305], y in [185, 230]. */
  predicate InStopButton(x: int, y: int)
  {
    195 <= x <= 305 && 185 <= y <= 230
  }

  /** A press that was not already held during the previous pass of the loop. */
  predicate RisingEdge(s: BtState, x: int, y: int)
  {
    Touching(x, y) && !s.lastTouch
  }

  predicate ConnectFires(s: BtState, x: int, y: int)
  {
    !s.connected && !s.discoverable && RisingEdge(s, x, y) && InConnectButton(x, y)
  }

  predicate StopFires(s: BtState, x: int, y: int)
  {
    s.connected && RisingEdge(s, x, y) && InStopButton(x, y)
  }

  /**
   * The touch handling of one pass of `loop()` at time `now`: CONNECT makes
   * the device discoverable and starts the window, STOP drops the link and
   * leaves the connection mode, and the sample is remembered for the next
   * edge. The two buttons overlap on screen, but within one atomic pass no
   * press fires both; `TouchStepInterleaved` shows what a callback arriving
   * during the CONNECT branch's delays changes.
   */
  function TouchStep(s: BtState, x: int, y: int, now: Millis): (r: BtState)
    ensures !(ConnectFires(s, x, y) && StopFires(s, x, y))
    ensures r.lastTouch == Touching(x, y)
    ensures ConnectFires(s, x, y) ==>
              r == s.(discoverable := true, startTime := now, lastTouch := Touching(x, y))
    ensures StopFires(s, x, y) ==>
              r == s.(connected := false, discoverable := false, lastTouch := Touching(x, y))
    ensures !ConnectFires(s, x, y) && !StopFires(s, x, y) ==> r == s.(lastTouch := Touching(x, y))
    ensures r.connected ==> s.connected
    ensures r.discoverable && !s.discoverable ==> ConnectFires(s, x, y)
  {
    var afterConnect := if ConnectFires(s, x, y) then s.(discoverable := true, startTime := now) else s;
    var afterStop :=
      if StopFires(afterConnect, x, y) then afterConnect.(connected := false, discoverable := false)
      else afterConnect;
    afterStop.(lastTouch := Touching(x, y))
  }

  /**
   * The touch handling when the serial-port callback delivers `mid` while
   * the CONNECT branch sleeps (its `delay` calls), before the STOP test
   * reads `btConnected` again with the same touch sample. No callback
   * (`OtherSpp`) gives `TouchStep`; a client that connects then, tapped
   * inside both buttons, is disconnected again in the same pass.
   */
  function TouchStepInterleaved(s: BtState, x: int, y: int, now: Millis, mid: SppEvent): (r: BtState)
    ensures mid == OtherSpp || !ConnectFires(s, x, y) ==> r == TouchStep(s, x, y, now)
    ensures ConnectFires(s, x, y) && mid == SrvOpen ==>
              (r.connected <==> !InStopButton(x, y)) && (r.discoverable <==> !InStopButton(x, y))
    ensures ConnectFires(s, x, y) && mid == Close ==>
              r == s.(discoverable := true, startTime := now, lastTouch := Touching(x, y))
  {
    var afterConnect := if ConnectFires(s, x, y) then s.(discoverable := true, startTime := now) else s;
    var afterCallback := if ConnectFires(s, x, y) then SppStep(afterConnect, mid) else afterConnect;
    var afterStop :=
      if StopFires(afterCallback, x, y) then afterCallback.(connected := false, discoverable := false)
      else afterCallback;
    afterStop.(lastTouch := Touching(x, y))
  }

  /**
   * The connection-mode timeout of one pass of `loop()`: a discoverable but
   * unconnected device stops being discoverable once more than 60 seconds
   * (by wrapping 32-bit subtraction) have passed since CONNECT.
   */
  function TimeoutStep(s: BtState, now: Millis): (r: BtState)
    ensures r.connected == s.connected && r.startTime == s.startTime && r.lastTouch == s.lastTouch
    ensures r.discoverable ==> s.discoverable
    ensures r.discoverable != s.discoverable <==>
              s.discoverable && !s.connected && ElapsedMillis(now, s.startTime) > DISCOVERABLE_DURATION
    ensures r.discoverable && !r.connected ==> ElapsedMillis(now, r.startTime) <= DISCOVERABLE_DURATION
  {
    if s.discoverable && !s.connected && ElapsedMillis(now, s.startTime) > DISCOVERABLE_DURATION then
      s.(discoverable := false)
    else
      s
  }

  /** `btCallback`: the link opening or closing sets `btConnected` and nothing else. */
  function SppStep(s: BtState, ev: SppEvent): (r: BtState)
    ensures r.discoverable == s.discoverable && r.startTime == s.startTime && r.lastTouch == s.lastTouch
    ensures ev == SrvOpen ==> r.connected
    ensures ev == Close ==> !r.connected
    ensures ev == OtherSpp ==> r == s
  {
    match ev
    case SrvOpen => s.(connected := true)
    case Close => s.(connected := false)
    case OtherSpp => s
  }

  /** The connection-mode part of one pass of `loop()`: touch handling, then the timeout. */
  function LoopStep(s: BtState, x: int, y: int, now: Millis): BtState
  {
    TimeoutStep(TouchStep(s, x, y, now), now)
  }

  /** What can happen between two observations: a pass of the loop or a callback. */
  datatype Event = Tick(x: int, y: int, now: Millis) | Spp(ev: SppEvent)

  function Apply(s: BtState, e: Event): BtState
  {
    match e
    case Tick(x, y, now) => LoopStep(s, x, y, now)
    case Spp(ev) => SppStep(s, ev)
  }

  function Run(s: BtState, es: seq<Event>): BtState
    decreases |es|
  {
    if es == [] then s else Run(Apply(s, es[0]), es[1..])
  }

  /** Every pass of the loop in `es` sees the panel pressed. */
  predicate Held(es: seq<Event>)
  {
    forall i :: 0 <= i < |es| && es[i].Tick? ==> Touching(es[i].x, es[i].y)
  }

  /**
   * A finger that stays on the panel presses CONNECT at most once: after a
   * press has been seen, however long it is held and whatever the link
   * does meanwhile, the device does not become discoverable again.
   */
  lemma {:induction false} HeldTouchNeverReopensDiscovery(s: BtState, es: seq<Event>)
    requires s.lastTouch && !s.discoverable
    requires Held(es)
    ensures !Run(s, es).discoverable && Run(s, es).lastTouch
    decreases |es|
  {
    if es != [] {
      var s' := Apply(s, es[0]);
      assert s'.lastTouch && !s'.discoverable by {
        match es[0]
        case Tick(x, y, now) =>
          assert Touching(x, y) by { assert es[0] == Tick(x, y, now); }
        case Spp(ev) =>
      }
      assert Held(es[1..]) by {
        forall i | 0 <= i < |es[1..]| && es[1..][i].Tick?
          ensures Touching(es[1..][i].x, es[1..][i].y)
        {
          assert es[1..][i] == es[i + 1];
        }
      }
      HeldTouchNeverReopensDiscovery(s', es[1..]);
    }
  }

  /**
   * A tap on CONNECT from the idle screen opens the discovery window at the
   * time of the tap, and the window is still open in that same pass.
   */
  lemma TapOpensDiscovery(s: BtState, x: int, y: int, now: Millis)
    requires !s.connected && !s.discoverable && !s.lastTouch
    requires Touching(x, y) && InConnectButton(x, y)
    ensures var r := LoopStep(s, x, y, now);
            r.discoverable && r.startTime == now && !r.connected
            && DisplayState(r.connected, r.discoverable) == 1
  {
  }

  /**
   * An unconnected, discoverable device whose window opened `d` ms ago,
   * `d` over 60 s and below the 2^32 ms clock period, leaves discovery on
   * the next pass, even when the millisecond clock wrapped around meanwhile.
   */
  lemma WindowClosesAfterTimeout(s: BtState, d: int)
    requires s.discoverable && !s.connected
    requires DISCOVERABLE_DURATION < d < U32_MODULUS
    ensures !TimeoutStep(s, ((s.startTime + d) % U32_MODULUS) as Millis).discoverable
  {
  }

  /**
   * The connection-mode globals, updated in place by the serial-port
   * callback and by `loop()`.
   */
  class Connection {
    var btConnected: bool
    var btDiscoverable: bool
    var discoverableStartTime: Millis
    var lastTouchState: bool

    function State(): BtState
      reads this
    {
      BtState(btConnected, btDiscoverable, discoverableStartTime, lastTouchState)
    }

    constructor ()
      ensures State() == Boot
    {
      btConnected, btDiscoverable := false, false;
      discoverableStartTime, lastTouchState := 0, false;
    }

    /** `btCallback(event, param)`. */
    method OnSppEvent(ev: SppEvent)
      modifies this
      ensures State() == SppStep(old(State()), ev)
    {
      if ev == SrvOpen {
        btConnected := true;
      } else if ev == Close {
        btConnected := false;
      }
    }

    /** The touch handling of `loop()`, with the pressed point `(x, y)` and `millis()` = `now`. */
    method HandleTouch(x: int, y: int, now: Millis)
      modifies this
      ensures State() == TouchStep(old(State()), x, y, now)
    {
      var touching := Touching(x, y);
      if !btConnected && !btDiscoverable && touching && !lastTouchState {
        if InConnectButton(x, y) {
          btDiscoverable := true;
          discoverableStartTime := now;
        }
      }
      if btConnected && touching && !lastTouchState {
        if InStopButton(x, y) {
          btConnected := false;
          btDiscoverable := false;
        }
      }
      lastTouchState := touching;
    }

    /** The connection-mode timeout of `loop()`, with `millis()` = `now`. */
    method CheckTimeout(now: Millis)
      modifies this
      ensures State() == TimeoutStep(old(State()), now)
    {
      if btDiscoverable && !btConnected {
        if ElapsedMillis(now, discoverableStartTime) > DISCOVERABLE_DURATION {
          btDiscoverable := false;
        }
      }
    }

  }
}

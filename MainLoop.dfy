/**
 * One pass of the firmware's `loop()`: touch handling and the
 * connection-mode timeout, then, while a client is connected, one
 * microphone frame is metered (at most every 50 ms) and sent over
 * Bluetooth. Display refresh, logging and delays are not part of it.
 */
module MainLoop {
  import opened Arduino
  import opened AudioLevel
  import opened ConnectionMode
  import opened BluetoothSend

  /** Minimum time between two level computations, in ms. */
  const AUDIO_UPDATE_INTERVAL: Millis := 50

  /** The firmware's globals and function-local statics that `loop()` touches. */
  class Firmware {
    const conn: Connection
    const meter: AudioMeter
    var lastAudioUpdate: Millis
    /** Every byte `SerialBT.write` has queued since boot, in order. */
    ghost var transmitted: seq<byte>

    ghost predicate Valid()
      reads this, meter
    {
      meter.Valid()
    }

    constructor ()
      ensures Valid() && fresh(conn) && fresh(meter)
      ensures conn.State() == Boot
      ensures meter.audioLevel == 0 && meter.lastLevel == 0
      ensures lastAudioUpdate == 0 && transmitted == []
    {
      conn := new Connection();
      meter := new AudioMeter();
      lastAudioUpdate := 0;
      transmitted := [];
    }

    /**
     * One pass of `loop()` with the pressed point `(x, y)`, `millis()` =
     * `now`, the outcome of `i2s_read` (`readOk`, `frame`) and the
     * environment `env` of the send loop. `written` is the `totalWritten`
     * of the send loop, compared with the frame length for the shortfall
     * warning. `exhausted` reports that the environment script ran out
     * while the link was up and the frame was not fully queued: the
     * firmware would still be inside the send loop then.
     */
    method Loop(x: int, y: int, now: Millis, readOk: bool, frame: seq<byte>, env: seq<Turn>)
      returns (written: nat, exhausted: bool)
      requires Valid()
      requires |frame| <= DATA_SIZE && |frame| != 1
      modifies this, conn, meter
      ensures Valid()
      ensures var s := LoopStep(old(conn.State()), x, y, now);
              var streaming := s.connected && readOk && |frame| > 0;
              var r := SendLoop(|frame|, 0, true, env);
              && (!streaming ==>
                    conn.State() == s && written == 0 && !exhausted && transmitted == old(transmitted))
              && (streaming ==>
                    && conn.State() == s.(connected := r.connected)
                    && written == r.written
                    && exhausted == r.exhausted
                    && transmitted == old(transmitted) + frame[..written])
      ensures !exhausted && conn.btConnected ==> written == 0 || written == |frame|
      ensures exhausted ==> conn.btConnected && written < |frame|
      ensures var s := LoopStep(old(conn.State()), x, y, now);
              var metered := s.connected && readOk && |frame| > 0
                             && ElapsedMillis(now, old(lastAudioUpdate)) > AUDIO_UPDATE_INTERVAL;
              && (metered ==>
                    && meter.audioLevel == Level(frame, old(meter.lastLevel))
                    && meter.lastLevel == meter.audioLevel
                    && lastAudioUpdate == now)
              && (!metered ==>
                    && meter.audioLevel == old(meter.audioLevel)
                    && meter.lastLevel == old(meter.lastLevel)
                    && lastAudioUpdate == old(lastAudioUpdate))
    {
      conn.HandleTouch(x, y, now);
      conn.CheckTimeout(now);
      written, exhausted := 0, false;
      if conn.btConnected {
        if readOk && |frame| > 0 {
          if ElapsedMillis(now, lastAudioUpdate) > AUDIO_UPDATE_INTERVAL {
            meter.Calculate(frame);
            lastAudioUpdate := now;
          }
          var sent, stillConnected;
          written, sent, stillConnected, exhausted := SendFrame(frame, true, env);
          transmitted := transmitted + sent;
          if !stillConnected {
            conn.OnSppEvent(Close);
          }
        }
      }
    }
  }
}

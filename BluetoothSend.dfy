/**
 * The chunked send loop of the firmware: the bytes of one microphone frame
 * are pushed through `SerialBT.write`, which may queue fewer bytes than it
 * is offered, until all are queued or the Bluetooth link drops.
 *
 * The writer and the callback task that can drop the link are the
 * environment of the loop. Their behaviour is an input: a script of turns,
 * one per pass of the loop. A finite script stands in for a loop that, in
 * the firmware, may spin for as long as the queue stays full; running out
 * of script is reported as `exhausted`.
 */
module BluetoothSend {
  import opened Arduino

  /**
   * What the environment does on one pass: the write call finds `room`
   * free bytes in the transmit queue, or the link closes (the callback
   * clears `btConnected`) before the loop condition is next checked.
   */
  datatype Turn = Offer(room: nat) | Drop

  /**
   * `SerialBT.write(buffer, size)` with `room` free bytes: it queues, and
   * reports, the longest prefix of the offered bytes that fits.
   */
  function Accepted(room: nat, offered: nat): (w: nat)
    ensures w <= offered && w <= room
    ensures w == offered || w == room
  {
    if room < offered then room else offered
  }

  /** How a run of the loop ends: bytes queued, link state, and whether the script ran out. */
  datatype SendResult = SendResult(written: nat, connected: bool, exhausted: bool)

  /**
   * The send loop from `total` bytes already queued out of `size`, while
   * the link is `connected`, under the environment `env`.
   */
  function SendLoop(size: nat, total: nat, connected: bool, env: seq<Turn>): (r: SendResult)
    requires total <= size
    ensures total <= r.written <= size
    ensures r.connected ==> connected
    ensures connected && !r.connected ==> Drop in env
    ensures !r.exhausted ==> r.written == size || !r.connected
    ensures r.exhausted ==> r.written < size && r.connected
    decreases |env|
  {
    if !(total < size && connected) then SendResult(total, connected, false)
    else if env == [] then SendResult(total, connected, true)
    else
      match env[0]
      case Drop => SendLoop(size, total, false, env[1..])
      case Offer(room) => SendLoop(size, total + Accepted(room, size - total), connected, env[1..])
  }

  /** Total queue room the environment offers, link drops not counted. */
  function RoomSum(env: seq<Turn>): nat
  {
    if env == [] then 0
    else (match env[0] case Offer(room) => room case Drop => 0) + RoomSum(env[1..])
  }

  /**
   * While the link stays up, the loop queues the whole frame as soon as the
   * queue has offered room for it in total, however the room is split
   * across write calls (calls that queue nothing included).
   */
  lemma {:induction false} CompletesWhenRoomSuffices(size: nat, total: nat, env: seq<Turn>)
    requires total <= size
    requires Drop !in env
    requires RoomSum(env) >= size - total
    ensures SendLoop(size, total, true, env) == SendResult(size, true, false)
    decreases |env|
  {
    if total < size {
      assert env != [] && env == [env[0]] + env[1..];
      match env[0]
      case Offer(room) =>
        CompletesWhenRoomSuffices(size, total + Accepted(room, size - total), env[1..]);
    }
  }

  /**
   * The send loop on `frame`, with `btConnected` initially `connected`:
   * `sent` is everything `SerialBT.write` queued, in order.
   */
  method SendFrame(frame: seq<byte>, connected: bool, env: seq<Turn>)
    returns (totalWritten: nat, sent: seq<byte>, stillConnected: bool, exhausted: bool)
    ensures SendResult(totalWritten, stillConnected, exhausted) == SendLoop(|frame|, 0, connected, env)
    ensures sent == frame[..totalWritten]
  {
    totalWritten, sent, stillConnected := 0, [], connected;
    var k := 0;
    while totalWritten < |frame| && stillConnected && k < |env|
      invariant 0 <= k <= |env|
      invariant totalWritten <= |frame|
      invariant sent == frame[..totalWritten]
      invariant SendLoop(|frame|, 0, connected, env) == SendLoop(|frame|, totalWritten, stillConnected, env[k..])
    {
      match env[k] {
        case Drop =>
          stillConnected := false;
        case Offer(room) =>
          var written := Accepted(room, |frame| - totalWritten);
          if written > 0 {
            sent := sent + frame[totalWritten..totalWritten + written];
            totalWritten := totalWritten + written;
          }
      }
      k := k + 1;
    }
    exhausted := totalWritten < |frame| && stillConnected;
  }
}

/**
 * The HM-10 BLE command handler: a receive buffer fed by the UART, consumed
 * in fixed-size packets `[flags, left, right, counter]` (or a legacy 3-byte
 * packet without the counter), a cached copy of the last command with the
 * time it arrived, and a rate-limited telemetry sender.
 *
 * The UART is replaced by the bytes a poll reads (`data`) and a log of the
 * bytes written (`tx`); the millisecond clock by a `now` parameter.
 */
module Hm10Controller {

  type Byte = b: int | 0 <= b < 256

  /** Message kind of an ultrasonic distance telemetry frame. */
  const TelemetryUltrasonic: Byte := 0x01
  /** Largest value a telemetry frame can carry (unsigned 16 bit). */
  const MaxTelemetryValue := 65535

  /** The constructor's defaults: a command goes stale after 500 ms, and
      telemetry goes out at most every 200 ms (5 Hz). */
  const DefaultCommandTimeoutMs := 500
  const DefaultTelemetryIntervalMs := 200

  /** An unsigned byte read as a two's-complement int8: the one value in
      -128..127 that is congruent to the byte modulo 256. */
  function ToSigned(b: Byte): (r: int)
    ensures -128 <= r < 128
    ensures (r - b) % 256 == 0
  {
    if b >= 128 then b - 256 else b
  }

  /** The sending side's encoding of a wheel speed: the byte whose int8 reading is `v`. */
  function FromSigned(v: int): (b: Byte)
    requires -128 <= v < 128
    ensures ToSigned(b) == v
  {
    if v < 0 then v + 256 else v
  }

  /** Reading a byte as int8 and encoding it again gives the byte back. */
  lemma SignedRoundTrip(b: Byte)
    ensures FromSigned(ToSigned(b)) == b
  {
  }

  lemma {:induction false} ToSignedInjective(a: Byte, b: Byte)
    requires ToSigned(a) == ToSigned(b)
    ensures a == b
  {
    assert FromSigned(ToSigned(a)) == a;
    assert FromSigned(ToSigned(b)) == b;
  }

  /** The cached command: the public fields of the controller. */
  datatype Command = Command(flags: Byte, left: int, right: int, counter: Byte, stampMs: int)

  /** Bit 0 of the flags byte asks for the brake. */
  function BrakeRequested(flags: Byte): (r: bool)
    ensures r <==> flags % 2 == 1
  {
    (flags as bv8) & 1 == 1
  }

  /** The command times out once strictly more than `timeoutMs` has passed. */
  function Stale(lastCommandMs: int, now: int, timeoutMs: int): (stale: bool)
    ensures stale && timeoutMs >= 0 ==> lastCommandMs < now
    ensures now <= lastCommandMs + timeoutMs ==> !stale
  {
    now - lastCommandMs > timeoutMs
  }

  /** A stale command stays stale as time passes, and a command stamped now
      is fresh under any non-negative timeout. */
  lemma StaleMonotone(lastCommandMs: int, now: int, later: int, timeoutMs: int)
    requires now <= later
    ensures Stale(lastCommandMs, now, timeoutMs) ==> Stale(lastCommandMs, later, timeoutMs)
    ensures timeoutMs >= 0 ==> !Stale(now, now, timeoutMs)
    ensures Stale(lastCommandMs, now, timeoutMs) <==> lastCommandMs + timeoutMs < now
  {
  }

  /** Decoding one packet: a 4-byte packet replaces flags, both speeds and the
      counter; a 3-byte packet keeps the previous counter. Either stamps `now`. */
  function Decode(c: Command, packet: seq<Byte>, now: int): (d: Command)
    requires |packet| == 3 || |packet| == 4
    ensures -128 <= d.left < 128 && -128 <= d.right < 128 && d.stampMs == now
    ensures |packet| == 4 ==> Encode(d.flags, d.left, d.right, d.counter) == packet
    ensures |packet| == 3 ==> EncodeLegacy(d.flags, d.left, d.right) == packet && d.counter == c.counter
  {
    SignedRoundTrip(packet[1]);
    SignedRoundTrip(packet[2]);
    Command(packet[0], ToSigned(packet[1]), ToSigned(packet[2]),
            if |packet| > 3 then packet[3] else c.counter, now)
  }

  /** The packet a controller sends for a command (4-byte form). */
  function Encode(flags: Byte, left: int, right: int, counter: Byte): (p: seq<Byte>)
    requires -128 <= left < 128 && -128 <= right < 128
    ensures |p| == 4
  {
    [flags, FromSigned(left), FromSigned(right), counter]
  }

  /** The legacy 3-byte packet, without a watchdog counter. */
  function EncodeLegacy(flags: Byte, left: int, right: int): (p: seq<Byte>)
    requires -128 <= left < 128 && -128 <= right < 128
    ensures |p| == 3
  {
    [flags, FromSigned(left), FromSigned(right)]
  }

  /** Decoding undoes encoding, for both packet forms. */
  lemma DecodeEncode(c: Command, flags: Byte, left: int, right: int, counter: Byte, now: int)
    requires -128 <= left < 128 && -128 <= right < 128
    ensures Decode(c, Encode(flags, left, right, counter), now) == Command(flags, left, right, counter, now)
    ensures Decode(c, EncodeLegacy(flags, left, right), now) == Command(flags, left, right, c.counter, now)
  {
  }

  /** Every 4-byte packet carries the whole command: what was cached before does not matter. */
  lemma DecodeReplacesCommand(c: Command, d: Command, packet: seq<Byte>, now: int)
    requires |packet| == 4
    ensures Decode(c, packet, now) == Decode(d, packet, now)
    ensures -128 <= Decode(c, packet, now).left < 128 && -128 <= Decode(c, packet, now).right < 128
  {
  }

  /** The complete 4-byte groups of a byte stream, in arrival order. */
  function Packets(s: seq<Byte>): (ps: seq<seq<Byte>>)
    ensures |ps| == |s| / 4
    ensures forall i :: 0 <= i < |ps| ==> ps[i] == s[4 * i .. 4 * i + 4]
    decreases |s|
  {
    if |s| < 4 then [] else [s[..4]] + Packets(s[4..])
  }

  function Concat(ps: seq<seq<Byte>>): seq<Byte>
  {
    if ps == [] then [] else ps[0] + Concat(ps[1..])
  }

  /** The packets followed by the unconsumed tail give back the stream:
      nothing is lost, duplicated or reordered. */
  lemma {:induction false} PacketsReassemble(s: seq<Byte>)
    ensures Concat(Packets(s)) + s[4 * (|s| / 4)..] == s
    decreases |s|
  {
    if |s| >= 4 {
      var ps := Packets(s);
      assert ps[0] == s[..4] && ps[1..] == Packets(s[4..]);
      PacketsReassemble(s[4..]);
      assert s[4..][4 * (|s[4..]| / 4)..] == s[4 * (|s| / 4)..];
      calc {
        Concat(ps) + s[4 * (|s| / 4)..];
        s[..4] + Concat(Packets(s[4..])) + s[4..][4 * (|s[4..]| / 4)..];
        s[..4] + s[4..];
      }
      assert s[..4] + s[4..] == s;
    }
  }

  /** Decoding a run of 4-byte packets one after the other. */
  function ApplyAll(c: Command, ps: seq<seq<Byte>>, now: int): Command
    requires forall i :: 0 <= i < |ps| ==> |ps[i]| == 4
    decreases |ps|
  {
    if ps == [] then c else ApplyAll(Decode(c, ps[0], now), ps[1..], now)
  }

  lemma {:induction false} ApplyAllSnoc(c: Command, ps: seq<seq<Byte>>, p: seq<Byte>, now: int)
    requires forall i :: 0 <= i < |ps| ==> |ps[i]| == 4
    requires |p| == 4
    ensures ApplyAll(c, ps + [p], now) == Decode(ApplyAll(c, ps, now), p, now)
    decreases |ps|
  {
    if ps != [] {
      assert (ps + [p])[1..] == ps[1..] + [p];
      ApplyAllSnoc(Decode(c, ps[0], now), ps[1..], p, now);
    }
  }

  /** After a run of packets the cached command is the one the last packet carries. */
  lemma {:induction false} LastPacketWins(c: Command, ps: seq<seq<Byte>>, now: int)
    requires forall i :: 0 <= i < |ps| ==> |ps[i]| == 4
    requires ps != []
    ensures ApplyAll(c, ps, now) == Decode(c, ps[|ps| - 1], now)
    decreases |ps|
  {
    if |ps| > 1 {
      LastPacketWins(Decode(c, ps[0], now), ps[1..], now);
    }
  }

  /** What one poll does to the cached command and the pending bytes. */
  datatype PollOutcome = PollOutcome(command: Command, rest: seq<Byte>, updated: bool)

  /** Every complete 4-byte packet is decoded; only when there is none does a
      single legacy 3-byte packet get decoded instead. */
  function PollSpec(c: Command, pending: seq<Byte>, now: int): (o: PollOutcome)
    ensures |o.rest| < 4
    ensures |o.rest| <= |pending| && o.rest == pending[|pending| - |o.rest|..]
    ensures o.updated <==> |pending| >= 3
    ensures !o.updated ==> o.command == c && o.rest == pending
    ensures o.updated ==> o.command.stampMs == now
    ensures |pending| >= 4 ==> |o.rest| == |pending| % 4
    ensures |pending| == 3 ==> o.command == Decode(c, pending, now) && o.rest == []
  {
    var ps := Packets(pending);
    if |ps| > 0 then
      LastPacketWins(c, ps, now);
      PollOutcome(ApplyAll(c, ps, now), pending[4 * |ps|..], true)
    else if |pending| >= 3 then
      PollOutcome(Decode(c, pending[..3], now), pending[3..], true)
    else
      PollOutcome(c, pending, false)
  }

  /** A poll that sees at least one complete packet consumes exactly the
      complete packets, in order, and caches the command of the last one. */
  lemma PollTakesLastPacket(c: Command, pending: seq<Byte>, now: int)
    requires |pending| >= 4
    ensures var o := PollSpec(c, pending, now);
      var ps := Packets(pending);
      Concat(ps) + o.rest == pending &&
      o.command == Decode(c, pending[4 * (|ps| - 1) .. 4 * |ps|], now)
  {
    var ps := Packets(pending);
    PacketsReassemble(pending);
    LastPacketWins(c, ps, now);
  }

  /** When a poll leaves three bytes behind, the next poll with no new data
      decodes them as a legacy 3-byte packet, even when they are the start of
      a 4-byte packet whose last byte has not arrived yet. */
  lemma LeftoverDecodedAsLegacy(c: Command, pending: seq<Byte>, now: int, later: int)
    requires |pending| >= 4 && |pending| % 4 == 3
    ensures var o1 := PollSpec(c, pending, now);
      var o2 := PollSpec(o1.command, o1.rest, later);
      o1.rest == pending[|pending| - 3..] &&
      o2.updated && o2.rest == [] && o2.command == Decode(o1.command, pending[|pending| - 3..], later)
  {
  }

  /** The value a telemetry frame carries: the distance clamped to 0..65535. */
  function ClampTelemetry(distanceMm: int): (v: int)
    ensures 0 <= v <= MaxTelemetryValue
    ensures 0 <= distanceMm <= MaxTelemetryValue ==> v == distanceMm
    ensures distanceMm < 0 ==> v == 0
    ensures distanceMm > MaxTelemetryValue ==> v == MaxTelemetryValue
  {
    if distanceMm < 0 then 0 else if distanceMm > MaxTelemetryValue then MaxTelemetryValue else distanceMm
  }

  /** The 3-byte telemetry frame: kind, then the value big-endian. */
  function TelemetryFrame(distanceMm: int): (f: seq<Byte>)
    ensures |f| == 3 && f[0] == TelemetryUltrasonic
    ensures f[1] as int * 256 + f[2] as int == ClampTelemetry(distanceMm)
  {
    var v := ClampTelemetry(distanceMm);
    [TelemetryUltrasonic, v / 256, v % 256]
  }

  /** The times at which a run of send attempts transmits, starting from the
      time of the last transmission. */
  function Transmissions(lastMs: int, intervalMs: int, attempts: seq<int>): seq<int>
    decreases |attempts|
  {
    if attempts == [] then []
    else if attempts[0] - lastMs < intervalMs then Transmissions(lastMs, intervalMs, attempts[1..])
    else [attempts[0]] + Transmissions(attempts[0], intervalMs, attempts[1..])
  }

  /** The rate governor: consecutive transmissions are at least one interval apart. */
  lemma {:induction false} TransmissionsSpaced(lastMs: int, intervalMs: int, attempts: seq<int>)
    ensures var sent := Transmissions(lastMs, intervalMs, attempts);
      (|sent| > 0 ==> sent[0] - lastMs >= intervalMs) &&
      forall i :: 0 < i < |sent| ==> sent[i] - sent[i - 1] >= intervalMs
    decreases |attempts|
  {
    if attempts != [] {
      TransmissionsSpaced(lastMs, intervalMs, attempts[1..]);
      TransmissionsSpaced(attempts[0], intervalMs, attempts[1..]);
    }
  }

  class HM10Controller {
    var buffer: seq<Byte>
    var commandTimeoutMs: int
    var telemetryIntervalMs: int
    var lastTelemetryMs: int
    var flags: Byte
    var leftSpeed: int
    var rightSpeed: int
    var counter: Byte
    var lastCommandMs: int
    /** Every byte written to the UART so far. */
    var tx: seq<Byte>

    /** Between calls fewer than four bytes wait in the buffer, and both speeds are int8. */
    ghost predicate Valid()
      reads this
    {
      |buffer| < 4 && -128 <= leftSpeed < 128 && -128 <= rightSpeed < 128
    }

    function Cached(): Command
      reads this
    {
      Command(flags, leftSpeed, rightSpeed, counter, lastCommandMs)
    }

    constructor (now: int, commandTimeoutMs: int := DefaultCommandTimeoutMs,
                 telemetryIntervalMs: int := DefaultTelemetryIntervalMs)
      ensures Valid()
      ensures buffer == [] && tx == [] && lastTelemetryMs == 0
      ensures Cached() == Command(0, 0, 0, 0, now)
      ensures this.commandTimeoutMs == commandTimeoutMs && this.telemetryIntervalMs == telemetryIntervalMs
    {
      buffer := [];
      this.commandTimeoutMs := commandTimeoutMs;
      this.telemetryIntervalMs := telemetryIntervalMs;
      lastTelemetryMs := 0;
      flags, leftSpeed, rightSpeed, counter := 0, 0, 0, 0;
      lastCommandMs := now;
      tx := [];
    }

    method DecodePacket(packet: seq<Byte>, now: int)
      requires |packet| == 3 || |packet| == 4
      modifies this`flags, this`leftSpeed, this`rightSpeed, this`counter, this`lastCommandMs
      ensures Cached() == Decode(old(Cached()), packet, now)
    {
      flags := packet[0];
      leftSpeed := ToSigned(packet[1]);
      rightSpeed := ToSigned(packet[2]);
      counter := if |packet| > 3 then packet[3] else counter;
      lastCommandMs := now;
    }

    /** Appends the bytes read from the UART and consumes packets as PollSpec says. */
    method Poll(data: seq<Byte>, now: int) returns (updated: bool)
      requires Valid()
      modifies this`buffer, this`flags, this`leftSpeed, this`rightSpeed, this`counter, this`lastCommandMs
      ensures Valid()
      ensures var o := PollSpec(old(Cached()), old(buffer) + data, now);
        Cached() == o.command && buffer == o.rest && updated == o.updated
    {
      updated := false;
      if |data| > 0 {
        buffer := buffer + data;
      }
      ghost var pending := buffer;
      ghost var c0 := Cached();
      ghost var ps := Packets(pending);
      ghost var k := 0;
      while |buffer| >= 4
        invariant 0 <= k <= |ps|
        invariant buffer == pending[4 * k..]
        invariant updated == (k > 0)
        invariant Cached() == ApplyAll(c0, ps[..k], now)
        invariant -128 <= leftSpeed < 128 && -128 <= rightSpeed < 128
        decreases |buffer|
      {
        assert buffer[0..4] == ps[k];
        assert ps[..k + 1] == ps[..k] + [ps[k]];
        ApplyAllSnoc(c0, ps[..k], ps[k], now);
        DecodePacket(buffer[0..4], now);
        buffer := buffer[4..];
        updated := true;
        k := k + 1;
      }
      assert ps[..k] == ps;
      if !updated && |buffer| >= 3 {
        DecodePacket(buffer[0..3], now);
        buffer := buffer[3..];
        updated := true;
      }
    }

    /** The brake bit of the cached flags. */
    function IsBrakeRequested(): (brake: bool)
      reads this
      ensures brake <==> flags % 2 == 1
    {
      BrakeRequested(flags)
    }

    /** Whether the cached command has timed out at time `now`. */
    function IsStale(now: int): (stale: bool)
      reads this
      ensures stale && commandTimeoutMs >= 0 ==> lastCommandMs < now
      ensures now <= lastCommandMs + commandTimeoutMs ==> !stale
    {
      Stale(lastCommandMs, now, commandTimeoutMs)
    }

    /** Drops buffered bytes and returns the command to neutral, stamped now. */
    method Reset(now: int)
      modifies this`buffer, this`flags, this`leftSpeed, this`rightSpeed, this`counter, this`lastCommandMs
      ensures Valid()
      ensures buffer == [] && Cached() == Command(0, 0, 0, 0, now)
      ensures !IsBrakeRequested()
    {
      buffer := [];
      flags, leftSpeed, rightSpeed, counter := 0, 0, 0, 0;
      lastCommandMs := now;
    }

    /** Sends one distance frame unless the last one went out less than an interval ago. */
    method SendUltrasonic(distanceMm: int, now: int) returns (sent: bool)
      modifies this`lastTelemetryMs, this`tx
      ensures sent <==> now - old(lastTelemetryMs) >= telemetryIntervalMs
      ensures sent ==> lastTelemetryMs == now && tx == old(tx) + TelemetryFrame(distanceMm)
      ensures !sent ==> lastTelemetryMs == old(lastTelemetryMs) && tx == old(tx)
    {
      if now - lastTelemetryMs < telemetryIntervalMs {
        return false;
      }
      lastTelemetryMs := now;
      tx := tx + TelemetryFrame(distanceMm);
      sent := true;
    }
  }
}

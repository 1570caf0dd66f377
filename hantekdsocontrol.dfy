// The oscilloscope control: the command tables and their pending flags, the
// settings that write encoded values into the command packets, the flush of
// pending commands at the start of every cycle, the sample bookkeeping and
// the roll-mode state machine.
module DsoControl {
  import opened LibUsb
  import UsbDevice
  import UsbDefinitions
  import BulkCode
  import ControlCode
  import BulkStructs
  import ControlStructs
  import opened DsoEncoding

  // ---------------------------------------------------------------------------
  // Flushing the pending commands
  //
  // run() starts every cycle by sending the pending bulk commands and then the
  // pending control commands, each table in index order. Both loops are one
  // scheme: `send` is the transfer of one table entry and `stops` says which
  // results make run() return at once.

  /** One command a flush tried to send: its index in the table and the transfer's result. */
  datatype Sent = Sent(index: nat, code: int)

  /** What a flush leaves behind: the transport, the pending flags, the
    * commands it tried, in order, and whether run() returns at once. */
  datatype Flush = Flush(transport: UsbDevice.Transport, pending: seq<bool>, sent: seq<Sent>, stopped: bool)

  /** The reference order of a flush: the pending indices from `i` up. */
  function PendingFrom(pending: seq<bool>, i: nat): seq<nat>
    requires i <= |pending|
    decreases |pending| - i
  {
    if i == |pending| then []
    else if pending[i] then [i] + PendingFrom(pending, i + 1)
    else PendingFrom(pending, i + 1)
  }

  /** PendingFrom lists exactly the pending indices from `i`, in increasing order. */
  lemma {:induction false} PendingFromExact(pending: seq<bool>, i: nat)
    requires i <= |pending|
    ensures var r := PendingFrom(pending, i);
      (forall k :: 0 <= k < |r| ==> i <= r[k] < |pending| && pending[r[k]]) &&
      (forall j :: i <= j < |pending| && pending[j] ==> j in r) &&
      (forall k, l :: 0 <= k < l < |r| ==> r[k] < r[l])
    decreases |pending| - i
  {
    if i < |pending| {
      PendingFromExact(pending, i + 1);
      var rest := PendingFrom(pending, i + 1);
      if pending[i] {
        var r := [i] + rest;
        assert forall k :: 1 <= k <= |rest| ==> r[k] == rest[k - 1];
        forall k | 0 <= k < |r|
          ensures i <= r[k] < |pending| && pending[r[k]]
        {
          if k > 0 { assert r[k] == rest[k - 1]; }
        }
      }
    }
  }

  /** Changing a flag below `i` does not change what is pending from `i`. */
  lemma {:induction false} PendingFromUpdate(pending: seq<bool>, i: nat, j: nat, b: bool)
    requires j < i <= |pending|
    ensures PendingFrom(pending[j := b], i) == PendingFrom(pending, i)
    decreases |pending| - i
  {
    if i < |pending| {
      PendingFromUpdate(pending, i + 1, j, b);
    }
  }

  /** The flush of one table from index `i`: every pending entry is sent, in
    * index order; a result that `stops` ends the flush, run() itself and
    * leaves the flag set; otherwise the flag is cleared exactly when the
    * transfer succeeded, and the flush goes on. */
  function FlushSpec<X>(t: UsbDevice.Transport, send: (UsbDevice.Transport, X) -> (UsbDevice.Transport, int),
                        stops: int -> bool, items: seq<X>, pending: seq<bool>, i: nat): (f: Flush)
    requires |items| == |pending| && i <= |pending|
    decreases |pending| - i
    ensures |f.pending| == |pending|
  {
    if i == |pending| then Flush(t, pending, [], false)
    else if !pending[i] then FlushSpec(t, send, stops, items, pending, i + 1)
    else
      var (u, c) := send(t, items[i]);
      if stops(c) then Flush(u, pending, [Sent(i, c)], true)
      else
        var f := FlushSpec(u, send, stops, items, if c < 0 then pending else pending[i := false], i + 1);
        Flush(f.transport, f.pending, [Sent(i, c)] + f.sent, f.stopped)
  }

  /** A flush tries the pending entries in index order, a prefix of them when
    * it stops and all of them otherwise. */
  lemma {:induction false} FlushOrder<X>(t: UsbDevice.Transport, send: (UsbDevice.Transport, X) -> (UsbDevice.Transport, int),
                                         stops: int -> bool, items: seq<X>, pending: seq<bool>, i: nat)
    requires |items| == |pending| && i <= |pending|
    ensures var f := FlushSpec(t, send, stops, items, pending, i);
      var order := PendingFrom(pending, i);
      |f.sent| <= |order| && (forall k :: 0 <= k < |f.sent| ==> f.sent[k].index == order[k]) &&
      (!f.stopped ==> |f.sent| == |order|)
    decreases |pending| - i
  {
    if i < |pending| {
      if !pending[i] {
        FlushOrder(t, send, stops, items, pending, i + 1);
      } else {
        var (u, c) := send(t, items[i]);
        if !stops(c) {
          var next := if c < 0 then pending else pending[i := false];
          FlushOrder(u, send, stops, items, next, i + 1);
          PendingFromUpdate(pending, i + 1, i, false);
          assert PendingFrom(next, i + 1) == PendingFrom(pending, i + 1);
        }
      }
    }
  }

  /** A flush stops exactly when its last try gave a stopping result, and no
    * earlier try did. */
  lemma {:induction false} FlushStops<X>(t: UsbDevice.Transport, send: (UsbDevice.Transport, X) -> (UsbDevice.Transport, int),
                                         stops: int -> bool, items: seq<X>, pending: seq<bool>, i: nat)
    requires |items| == |pending| && i <= |pending|
    ensures var f := FlushSpec(t, send, stops, items, pending, i);
      (f.stopped <==> |f.sent| > 0 && stops(f.sent[|f.sent| - 1].code)) &&
      (forall k :: 0 <= k < |f.sent| - 1 ==> !stops(f.sent[k].code))
    decreases |pending| - i
  {
    if i < |pending| {
      if !pending[i] {
        FlushStops(t, send, stops, items, pending, i + 1);
      } else {
        var (u, c) := send(t, items[i]);
        if !stops(c) {
          FlushStops(u, send, stops, items, if c < 0 then pending else pending[i := false], i + 1);
        }
      }
    }
  }

  /** Every try in `sent` is of an entry in [lo, hi). */
  predicate SentWithin(sent: seq<Sent>, lo: nat, hi: nat)
  {
    forall k :: 0 <= k < |sent| ==> lo <= sent[k].index < hi
  }

  /** No try in `sent` is of entry `j`. */
  predicate NotSent(sent: seq<Sent>, j: nat)
  {
    forall k :: 0 <= k < |sent| ==> sent[k].index != j
  }

  /** A flush tries only entries from `i` on. */
  lemma {:induction false} FlushSentRange<X>(t: UsbDevice.Transport, send: (UsbDevice.Transport, X) -> (UsbDevice.Transport, int),
                                             stops: int -> bool, items: seq<X>, pending: seq<bool>, i: nat)
    requires |items| == |pending| && i <= |pending|
    ensures SentWithin(FlushSpec(t, send, stops, items, pending, i).sent, i, |pending|)
    decreases |pending| - i
  {
    if i < |pending| {
      if !pending[i] {
        FlushSentRange(t, send, stops, items, pending, i + 1);
      } else {
        var (u, c) := send(t, items[i]);
        if !stops(c) {
          var next := if c < 0 then pending else pending[i := false];
          FlushSentRange(u, send, stops, items, next, i + 1);
          var g := FlushSpec(u, send, stops, items, next, i + 1).sent;
          var f := FlushSpec(t, send, stops, items, pending, i).sent;
          assert f == [Sent(i, c)] + g;
          forall k | 0 <= k < |f|
            ensures i <= f[k].index < |pending|
          {
            if k > 0 { assert f[k] == g[k - 1]; }
          }
        }
      }
    }
  }

  /** An entry a flush does not try keeps its flag. */
  lemma {:induction false} FlushUntriedAt<X>(t: UsbDevice.Transport, send: (UsbDevice.Transport, X) -> (UsbDevice.Transport, int),
                                             stops: int -> bool, items: seq<X>, pending: seq<bool>, i: nat, j: nat)
    requires |items| == |pending| && i <= |pending| && j < |pending|
    requires NotSent(FlushSpec(t, send, stops, items, pending, i).sent, j)
    ensures FlushSpec(t, send, stops, items, pending, i).pending[j] == pending[j]
    decreases |pending| - i
  {
    if i < |pending| {
      if !pending[i] {
        FlushUntriedAt(t, send, stops, items, pending, i + 1, j);
      } else {
        var (u, c) := send(t, items[i]);
        if !stops(c) {
          var next := if c < 0 then pending else pending[i := false];
          var g := FlushSpec(u, send, stops, items, next, i + 1);
          var f := FlushSpec(t, send, stops, items, pending, i);
          assert f.sent == [Sent(i, c)] + g.sent && f.pending == g.pending;
          assert f.sent[0].index == i;
          forall k | 0 <= k < |g.sent|
            ensures g.sent[k].index != j
          {
            assert g.sent[k] == f.sent[k + 1];
          }
          FlushUntriedAt(u, send, stops, items, next, i + 1, j);
        }
      }
    }
  }

  /** A flush tries only entries from `i` on and leaves every flag it does not
    * try as it was. */
  lemma FlushUntried<X>(t: UsbDevice.Transport, send: (UsbDevice.Transport, X) -> (UsbDevice.Transport, int),
                        stops: int -> bool, items: seq<X>, pending: seq<bool>, i: nat)
    requires |items| == |pending| && i <= |pending|
    ensures var f := FlushSpec(t, send, stops, items, pending, i);
      (forall k :: 0 <= k < |f.sent| ==> i <= f.sent[k].index < |pending|) &&
      (forall j :: 0 <= j < |pending| && (forall k :: 0 <= k < |f.sent| ==> f.sent[k].index != j) ==>
                   f.pending[j] == pending[j])
  {
    FlushSentRange(t, send, stops, items, pending, i);
    var f := FlushSpec(t, send, stops, items, pending, i);
    forall j | 0 <= j < |pending| && (forall k :: 0 <= k < |f.sent| ==> f.sent[k].index != j)
      ensures f.pending[j] == pending[j]
    {
      assert NotSent(f.sent, j);
      FlushUntriedAt(t, send, stops, items, pending, i, j);
    }
  }

  /** When only failures stop a flush, a tried entry stays pending exactly
    * when its transfer failed. */
  lemma {:induction false} FlushTried<X>(t: UsbDevice.Transport, send: (UsbDevice.Transport, X) -> (UsbDevice.Transport, int),
                                         stops: int -> bool, items: seq<X>, pending: seq<bool>, i: nat)
    requires |items| == |pending| && i <= |pending|
    requires forall c :: stops(c) ==> c < 0
    ensures var f := FlushSpec(t, send, stops, items, pending, i);
      forall k :: 0 <= k < |f.sent| ==> f.sent[k].index < |pending| && (f.pending[f.sent[k].index] <==> f.sent[k].code < 0)
    decreases |pending| - i
  {
    if i < |pending| {
      var f := FlushSpec(t, send, stops, items, pending, i);
      if !pending[i] {
        FlushTried(t, send, stops, items, pending, i + 1);
        var g := FlushSpec(t, send, stops, items, pending, i + 1);
        assert var f := FlushSpec(t, send, stops, items, pending, i + 1);
          forall k :: 0 <= k < |f.sent| ==> f.sent[k].index < |pending| && (f.pending[f.sent[k].index] <==> f.sent[k].code < 0);
      } else {
        var (u, c) := send(t, items[i]);
        if !stops(c) {
          var next := if c < 0 then pending else pending[i := false];
          FlushTried(u, send, stops, items, next, i + 1);
          FlushUntried(u, send, stops, items, next, i + 1);
          var g := FlushSpec(u, send, stops, items, next, i + 1);
          assert f.sent == [Sent(i, c)] + g.sent && f.pending == g.pending;
          assert g.pending[i] == next[i];
          forall k | 0 <= k < |f.sent|
            ensures f.sent[k].index < |pending| && (f.pending[f.sent[k].index] <==> f.sent[k].code < 0)
          {
            if k > 0 { assert f.sent[k] == g.sent[k - 1]; }
          }
        }
      }
    }
  }

  /** The part of a flush's result that stays behind in the control and the device. */
  function FlushEnd(f: Flush): (UsbDevice.Transport, seq<bool>, bool)
  {
    (f.transport, f.pending, f.stopped)
  }

  // ---------------------------------------------------------------------------
  // The two tables of run()

  /** The slots of the control table. */
  const CONTROLINDEX_SETOFFSET: nat := 0
  const CONTROLINDEX_SETRELAYS: nat := 1
  const CONTROLINDEX_SETVOLTDIV_CH1: nat := 2
  const CONTROLINDEX_SETVOLTDIV_CH2: nat := 3
  const CONTROLINDEX_SETTIMEDIV: nat := 4
  const CONTROLINDEX_ACQUIRE_HARD_DATA: nat := 5
  const CONTROLINDEX_COUNT: nat := 6

  /** A bulk entry goes out as bulkCommand with the default attempts: without
    * a device it fails with NO_DEVICE and changes nothing, a success counts at
    * most the entry's bytes, and the packet sizes stay as they were. */
  function BulkSend(speed: int, begin: seq<bv8>): (send: (UsbDevice.Transport, seq<bv8>) -> (UsbDevice.Transport, int))
    ensures forall t: UsbDevice.Transport, c: seq<bv8> ::
      (!t.open ==> send(t, c) == (t, ERROR_NO_DEVICE)) &&
      (send(t, c).1 >= 0 ==> send(t, c).1 <= |c|) &&
      send(t, c).0.inLen == t.inLen && send(t, c).0.outLen == t.outLen
  {
    (t, command) => UsbDevice.BulkCommandSpec(t, speed, begin, command, UsbDefinitions.ATTEMPTS)
  }

  /** A control entry, its request code and payload, goes out as controlWrite
    * with value and index 0, with the same guarantees as a bulk entry. */
  function ControlSend(): (send: (UsbDevice.Transport, (bv8, seq<bv8>)) -> (UsbDevice.Transport, int))
    ensures forall t: UsbDevice.Transport, e: (bv8, seq<bv8>) ::
      (!t.open ==> send(t, e) == (t, ERROR_NO_DEVICE)) &&
      (send(t, e).1 >= 0 ==> send(t, e).1 <= |e.1|) &&
      send(t, e).0.inLen == t.inLen && send(t, e).0.outLen == t.outLen
  {
    (t, entry: (bv8, seq<bv8>)) => UsbDevice.ControlWriteSpec(t, entry.0, entry.1, 0, 0, UsbDefinitions.ATTEMPTS)
  }

  /** Every bulk failure ends run(); of the control failures only a vanished device does. */
  function BulkStops(): int -> bool
  {
    c => c < 0
  }

  function ControlStops(): int -> bool
  {
    c => c == ERROR_NO_DEVICE
  }

  /** The bulk flush of run(): the pending bulk commands go out in index order
    * until the first failure, which leaves it and every later one pending. */
  lemma BulkFlush(t: UsbDevice.Transport, speed: int, begin: seq<bv8>, commands: seq<seq<bv8>>, pending: seq<bool>)
    requires |commands| == |pending|
    ensures var f := FlushSpec(t, BulkSend(speed, begin), BulkStops(), commands, pending, 0);
      var order := PendingFrom(pending, 0);
      |f.sent| <= |order| && (forall k :: 0 <= k < |f.sent| ==> f.sent[k].index == order[k]) &&
      (f.stopped <==> |f.sent| > 0 && f.sent[|f.sent| - 1].code < 0) &&
      (forall k :: 0 <= k < |f.sent| - 1 ==> f.sent[k].code >= 0) &&
      (!f.stopped ==> |f.sent| == |order|) &&
      (forall k :: 0 <= k < |f.sent| ==> f.sent[k].index < |pending| && (f.pending[f.sent[k].index] <==> f.sent[k].code < 0)) &&
      (forall j :: 0 <= j < |pending| && (forall k :: 0 <= k < |f.sent| ==> f.sent[k].index != j) ==>
                   f.pending[j] == pending[j])
  {
    var send, stops := BulkSend(speed, begin), BulkStops();
    FlushOrder(t, send, stops, commands, pending, 0);
    FlushStops(t, send, stops, commands, pending, 0);
    FlushUntried(t, send, stops, commands, pending, 0);
    FlushTried(t, send, stops, commands, pending, 0);
  }

  /** The control flush of run(): every pending control command is tried in
    * index order, a failed one stays pending, and only a vanished device
    * ends the flush early. */
  lemma ControlFlush(t: UsbDevice.Transport, controls: seq<(bv8, seq<bv8>)>, pending: seq<bool>)
    requires |controls| == |pending|
    ensures var f := FlushSpec(t, ControlSend(), ControlStops(), controls, pending, 0);
      var order := PendingFrom(pending, 0);
      |f.sent| <= |order| && (forall k :: 0 <= k < |f.sent| ==> f.sent[k].index == order[k]) &&
      (f.stopped <==> |f.sent| > 0 && f.sent[|f.sent| - 1].code == ERROR_NO_DEVICE) &&
      (forall k :: 0 <= k < |f.sent| - 1 ==> f.sent[k].code != ERROR_NO_DEVICE) &&
      (!f.stopped ==> |f.sent| == |order|) &&
      (forall k :: 0 <= k < |f.sent| ==> f.sent[k].index < |pending| && (f.pending[f.sent[k].index] <==> f.sent[k].code < 0)) &&
      (forall j :: 0 <= j < |pending| && (forall k :: 0 <= k < |f.sent| ==> f.sent[k].index != j) ==>
                   f.pending[j] == pending[j])
  {
    var send, stops := ControlSend(), ControlStops();
    FlushOrder(t, send, stops, controls, pending, 0);
    FlushStops(t, send, stops, controls, pending, 0);
    FlushUntried(t, send, stops, controls, pending, 0);
    FlushTried(t, send, stops, controls, pending, 0);
  }

  // ---------------------------------------------------------------------------
  // Samples and the roll-mode cycle

  /** What one cycle works with that no step of it changes: the speed the
    * device reports, the begin-command bytes, the model, the current record
    * length and samplerate mode, whether the trigger mode is single and the
    * bytes of the bulk command table. */
  datatype Setup = Setup(speed: int, begin: seq<bv8>, model: Model, rollMode: bool, fastRate: bool,
                         recordLength: uint32, singleTrigger: bool, commands: seq<seq<bv8>>)

  /** getSampleCount: in roll mode it asks the device for its packet size. */
  function SampleCountSpec(t: UsbDevice.Transport, s: Setup): (res: (UsbDevice.Transport, SampleCount))
    ensures res.0.inLen == t.inLen
    ensures !s.rollMode ==> res.0 == t
    ensures res.1.SpeedFault? ==> s.rollMode
  {
    if s.rollMode then
      var (u, size) := UsbDevice.PacketSizeSpec(t, s.speed);
      (u, SampleCountOf(true, s.fastRate, s.recordLength, size))
    else (t, SampleCountOf(false, s.fastRate, s.recordLength, UsbDevice.Size(0)))
  }

  /** What getSamples leaves behind: the transport, the remembered sample
    * count, the number of bytes it returns, and whether getPacketSize threw. */
  datatype Fetched = Fetched(transport: UsbDevice.Transport, previous: uint32, bytes: nat, threw: bool)

  /** getSamples: unless the model works without bulk transfers it requests
    * the data with a single attempt and gives up with nothing on failure;
    * then it reads the larger of the current and the remembered sample count
    * in packets, and returns what arrived (nothing on a read error). */
  function GetSamplesSpec(t: UsbDevice.Transport, s: Setup, previous: uint32): (f: Fetched)
    requires |s.commands| == BulkCode.COUNT && t.inLen > 0
    ensures f.transport.inLen == t.inLen
    ensures f.threw ==> s.rollMode && f.previous == previous && f.bytes == 0
  {
    var (t1, c) := if UseControlNoBulk(s.model) then (t, SUCCESS)
                   else UsbDevice.BulkCommandSpec(t, s.speed, s.begin, s.commands[BulkCode.GETDATA], 1);
    if c < 0 then Fetched(t1, previous, 0, false)
    else
      var (t2, count) := SampleCountSpec(t1, s);
      match count
      case SpeedFault => Fetched(t2, previous, 0, true)
      case Count(total) =>
        var b := SampleBookkeeping(total, previous, SampleSize(s.model));
        var (t3, r) := UsbDevice.ReadMultiSpec(t2, s.speed, b.dataLength, UsbDefinitions.ATTEMPTS_MULTI);
        Fetched(t3, b.previous, if r < 0 then 0 else r, false)
  }

  /** The fields of the control the roll-mode step changes. */
  datatype Roll = Roll(state: nat, sampling: bool, started: bool, previous: uint32)

  /** How run() ends: it schedules the next cycle, returns early after a lost
    * device, or is left by the exception getPacketSize throws. */
  datatype Outcome = Rescheduled | Returned | Thrown

  /** The capture start of the STARTSAMPLING step, once the expected sample
    * count `total` is known: it is remembered, the capture command goes out,
    * and a capture counts as started when the command succeeded. */
  function StartCaptureSpec(t: UsbDevice.Transport, s: Setup, r: Roll, total: uint32)
    : (res: (UsbDevice.Transport, Roll, Outcome))
    requires |s.commands| == BulkCode.COUNT && r.state < ROLL_COUNT
    ensures var (u, q, o) := res;
      q.previous == total && q.sampling == r.sampling && o != Thrown && u.inLen == t.inLen
    ensures var (u, q, o) := res;
      q.state == (if o == Rescheduled then NextRollState(r.state) else r.state)
    ensures var (u, q, o) := res;
      (q.started ==> r.started || o == Rescheduled) && (r.started ==> q.started)
    ensures var (u, q, o) := res;
      !t.open ==> u == t && o == Returned && q == r.(previous := total)
    ensures var (u, q, o) := res;
      t.open && !t.allowBulk ==> u == t && o == Rescheduled && q.started
  {
    var (u, c) := UsbDevice.BulkCommandSpec(t, s.speed, s.begin, s.commands[BulkCode.STARTSAMPLING],
                                            UsbDefinitions.ATTEMPTS);
    if c == ERROR_NO_DEVICE then (u, r.(previous := total), Returned)
    else (u, r.(previous := total, started := r.started || c >= 0, state := NextRollState(r.state)), Rescheduled)
  }

  /** One roll-mode step of run(): start sampling (only while sampling, after
    * noting the expected sample count), enable the trigger, force it, or
    * fetch the data (stopping after it in single-trigger mode); then go to the
    * next state. A lost device ends run() before the state moves; any other
    * failed transfer just moves on. */
  function RollStepSpec(t: UsbDevice.Transport, s: Setup, r: Roll): (res: (UsbDevice.Transport, Roll, Outcome))
    requires |s.commands| == BulkCode.COUNT && t.inLen > 0 && r.state < ROLL_COUNT
    ensures var (u, q, o) := res;
      q.state == (if o != Rescheduled || (r.state == STARTSAMPLING && !r.sampling) then r.state
                  else NextRollState(r.state))
    ensures var (u, q, o) := res;
      o == Thrown ==> (r.state == STARTSAMPLING || r.state == GETDATA) && s.rollMode
    ensures var (u, q, o) := res;
      r.state == STARTSAMPLING && !r.sampling ==> u == t && q == r && o == Rescheduled
    ensures var (u, q, o) := res;
      r.state == ENABLETRIGGER || r.state == FORCETRIGGER ==> q.(state := r.state) == r && o != Thrown
    ensures var (u, q, o) := res;
      r.state == GETDATA && o == Rescheduled ==>
        !q.started && q.sampling == (r.sampling && !(s.singleTrigger && r.started))
    ensures var (u, q, o) := res;
      q.sampling == r.sampling || (r.state == GETDATA && !q.sampling)
  {
    if r.state == STARTSAMPLING then
      if !r.sampling then (t, r, Rescheduled)
      else
        var (t1, count) := SampleCountSpec(t, s);
        match count
        case SpeedFault => (t1, r, Thrown)
        case Count(total) => StartCaptureSpec(t1, s, r, total)
    else if r.state == ENABLETRIGGER || r.state == FORCETRIGGER then
      var command := if r.state == ENABLETRIGGER then BulkCode.ENABLETRIGGER else BulkCode.FORCETRIGGER;
      var (t1, c) := UsbDevice.BulkCommandSpec(t, s.speed, s.begin, s.commands[command], UsbDefinitions.ATTEMPTS);
      if c == ERROR_NO_DEVICE then (t1, r, Returned)
      else (t1, r.(state := NextRollState(r.state)), Rescheduled)
    else
      var f := GetSamplesSpec(t, s, r.previous);
      if f.threw then (f.transport, r, Thrown)
      else
        (f.transport, Roll(NextRollState(r.state), r.sampling && !(s.singleTrigger && r.started), false, f.previous),
         Rescheduled)
  }

  /** The inputs of the flushes' transfers keep the IN packet size, and so do the flushes. */
  lemma {:induction false} FlushKeepsInLen<X>(t: UsbDevice.Transport, send: (UsbDevice.Transport, X) -> (UsbDevice.Transport, int),
                                              stops: int -> bool, items: seq<X>, pending: seq<bool>, i: nat)
    requires |items| == |pending| && i <= |pending|
    requires forall u: UsbDevice.Transport, x: X :: send(u, x).0.inLen == u.inLen
    ensures FlushSpec(t, send, stops, items, pending, i).transport.inLen == t.inLen
    decreases |pending| - i
  {
    if i < |pending| {
      if !pending[i] {
        FlushKeepsInLen(t, send, stops, items, pending, i + 1);
      } else {
        var (u, c) := send(t, items[i]);
        if !stops(c) {
          FlushKeepsInLen(u, send, stops, items, if c < 0 then pending else pending[i := false], i + 1);
        }
      }
    }
  }

  /** What run() leaves behind: the transport, both tables' pending flags, the
    * roll-mode fields and how it ended. */
  datatype Cycle = Cycle(transport: UsbDevice.Transport, commandPending: seq<bool>, controlPending: seq<bool>,
                         roll: Roll, outcome: Outcome)

  /** run(): flush the pending bulk commands, then the pending control
    * commands; then take one roll-mode step, or, outside roll mode, restart
    * the roll cycle (the capture-state handling that follows is not part of
    * this model). */
  function RunSpec(t: UsbDevice.Transport, s: Setup, controls: seq<(bv8, seq<bv8>)>, commandPending: seq<bool>,
                   controlPending: seq<bool>, r: Roll): (c: Cycle)
    requires |s.commands| == BulkCode.COUNT == |commandPending| && |controls| == |controlPending|
    requires t.inLen > 0 && r.state < ROLL_COUNT
    ensures |c.commandPending| == |commandPending| && |c.controlPending| == |controlPending|
  {
    var bulk := FlushSpec(t, BulkSend(s.speed, s.begin), BulkStops(), s.commands, commandPending, 0);
    if bulk.stopped then Cycle(bulk.transport, bulk.pending, controlPending, r, Returned)
    else
      var ctrl := FlushSpec(bulk.transport, ControlSend(), ControlStops(), controls, controlPending, 0);
      if ctrl.stopped then Cycle(ctrl.transport, bulk.pending, ctrl.pending, r, Returned)
      else if s.rollMode then
        FlushKeepsInLen(t, BulkSend(s.speed, s.begin), BulkStops(), s.commands, commandPending, 0);
        FlushKeepsInLen(bulk.transport, ControlSend(), ControlStops(), controls, controlPending, 0);
        var (u, q, o) := RollStepSpec(ctrl.transport, s, r);
        Cycle(u, bulk.pending, ctrl.pending, q, o)
      else Cycle(ctrl.transport, bulk.pending, ctrl.pending, r.(state := STARTSAMPLING), Rescheduled)
  }

  // ---------------------------------------------------------------------------
  // The control object

  /** The trigger modes, in the order of their enumeration. */
  const TRIGGERMODE_AUTO: int := 0
  const TRIGGERMODE_NORMAL: int := 1
  const TRIGGERMODE_SINGLE: int := 2
  const TRIGGERMODE_SOFTWARE: int := 3
  const TRIGGERMODE_COUNT: int := 4

  /** The value request reading the channel level data, and the size of that data:
    * two channels of nine gain steps, each a start and an end of two bytes. */
  const VALUE_OFFSETLIMITS: int := 0x08
  const OFFSET_LIMIT_SIZE: nat := 72

  /** The DSO-6022 reads in packets of this size. */
  const INPACKET_6022: int := 16384

  /** The record length index a new control starts with. */
  const RECORD_LENGTH_ID_DEFAULT: nat := 1

  /** One samplerate mode of the model: whether the undivided base rate
    * reaches the maximum rate, and the record lengths, UINT_MAX meaning roll mode. */
  datatype SamplerateLimits = SamplerateLimits(baseAtLeastMax: bool, recordLengths: seq<uint32>)

  /** The integer part of the current settings: the downsampler, whether the
    * fast-rate limits are in use, which channels are used and how many, the
    * trigger mode and source, and the record length index. */
  datatype ControlSettings = ControlSettings(downsampler: uint32, fastRate: bool, used: seq<bool>, usedChannels: nat,
                                             triggerMode: int, triggerSpecial: bool, triggerSource: nat,
                                             recordLengthId: nat)

  /** The settings a new control starts with: downsampler 1, the normal
    * limits, no channel used and a count that agrees, normal trigger mode on
    * the first channel, and the default record length. */
  function DefaultSettings(): (s: ControlSettings)
    ensures |s.used| == HANTEK_CHANNELS && (forall k :: 0 <= k < |s.used| ==> !s.used[k])
    ensures s.usedChannels == CountUsed(s.used) == 0
    ensures s.downsampler == 1 && !s.fastRate && !s.triggerSpecial && s.triggerSource == 0
    ensures TRIGGERMODE_AUTO <= s.triggerMode < TRIGGERMODE_COUNT && s.recordLengthId == RECORD_LENGTH_ID_DEFAULT
  {
    ControlSettings(1, false, [false, false], 0, TRIGGERMODE_NORMAL, false, 0, RECORD_LENGTH_ID_DEFAULT)
  }

  /** The counting loop of setChannelUsed. */
  method CountUsedChannels(used: seq<bool>) returns (count: nat)
    ensures count == CountUsed(used)
  {
    count := 0;
    var i := 0;
    while i < |used|
      invariant 0 <= i <= |used| && count == CountUsed(used[..i])
    {
      assert used[..i + 1][..i] == used[..i];
      if used[i] {
        count := count + 1;
      }
      i := i + 1;
    }
    assert used[..|used|] == used;
  }

  /** Every slot of a table is a buffer of its own: no buffer appears twice. */
  ghost predicate Distinct(arrays: seq<array<bv8>>)
    decreases |arrays|
  {
    arrays == [] || (arrays[|arrays| - 1] !in arrays[..|arrays| - 1] && Distinct(arrays[..|arrays| - 1]))
  }

  /** No slot of the table holds the object `o`. */
  ghost predicate NoSlotIs(slots: seq<array<bv8>>, o: object)
  {
    forall j :: 0 <= j < |slots| ==> slots[j] != o
  }

  /** A pending-flag array of `n` flags, set exactly at the indices in `marked`. */
  method NewFlags(n: nat, marked: set<nat>, slots: seq<array<bv8>>) returns (flags: array<bool>)
    ensures fresh(flags) && flags.Length == n && NoSlotIs(slots, flags)
    ensures forall i :: 0 <= i < n ==> flags[i] == (i in marked)
  {
    flags := new bool[n](i => i in marked);
  }

  /** A table no slot of which is `o` splits into two such tables at the control base. */
  lemma NoSlotIsSplit(slots: seq<array<bv8>>, o: object)
    requires NoSlotIs(slots, o) && |slots| == SLOT_COUNT
    ensures NoSlotIs(slots[..CONTROL_BASE], o) && NoSlotIs(slots[CONTROL_BASE..], o)
  {
    assert forall j :: 0 <= j < |slots| - CONTROL_BASE ==> slots[CONTROL_BASE..][j] == slots[CONTROL_BASE + j];
  }

  /** Two different slots of distinct buffers hold different buffers. */
  lemma {:induction false} DistinctApart(arrays: seq<array<bv8>>, i: nat, j: nat)
    requires Distinct(arrays) && i < j < |arrays|
    ensures arrays[i] != arrays[j]
    decreases |arrays|
  {
    var n := |arrays|;
    if j == n - 1 {
      assert arrays[i] == arrays[..n - 1][i];
    } else {
      assert arrays[i] == arrays[..n - 1][i] && arrays[j] == arrays[..n - 1][j];
      DistinctApart(arrays[..n - 1], i, j);
    }
  }

  /** The bulk commands a model creates and marks pending at start: commands
    * of its own, among them every command its settings are written to, and
    * none at all for the DSO-6022. */
  function ModelCommands(m: Model): (s: set<nat>)
    ensures forall k :: k in s ==> ModelSpecific(k)
    ensures SetChannelsCommand(m) >= 0 ==> SetChannelsCommand(m) as nat in s
    ensures SetSamplerateCommand(m) >= 0 ==> SetSamplerateCommand(m) as nat in s
    ensures SetTriggerCommand(m) >= 0 ==> SetTriggerCommand(m) as nat in s
    ensures s == {} <==> UseControlNoBulk(m)
  {
    match m
    case Dso2090 => {BulkCode.SETTRIGGERANDSAMPLERATE}
    case Dso2150 => {BulkCode.SETTRIGGERANDSAMPLERATE}
    case Dso2250 => {BulkCode.BSETCHANNELS, BulkCode.CSETTRIGGERORSAMPLERATE, BulkCode.DSETBUFFER,
                     BulkCode.ESETTRIGGERORSAMPLERATE, BulkCode.FSETBUFFER}
    case Dso5200 => {BulkCode.CSETTRIGGERORSAMPLERATE, BulkCode.DSETBUFFER, BulkCode.ESETTRIGGERORSAMPLERATE}
    case Dso6022 => {}
  }

  /** The control commands a model marks pending at start: the divider and
    * acquisition requests on the DSO-6022, the offset and relay requests on
    * the others. */
  function ModelControls(m: Model): (s: set<nat>)
    ensures forall k :: k in s ==> k < CONTROLINDEX_COUNT
    ensures CONTROLINDEX_SETOFFSET in s <==> !UseControlNoBulk(m)
    ensures CONTROLINDEX_SETVOLTDIV_CH1 in s <==> UseControlNoBulk(m)
  {
    if m == Dso6022 then {CONTROLINDEX_SETVOLTDIV_CH1, CONTROLINDEX_SETVOLTDIV_CH2, CONTROLINDEX_SETTIMEDIV,
                          CONTROLINDEX_ACQUIRE_HARD_DATA}
    else {CONTROLINDEX_SETOFFSET, CONTROLINDEX_SETRELAYS}
  }

  /** The request codes of the control table; codes the model leaves unset are
    * 0 here. Every pending control has a request code, and no two set codes
    * are equal, so a lookup by request code finds at most one slot. */
  function ModelControlCodes(m: Model): (codes: seq<bv8>)
    ensures |codes| == CONTROLINDEX_COUNT
    ensures forall k :: k in ModelControls(m) ==> codes[k] != 0
    ensures forall i, j :: 0 <= i < j < |codes| && codes[i] != 0 ==> codes[i] != codes[j]
  {
    [ControlCode.SETOFFSET, ControlCode.SETRELAYS] +
    (if m == Dso6022 then [ControlCode.SETVOLTDIV_CH1, ControlCode.SETVOLTDIV_CH2, ControlCode.SETTIMEDIV,
                           ControlCode.ACQUIRE_HARD_DATA]
     else [0, 0, 0, 0])
  }

  /** Where the control table starts in the combined table: bulk slots first, then control slots. */
  const CONTROL_BASE: nat := BulkCode.COUNT
  const SLOT_COUNT: nat := BulkCode.COUNT + CONTROLINDEX_COUNT

  /** The opcode test of stringCommand's bulk branch as written: it refuses an
    * opcode only when it is above BULK_COUNT. */
  function StringBulkCodeAsWritten(code: bv8): (r: ErrorCode)
    ensures r == NONE || r == UNSUPPORTED
    ensures r == NONE <==> code as int <= BulkCode.COUNT
  {
    if code as int > BulkCode.COUNT then UNSUPPORTED else NONE
  }

  /** Some opcode passes that test although it indexes past the last slot of
    * the command and pending tables: BULK_COUNT itself. */
  lemma StringBulkCodeOffByOne()
    ensures exists code: bv8 :: StringBulkCodeAsWritten(code) == NONE && code as int >= BulkCode.COUNT
  {
    assert StringBulkCodeAsWritten(0x10) == NONE;
  }

  /** The bulk slots that the constructor and the model's applyRequirements
    * fill; the source leaves every other slot a null pointer. */
  predicate BulkCreated(m: Model, code: int)
  {
    BulkCode.FORCETRIGGER <= code <= BulkCode.SETGAIN || (code >= 0 && code as nat in ModelCommands(m))
  }

  /** That test also lets SETFILTER through, whose slot no model creates: the
    * command pointer it then writes through is null on every model. So is a
    * DSO-2090's BSETCHANNELS slot, which only the DSO-2250 creates. */
  lemma StringBulkNullSlot(m: Model)
    ensures StringBulkCodeAsWritten(BulkCode.SETFILTER as bv8) == NONE && BulkCode.SETFILTER < BulkCode.COUNT
    ensures !BulkCreated(m, BulkCode.SETFILTER)
    ensures StringBulkCodeAsWritten(BulkCode.BSETCHANNELS as bv8) == NONE && !BulkCreated(Dso2090, BulkCode.BSETCHANNELS)
  {
  }

  /** The packets the settings write to; those a model does not create are null. */
  datatype Packets = Packets(triggerAndSamplerate: BulkStructs.BulkSetTriggerAndSamplerate?,
                             channels2250: BulkStructs.BulkSetChannels2250?,
                             trigger2250: BulkStructs.BulkSetTrigger2250?,
                             samplerate2250: BulkStructs.BulkSetSamplerate2250?,
                             samplerate5200: BulkStructs.BulkSetSamplerate5200?,
                             trigger5200: BulkStructs.BulkSetTrigger5200?,
                             offset: ControlStructs.ControlSetOffset?,
                             relays: ControlStructs.ControlSetRelays?)

  /** Each packet the model writes to sits in its slot of the combined table,
    * as far as the table is filled. */
  ghost predicate Linked(m: Model, slots: seq<array<bv8>>, p: Packets)
  {
    ((m == Dso2090 || m == Dso2150) && |slots| > BulkCode.SETTRIGGERANDSAMPLERATE ==>
       p.triggerAndSamplerate != null && p.triggerAndSamplerate.Valid() &&
       slots[BulkCode.SETTRIGGERANDSAMPLERATE] == p.triggerAndSamplerate.data) &&
    (m == Dso2250 && |slots| > BulkCode.BSETCHANNELS ==>
       p.channels2250 != null && p.channels2250.Valid() && slots[BulkCode.BSETCHANNELS] == p.channels2250.data) &&
    (m == Dso2250 && |slots| > BulkCode.CSETTRIGGERORSAMPLERATE ==>
       p.trigger2250 != null && p.trigger2250.Valid() && slots[BulkCode.CSETTRIGGERORSAMPLERATE] == p.trigger2250.data) &&
    (m == Dso2250 && |slots| > BulkCode.ESETTRIGGERORSAMPLERATE ==>
       p.samplerate2250 != null && p.samplerate2250.Valid() &&
       slots[BulkCode.ESETTRIGGERORSAMPLERATE] == p.samplerate2250.data) &&
    (m == Dso5200 && |slots| > BulkCode.CSETTRIGGERORSAMPLERATE ==>
       p.samplerate5200 != null && p.samplerate5200.Valid() &&
       slots[BulkCode.CSETTRIGGERORSAMPLERATE] == p.samplerate5200.data) &&
    (m == Dso5200 && |slots| > BulkCode.ESETTRIGGERORSAMPLERATE ==>
       p.trigger5200 != null && p.trigger5200.Valid() && slots[BulkCode.ESETTRIGGERORSAMPLERATE] == p.trigger5200.data) &&
    (|slots| > CONTROL_BASE + CONTROLINDEX_SETOFFSET ==>
       p.offset != null && p.offset.Valid() && slots[CONTROL_BASE + CONTROLINDEX_SETOFFSET] == p.offset.data) &&
    (|slots| > CONTROL_BASE + CONTROLINDEX_SETRELAYS ==>
       p.relays != null && p.relays.Valid() && slots[CONTROL_BASE + CONTROLINDEX_SETRELAYS] == p.relays.data)
  }

  /** A slot of the bulk commands FORCETRIGGER to SETGAIN, which every model creates. */
  method NewCommonSlot(model: Model, slots: seq<array<bv8>>, p: Packets) returns (slots': seq<array<bv8>>, p': Packets)
    requires |slots| < SLOT_COUNT && Distinct(slots) && Linked(model, slots, p)
    ensures |slots'| == |slots| + 1 && slots'[..|slots|] == slots && fresh(slots'[|slots|])
    ensures Distinct(slots') && Linked(model, slots', p')
    requires BulkCode.FORCETRIGGER <= |slots| <= BulkCode.SETGAIN
  {
    var i := |slots|;
    var a: array<bv8>;
    p' := p;
    if i == BulkCode.FORCETRIGGER {
      var x := new BulkStructs.BulkForceTrigger();
      a := x.data;
    } else if i == BulkCode.STARTSAMPLING {
      var x := new BulkStructs.BulkCaptureStart();
      a := x.data;
    } else if i == BulkCode.ENABLETRIGGER {
      var x := new BulkStructs.BulkTriggerEnabled();
      a := x.data;
    } else if i == BulkCode.GETDATA {
      var x := new BulkStructs.BulkGetData();
      a := x.data;
    } else if i == BulkCode.GETCAPTURESTATE {
      var x := new BulkStructs.BulkGetCaptureState();
      a := x.data;
    } else {
      var x := new BulkStructs.BulkSetGain();
      a := x.data;
    }
    slots' := slots + [a];
    assert slots'[..i] == slots;
  }

  /** A bulk slot of the DSO-2090 or DSO-2150 outside FORCETRIGGER to SETGAIN: SETTRIGGERANDSAMPLERATE or an empty placeholder. */
  method NewSlot2090(model: Model, slots: seq<array<bv8>>, p: Packets) returns (slots': seq<array<bv8>>, p': Packets)
    requires |slots| < SLOT_COUNT && Distinct(slots) && Linked(model, slots, p)
    ensures |slots'| == |slots| + 1 && slots'[..|slots|] == slots && fresh(slots'[|slots|])
    ensures Distinct(slots') && Linked(model, slots', p')
    requires |slots| < CONTROL_BASE && !(BulkCode.FORCETRIGGER <= |slots| <= BulkCode.SETGAIN)
    requires model == Dso2090 || model == Dso2150
  {
    var i := |slots|;
    var a: array<bv8>;
    p' := p;
    if i == BulkCode.SETTRIGGERANDSAMPLERATE {
      var x := new BulkStructs.BulkSetTriggerAndSamplerate();
      a, p' := x.data, p.(triggerAndSamplerate := x);
    } else {
      a := new bv8[0];
    }
    slots' := slots + [a];
    assert slots'[..i] == slots;
  }

  /** A bulk slot of the DSO-2250 outside FORCETRIGGER to SETGAIN: the five commands its applyRequirements creates, or an empty placeholder. */
  method NewSlot2250(model: Model, slots: seq<array<bv8>>, p: Packets) returns (slots': seq<array<bv8>>, p': Packets)
    requires |slots| < SLOT_COUNT && Distinct(slots) && Linked(model, slots, p)
    ensures |slots'| == |slots| + 1 && slots'[..|slots|] == slots && fresh(slots'[|slots|])
    ensures Distinct(slots') && Linked(model, slots', p')
    requires |slots| < CONTROL_BASE && !(BulkCode.FORCETRIGGER <= |slots| <= BulkCode.SETGAIN)
    requires model == Dso2250
  {
    var i := |slots|;
    var a: array<bv8>;
    p' := p;
    if i == BulkCode.BSETCHANNELS {
      var x := new BulkStructs.BulkSetChannels2250();
      a, p' := x.data, p.(channels2250 := x);
    } else if i == BulkCode.CSETTRIGGERORSAMPLERATE {
      var x := new BulkStructs.BulkSetTrigger2250();
      a, p' := x.data, p.(trigger2250 := x);
    } else if i == BulkCode.DSETBUFFER {
      var x := new BulkStructs.BulkSetRecordLength2250();
      a := x.data;
    } else if i == BulkCode.ESETTRIGGERORSAMPLERATE {
      var x := new BulkStructs.BulkSetSamplerate2250();
      a, p' := x.data, p.(samplerate2250 := x);
    } else if i == BulkCode.FSETBUFFER {
      var x := new BulkStructs.BulkSetBuffer2250();
      a := x.data;
    } else {
      a := new bv8[0];
    }
    slots' := slots + [a];
    assert slots'[..i] == slots;
  }

  /** A bulk slot of the DSO-5200 outside FORCETRIGGER to SETGAIN: the three commands its applyRequirements creates, or an empty placeholder. */
  method NewSlot5200(model: Model, slots: seq<array<bv8>>, p: Packets) returns (slots': seq<array<bv8>>, p': Packets)
    requires |slots| < SLOT_COUNT && Distinct(slots) && Linked(model, slots, p)
    ensures |slots'| == |slots| + 1 && slots'[..|slots|] == slots && fresh(slots'[|slots|])
    ensures Distinct(slots') && Linked(model, slots', p')
    requires |slots| < CONTROL_BASE && !(BulkCode.FORCETRIGGER <= |slots| <= BulkCode.SETGAIN)
    requires model == Dso5200
  {
    var i := |slots|;
    var a: array<bv8>;
    p' := p;
    if i == BulkCode.CSETTRIGGERORSAMPLERATE {
      var x := new BulkStructs.BulkSetSamplerate5200();
      a, p' := x.data, p.(samplerate5200 := x);
    } else if i == BulkCode.DSETBUFFER {
      var x := new BulkStructs.BulkSetBuffer5200();
      a := x.data;
    } else if i == BulkCode.ESETTRIGGERORSAMPLERATE {
      var x := new BulkStructs.BulkSetTrigger5200();
      a, p' := x.data, p.(trigger5200 := x);
    } else {
      a := new bv8[0];
    }
    slots' := slots + [a];
    assert slots'[..i] == slots;
  }

  /** A bulk slot outside FORCETRIGGER to SETGAIN: the packet the model's
    * applyRequirements creates there, or an empty placeholder. */
  method NewModelSlot(model: Model, slots: seq<array<bv8>>, p: Packets) returns (slots': seq<array<bv8>>, p': Packets)
    requires |slots| < SLOT_COUNT && Distinct(slots) && Linked(model, slots, p)
    ensures |slots'| == |slots| + 1 && slots'[..|slots|] == slots && fresh(slots'[|slots|])
    ensures Distinct(slots') && Linked(model, slots', p')
    requires |slots| < CONTROL_BASE && !(BulkCode.FORCETRIGGER <= |slots| <= BulkCode.SETGAIN)
  {
    match model {
      case Dso2090 | Dso2150 =>
        slots', p' := NewSlot2090(model, slots, p);
      case Dso2250 =>
        slots', p' := NewSlot2250(model, slots, p);
      case Dso5200 =>
        slots', p' := NewSlot5200(model, slots, p);
      case Dso6022 =>
        var a := new bv8[0];
        slots', p' := slots + [a], p;
        assert slots'[..|slots|] == slots;
    }
  }

  /** A control slot: the offset and relay packets every model creates, the DSO-6022 divider packets, or an empty placeholder. */
  method NewControlSlot(model: Model, slots: seq<array<bv8>>, p: Packets) returns (slots': seq<array<bv8>>, p': Packets)
    requires |slots| < SLOT_COUNT && Distinct(slots) && Linked(model, slots, p)
    ensures |slots'| == |slots| + 1 && slots'[..|slots|] == slots && fresh(slots'[|slots|])
    ensures Distinct(slots') && Linked(model, slots', p')
    requires CONTROL_BASE <= |slots|
  {
    var i := |slots|;
    var a: array<bv8>;
    p' := p;
    if i == CONTROL_BASE + CONTROLINDEX_SETOFFSET {
      var x := new ControlStructs.ControlSetOffset();
      a, p' := x.data, p.(offset := x);
    } else if i == CONTROL_BASE + CONTROLINDEX_SETRELAYS {
      var x := new ControlStructs.ControlSetRelays(false, false, false, false, false, false, false);
      a, p' := x.data, p.(relays := x);
    } else if i == CONTROL_BASE + CONTROLINDEX_SETVOLTDIV_CH1 && model == Dso6022 {
      var x := new ControlStructs.ControlSetVoltDivCh1();
      a := x.data;
    } else if i == CONTROL_BASE + CONTROLINDEX_SETVOLTDIV_CH2 && model == Dso6022 {
      var x := new ControlStructs.ControlSetVoltDivCh2();
      a := x.data;
    } else if i == CONTROL_BASE + CONTROLINDEX_SETTIMEDIV && model == Dso6022 {
      var x := new ControlStructs.ControlSetTimeDiv();
      a := x.data;
    } else if i == CONTROL_BASE + CONTROLINDEX_ACQUIRE_HARD_DATA && model == Dso6022 {
      var x := new ControlStructs.ControlAcquireHardData();
      a := x.data;
    } else {
      a := new bv8[0];
    }
    slots' := slots + [a];
    assert slots'[..i] == slots;
  }

  /** Creates the buffer of the next slot of the combined table. */
  method NewSlot(model: Model, slots: seq<array<bv8>>, p: Packets) returns (slots': seq<array<bv8>>, p': Packets)
    requires |slots| < SLOT_COUNT && Distinct(slots) && Linked(model, slots, p)
    ensures |slots'| == |slots| + 1 && slots'[..|slots|] == slots && fresh(slots'[|slots|])
    ensures Distinct(slots') && Linked(model, slots', p')
  {
    if BulkCode.FORCETRIGGER <= |slots| <= BulkCode.SETGAIN {
      slots', p' := NewCommonSlot(model, slots, p);
    } else if |slots| < CONTROL_BASE {
      slots', p' := NewModelSlot(model, slots, p);
    } else {
      slots', p' := NewControlSlot(model, slots, p);
    }
  }

  /** The combined table of a new control, with the packets behind its slots. */
  method Tables(model: Model) returns (slots: seq<array<bv8>>, p: Packets)
    ensures |slots| == SLOT_COUNT && Distinct(slots) && Linked(model, slots, p)
  {
    slots, p := [], Packets(null, null, null, null, null, null, null, null);
    while |slots| < SLOT_COUNT
      invariant |slots| <= SLOT_COUNT && Distinct(slots) && Linked(model, slots, p)
    {
      slots, p := NewSlot(model, slots, p);
    }
  }

  /** The tables of a control: their sizes, a buffer of its own in every slot,
    * the packets in their slots, and pending flags that are neither a slot
    * nor the begin-command buffer. */
  ghost predicate TablesOk(m: Model, begin: array<bv8>, command: seq<array<bv8>>, commandPending: array<bool>,
                           control: seq<array<bv8>>, controlCode: seq<bv8>, controlPending: array<bool>, p: Packets)
  {
    |command| == BulkCode.COUNT && commandPending.Length == BulkCode.COUNT &&
    |control| == CONTROLINDEX_COUNT && |controlCode| == CONTROLINDEX_COUNT &&
    controlPending.Length == CONTROLINDEX_COUNT &&
    Distinct(command + control) && Linked(m, command + control, p) &&
    NoSlotIs(command, commandPending) && NoSlotIs(control, commandPending) &&
    NoSlotIs(command, controlPending) && NoSlotIs(control, controlPending) &&
    begin as object != commandPending && begin as object != controlPending
  }

  /** Both tables of a new control, with the model's commands marked pending. */
  method NewTables(model: Model, begin: array<bv8>)
    returns (command: seq<array<bv8>>, commandPending: array<bool>, control: seq<array<bv8>>,
             controlPending: array<bool>, p: Packets)
    ensures TablesOk(model, begin, command, commandPending, control, ModelControlCodes(model), controlPending, p)
    ensures forall i :: 0 <= i < BulkCode.COUNT ==> commandPending[i] == (i in ModelCommands(model))
    ensures forall i :: 0 <= i < CONTROLINDEX_COUNT ==> controlPending[i] == (i in ModelControls(model))
  {
    var slots;
    slots, p := Tables(model);
    commandPending := NewFlags(BulkCode.COUNT, ModelCommands(model), slots);
    controlPending := NewFlags(CONTROLINDEX_COUNT, ModelControls(model), slots);
    NoSlotIsSplit(slots, commandPending);
    NoSlotIsSplit(slots, controlPending);
    command, control := slots[..CONTROL_BASE], slots[CONTROL_BASE..];
    assert command + control == slots;
  }

  class HantekDsoControl {
    const model: Model
    const device: UsbDevice.USBDevice
    /** The bulk command table, indexed by command code, and its pending flags. */
    const command: seq<array<bv8>>
    const commandPending: array<bool>
    /** The control command table, its request codes and its pending flags. */
    const control: seq<array<bv8>>
    const controlCode: seq<bv8>
    const controlPending: array<bool>
    /** The model-specific packets behind the table slots the settings write to. */
    const setTriggerAndSamplerate: BulkStructs.BulkSetTriggerAndSamplerate?
    const setChannels2250: BulkStructs.BulkSetChannels2250?
    const setTrigger2250: BulkStructs.BulkSetTrigger2250?
    const setSamplerate2250: BulkStructs.BulkSetSamplerate2250?
    const setSamplerate5200: BulkStructs.BulkSetSamplerate5200?
    const setTrigger5200: BulkStructs.BulkSetTrigger5200?
    const setOffset: ControlStructs.ControlSetOffset
    const setRelays: ControlStructs.ControlSetRelays
    /** The model's normal and fast-rate samplerate limits. */
    const single: SamplerateLimits
    const multi: SamplerateLimits

    var settings: ControlSettings
    var sampling: bool
    var samplingStarted: bool
    var rollState: nat
    var previousSampleCount: uint32

    /** The tables of this control, as TablesOk describes them. It reads no mutable field. */
    ghost predicate TablesValid()
    {
      TablesOk(model, device.beginCommandControl.data, command, commandPending, control, controlCode, controlPending,
               PacketsOf())
    }

    ghost predicate Valid()
      reads this
    {
      TablesValid() &&
      settings.recordLengthId < |single.recordLengths| && settings.recordLengthId < |multi.recordLengths| &&
      |settings.used| == HANTEK_CHANNELS && settings.usedChannels == CountUsed(settings.used) &&
      settings.triggerSource < HANTEK_CHANNELS && rollState < ROLL_COUNT
    }

    /** The packets behind the table slots. */
    function PacketsOf(): Packets
    {
      Packets(setTriggerAndSamplerate, setChannels2250, setTrigger2250, setSamplerate2250, setSamplerate5200,
                         setTrigger5200, setOffset, setRelays)
    }

    /** The bytes of every bulk table slot. */
    ghost function CommandBytes(): (bytes: seq<seq<bv8>>)
      reads command
      ensures |bytes| == |command| && forall i :: 0 <= i < |command| ==> bytes[i] == command[i][..]
    {
      seq(|command|, i requires 0 <= i < |command| reads command => command[i][..])
    }

    /** The request code and the bytes of every control table slot. */
    ghost function ControlItems(): (items: seq<(bv8, seq<bv8>)>)
      requires |controlCode| == |control|
      reads control
      ensures |items| == |control| && forall i :: 0 <= i < |control| ==> items[i] == (controlCode[i], control[i][..])
    {
      seq(|control|, i requires 0 <= i < |control| reads control => (controlCode[i], control[i][..]))
    }

    /** The limits the current samplerate mode uses. */
    function Limits(): SamplerateLimits
      reads this
    {
      LimitsFor(settings.fastRate)
    }

    function RecordLength(): uint32
      requires Valid()
      reads this
    {
      Limits().recordLengths[settings.recordLengthId]
    }

    /** Roll mode is the record length UINT_MAX. */
    function IsRollMode(): bool
      requires Valid()
      reads this
    {
      RecordLength() == UINT_MAX
    }

    /** What a cycle works with and does not change. */
    ghost function CycleSetup(): (s: Setup)
      requires Valid()
      reads this, device.beginCommandControl.data, command
      ensures |s.commands| == BulkCode.COUNT
    {
      Setup(device.host.speed, device.BeginCommand(), model, IsRollMode(), settings.fastRate, RecordLength(),
                       settings.triggerMode == TRIGGERMODE_SINGLE, CommandBytes())
    }

    /** Creates the commands every model uses and the model's own, marks the
      * model's commands pending, disables bulk transfers on models that work
      * without them, and reads the channel level data. */
    constructor (device: UsbDevice.USBDevice, model: Model, single: SamplerateLimits, multi: SamplerateLimits)
      requires |single.recordLengths| > RECORD_LENGTH_ID_DEFAULT && |multi.recordLengths| > RECORD_LENGTH_ID_DEFAULT
      modifies device, device.host
      ensures Valid()
      ensures this.device == device && this.model == model && this.single == single && this.multi == multi
      ensures forall i :: 0 <= i < BulkCode.COUNT ==> commandPending[i] == (i in ModelCommands(model))
      ensures forall i :: 0 <= i < CONTROLINDEX_COUNT ==> controlPending[i] == (i in ModelControls(model))
      ensures controlCode == ModelControlCodes(model)
      ensures settings == DefaultSettings() && RollOf() == Roll(STARTSAMPLING, false, false, 0)
      ensures var t := old(device.State());
        var t1 := if UseControlNoBulk(model) then t.(allowBulk := false) else t;
        var t2 := if model == Dso6022 then t1.(inLen := INPACKET_6022) else t1;
        device.State() == UsbDevice.ControlReadSpec(t2, ControlCode.VALUE, OFFSET_LIMIT_SIZE, VALUE_OFFSETLIMITS, 0,
                                          UsbDefinitions.ATTEMPTS).0
    {
      ConfigureDevice(device, model);
      var bulk, pending, controls, pendingControl, p := NewTables(model, device.beginCommandControl.data);
      this.model := model;
      this.device := device;
      command, commandPending := bulk, pending;
      control, controlCode, controlPending := controls, ModelControlCodes(model), pendingControl;
      setTriggerAndSamplerate := p.triggerAndSamplerate;
      setChannels2250, setTrigger2250, setSamplerate2250 := p.channels2250, p.trigger2250, p.samplerate2250;
      setSamplerate5200, setTrigger5200 := p.samplerate5200, p.trigger5200;
      setOffset, setRelays := p.offset, p.relays;
      this.single, this.multi := single, multi;
      settings := DefaultSettings();
      sampling, samplingStarted, rollState, previousSampleCount := false, false, STARTSAMPLING, 0;
    }

    /** The device half of the constructor: bulk transfers off on models that
      * work without them, the DSO-6022's packet length, then the channel level
      * data. The tables it allocates are independent of these calls. */
    static method ConfigureDevice(device: UsbDevice.USBDevice, model: Model)
      modifies device, device.host
      ensures var t := old(device.State());
        var t1 := if UseControlNoBulk(model) then t.(allowBulk := false) else t;
        var t2 := if model == Dso6022 then t1.(inLen := INPACKET_6022) else t1;
        device.State() == UsbDevice.ControlReadSpec(t2, ControlCode.VALUE, OFFSET_LIMIT_SIZE, VALUE_OFFSETLIMITS, 0,
                                          UsbDefinitions.ATTEMPTS).0
    {
      if UseControlNoBulk(model) {
        device.SetEnableBulkTransfer(false);
      }
      if model == Dso6022 {
        device.OverwriteInPacketLength(INPACKET_6022);
      }
      var _ := RetrieveChannelLevelData(device);
    }

    /** retrieveChannelLevelData: reads the offset limits of every gain step;
      * a failed read is a connection error. */
    static method RetrieveChannelLevelData(device: UsbDevice.USBDevice) returns (r: ErrorCode)
      modifies device, device.host
      ensures var (u, c) := UsbDevice.ControlReadSpec(old(device.State()), ControlCode.VALUE, OFFSET_LIMIT_SIZE, VALUE_OFFSETLIMITS, 0,
                                            UsbDefinitions.ATTEMPTS);
        device.State() == u && (r == CONNECTION <==> c < 0) && (r == NONE <==> c >= 0)
    {
      var c := device.ControlRead(ControlCode.VALUE, OFFSET_LIMIT_SIZE, VALUE_OFFSETLIMITS, 0, UsbDefinitions.ATTEMPTS);
      r := if c < 0 then CONNECTION else NONE;
    }

    /** Slot `k` of the combined table holds a buffer that no other slot holds. */
    lemma SlotApart(k: nat)
      requires TablesValid() && k < SLOT_COUNT
      ensures forall j :: 0 <= j < |command| && j != k ==> command[j] != (command + control)[k]
      ensures forall j :: 0 <= j < |control| && CONTROL_BASE + j != k ==> control[j] != (command + control)[k]
    {
      var slots := command + control;
      forall j | 0 <= j < SLOT_COUNT && j != k
        ensures slots[j] != slots[k]
      {
        if j < k {
          DistinctApart(slots, j, k);
        } else {
          DistinctApart(slots, k, j);
        }
      }
      assert forall j :: 0 <= j < |command| ==> command[j] == slots[j];
      assert forall j :: 0 <= j < |control| ==> control[j] == slots[CONTROL_BASE + j];
    }

    /** The used-channels field of the model's channel command. */
    function UsedChannelsField(): bv8
      requires TablesValid() && model != Dso6022
      reads command[SetChannelsCommand(model)]
    {
      match model
      case Dso2090 | Dso2150 => setTriggerAndSamplerate.GetUsedChannels()
      case Dso2250 => setChannels2250.GetUsedChannels()
      case Dso5200 => setTrigger5200.GetUsedChannels()
    }

    /** The trigger-source field of the model's trigger command. */
    function TriggerSourceField(): bv8
      requires TablesValid() && model != Dso6022
      reads command[SetTriggerCommand(model)]
    {
      match model
      case Dso2090 | Dso2150 => setTriggerAndSamplerate.GetTriggerSource()
      case Dso2250 => setTrigger2250.GetTriggerSource()
      case Dso5200 => setTrigger5200.GetTriggerSource()
    }

    /** Writes the used-channels code into the model's channel command and
      * marks it pending; no other slot changes. */
    method WriteUsedChannels(code: bv8)
      requires TablesValid() && model != Dso6022
      modifies command[SetChannelsCommand(model)], commandPending
      ensures commandPending[..] == old(commandPending[..])[SetChannelsCommand(model) := true]
      ensures UsedChannelsField() == if model == Dso2250 then code else code & 0x03
      ensures CommandBytes() == old(CommandBytes())[SetChannelsCommand(model) := command[SetChannelsCommand(model)][..]]
    {
      SlotApart(SetChannelsCommand(model));
      match model {
        case Dso2090 | Dso2150 => setTriggerAndSamplerate.SetUsedChannels(code);
        case Dso2250 => setChannels2250.SetUsedChannels(code);
        case Dso5200 => setTrigger5200.SetUsedChannels(code);
      }
      commandPending[SetChannelsCommand(model)] := true;
    }

    /** setChannelUsed: marks the channel used or unused, counts the used
      * channels and writes the used-channels code into the model's channel
      * command, which becomes pending. */
    method SetChannelUsed(channel: nat, used: bool) returns (r: ErrorCode)
      requires Valid()
      modifies this, commandPending, command
      ensures Valid() && RollOf() == old(RollOf())
      ensures r == CONNECTION <==> !device.IsConnected()
      ensures r == PARAMETER <==> device.IsConnected() && channel >= HANTEK_CHANNELS
      ensures r == NONE <==> device.IsConnected() && channel < HANTEK_CHANNELS
      ensures r != NONE ==>
        settings == old(settings) && commandPending[..] == old(commandPending[..]) && CommandBytes() == old(CommandBytes())
      ensures r == NONE ==> var u := old(settings.used)[channel := used];
        settings == old(settings).(used := u, usedChannels := CountUsed(u))
      ensures r == NONE && model == Dso6022 ==>
        commandPending[..] == old(commandPending[..]) && CommandBytes() == old(CommandBytes())
      ensures r == NONE && model != Dso6022 ==> var k := SetChannelsCommand(model);
        0 <= k < BulkCode.COUNT && commandPending[..] == old(commandPending[..])[k := true] &&
        UsedChannelsField() == UsedChannelsCode(settings.used[0], settings.used[1], k) &&
        CommandBytes() == old(CommandBytes())[k := command[k][..]]
    {
      if !device.IsConnected() {
        return CONNECTION;
      }
      if channel >= HANTEK_CHANNELS {
        return PARAMETER;
      }
      var u := settings.used[channel := used];
      var count := CountUsedChannels(u);
      if model != Dso6022 {
        var k := SetChannelsCommand(model);
        var code := UsedChannelsCode(u[0], u[1], k);
        assert code & 0x03 == code;
        WriteUsedChannels(code);
      }
      settings := settings.(used := u, usedChannels := count);
      r := NONE;
    }

    /** setTriggerMode: any mode of the enumeration is taken. */
    method SetTriggerMode(mode: int) returns (r: ErrorCode)
      requires Valid()
      modifies this
      ensures Valid() && RollOf() == old(RollOf())
      ensures r == CONNECTION <==> !device.IsConnected()
      ensures r == PARAMETER <==> device.IsConnected() && !(TRIGGERMODE_AUTO <= mode < TRIGGERMODE_COUNT)
      ensures r == NONE <==> device.IsConnected() && TRIGGERMODE_AUTO <= mode < TRIGGERMODE_COUNT
      ensures settings == if r == NONE then old(settings).(triggerMode := mode) else old(settings)
    {
      if !device.IsConnected() {
        return CONNECTION;
      }
      if mode < TRIGGERMODE_AUTO || mode >= TRIGGERMODE_COUNT {
        return PARAMETER;
      }
      settings := settings.(triggerMode := mode);
      r := NONE;
    }

    /** Writes the trigger-source value into the model's trigger command and
      * marks it pending; no other slot changes. */
    method WriteTriggerSource(value: bv8)
      requires TablesValid() && model != Dso6022
      modifies command[SetTriggerCommand(model)], commandPending
      ensures TriggerSourceField() == value & 0x03
      ensures commandPending[..] == old(commandPending[..])[SetTriggerCommand(model) := true]
      ensures CommandBytes() == old(CommandBytes())[SetTriggerCommand(model) := command[SetTriggerCommand(model)][..]]
      ensures ControlItems() == old(ControlItems())
      ensures setRelays.State() == old(setRelays.State()) && setOffset.GetTrigger() == old(setOffset.GetTrigger())
    {
      var k := SetTriggerCommand(model);
      SlotApart(k);
      match model {
        case Dso2090 | Dso2150 => setTriggerAndSamplerate.SetTriggerSource(value);
        case Dso2250 => setTrigger2250.SetTriggerSource(value);
        case Dso5200 => setTrigger5200.SetTriggerSource(value);
      }
      commandPending[k] := true;
    }

    /** Switches the external trigger relay and marks it pending; no other slot changes. */
    method WriteTriggerRelay(ext: bool)
      requires TablesValid()
      modifies setRelays.data, controlPending
      ensures setRelays.State() == old(setRelays.State()).(triggerExt := ext)
      ensures controlPending[..] == old(controlPending[..])[CONTROLINDEX_SETRELAYS := true]
      ensures ControlItems() == old(ControlItems())[CONTROLINDEX_SETRELAYS := (controlCode[CONTROLINDEX_SETRELAYS], setRelays.data[..])]
      ensures CommandBytes() == old(CommandBytes())
    {
      SlotApart(CONTROL_BASE + CONTROLINDEX_SETRELAYS);
      setRelays.SetTrigger(ext);
      controlPending[CONTROLINDEX_SETRELAYS] := true;
    }

    /** Sets the trigger offset and marks it pending; no other slot changes. */
    method WriteTriggerOffset(level: bv16)
      requires TablesValid()
      modifies setOffset.data, controlPending
      ensures setOffset.GetTrigger() == level & 0x0fff
      ensures controlPending[..] == old(controlPending[..])[CONTROLINDEX_SETOFFSET := true]
      ensures ControlItems() == old(ControlItems())[CONTROLINDEX_SETOFFSET := (controlCode[CONTROLINDEX_SETOFFSET], setOffset.data[..])]
      ensures CommandBytes() == old(CommandBytes())
      ensures setRelays.State() == old(setRelays.State())
    {
      SlotApart(CONTROL_BASE + CONTROLINDEX_SETOFFSET);
      setOffset.SetTrigger(level);
      controlPending[CONTROLINDEX_SETOFFSET] := true;
    }

    /** The writes of setTriggerSource once the source is known to be valid:
      * the relay, for a special source the trigger offset, and the trigger
      * command, each marked pending. */
    method ApplyTriggerSource(special: bool, value: bv8)
      requires TablesValid() && model != Dso6022
      modifies command[SetTriggerCommand(model)], setRelays.data, setOffset.data, commandPending, controlPending
      ensures var k := SetTriggerCommand(model);
        0 <= k < BulkCode.COUNT && commandPending[..] == old(commandPending[..])[k := true] &&
        TriggerSourceField() == value & 0x03 && CommandBytes() == old(CommandBytes())[k := command[k][..]]
      ensures setRelays.State() == old(setRelays.State()).(triggerExt := special)
      ensures controlPending[CONTROLINDEX_SETRELAYS]
      ensures ControlItems()[CONTROLINDEX_SETRELAYS + 1..] == old(ControlItems()[CONTROLINDEX_SETRELAYS + 1..])
      ensures controlPending[CONTROLINDEX_SETRELAYS + 1..] == old(controlPending[CONTROLINDEX_SETRELAYS + 1..])
      ensures special ==> setOffset.GetTrigger() == 0x7f && controlPending[CONTROLINDEX_SETOFFSET]
    {
      WriteTriggerRelay(special);
      if special {
        WriteTriggerOffset(0x7f);
      }
      WriteTriggerSource(value);
    }

    /** setTriggerSource: writes the source code into the model's trigger
      * command, switches the external trigger relay, and for a special
      * source moves the trigger level to the middle (0x7f). */
    method SetTriggerSource(special: bool, id: nat) returns (r: ErrorCode)
      requires Valid()
      modifies this, commandPending, controlPending, command, control
      ensures Valid() && RollOf() == old(RollOf())
      ensures var v := TriggerSourceValue(special, id, SetTriggerCommand(model));
        r == if !device.IsConnected() then CONNECTION else if v.SourceError? then v.error else NONE
      ensures r != NONE ==>
        settings == old(settings) && commandPending[..] == old(commandPending[..]) &&
        controlPending[..] == old(controlPending[..]) && CommandBytes() == old(CommandBytes()) &&
        ControlItems() == old(ControlItems())
      ensures r == NONE ==> settings == old(settings).(triggerSpecial := special, triggerSource := id)
      ensures r == NONE ==> var k := SetTriggerCommand(model);
        0 <= k < BulkCode.COUNT && commandPending[..] == old(commandPending[..])[k := true] &&
        TriggerSourceField() == TriggerSourceValue(special, id, k).value & 0x03 &&
        CommandBytes() == old(CommandBytes())[k := command[k][..]]
      ensures r == NONE ==>
        setRelays.State() == old(setRelays.State()).(triggerExt := special) && controlPending[CONTROLINDEX_SETRELAYS] &&
        ControlItems()[CONTROLINDEX_SETRELAYS + 1..] == old(ControlItems()[CONTROLINDEX_SETRELAYS + 1..]) &&
        controlPending[CONTROLINDEX_SETRELAYS + 1..] == old(controlPending[CONTROLINDEX_SETRELAYS + 1..])
      ensures r == NONE && special ==> setOffset.GetTrigger() == 0x7f && controlPending[CONTROLINDEX_SETOFFSET]
    {
      if !device.IsConnected() {
        return CONNECTION;
      }
      var v := TriggerSourceValue(special, id, SetTriggerCommand(model));
      if v.SourceError? {
        return v.error;
      }
      ApplyTriggerSource(special, v.value);
      settings := settings.(triggerSpecial := special, triggerSource := id);
      r := NONE;
    }

    /** The bulk branch of stringCommand once hexParse has read the opcode, with
      * the opcode test corrected: an opcode is taken only when it indexes the
      * command tables and its command was created, and then that command is
      * marked pending. */
    method StringBulkCommand(code: bv8) returns (r: ErrorCode)
      requires Valid()
      modifies commandPending
      ensures Valid()
      ensures r == CONNECTION <==> !device.IsConnected()
      ensures r == UNSUPPORTED <==> device.IsConnected() && !BulkCreated(model, code as int)
      ensures r == NONE <==> device.IsConnected() && BulkCreated(model, code as int)
      ensures device.IsConnected() && code as int >= BulkCode.COUNT ==> r == UNSUPPORTED
      ensures r != NONE ==> commandPending[..] == old(commandPending[..])
      ensures r == NONE ==> code as int < BulkCode.COUNT && commandPending[..] == old(commandPending[..])[code as int := true]
    {
      if !device.IsConnected() {
        return CONNECTION;
      }
      if code as int >= BulkCode.COUNT || !BulkCreated(model, code as int) {
        return UNSUPPORTED;
      }
      commandPending[code as int] := true;
      r := NONE;
    }

    /** The samplerate limits of the fast-rate or the normal mode. */
    function LimitsFor(fastRate: bool): SamplerateLimits
    {
      if fastRate then multi else single
    }

    /** The DSO-2090 and DSO-2150 part of updateSamplerate: the samplerate id
      * or the downsampler value, never the fast-rate bit. */
    method WriteSamplerate2090(downsampling: bool, id: bv8, value: bv16)
      requires TablesValid() && (model == Dso2090 || model == Dso2150)
      modifies setTriggerAndSamplerate.data, commandPending
      ensures setTriggerAndSamplerate.GetDownsamplingMode() == downsampling
      ensures setTriggerAndSamplerate.GetSamplerateId() == id & 0x03
      ensures setTriggerAndSamplerate.GetDownsampler() == value
      ensures !setTriggerAndSamplerate.GetFastRate()
      ensures commandPending[..] == old(commandPending[..])[BulkCode.SETTRIGGERANDSAMPLERATE := true]
      ensures CommandBytes() == old(CommandBytes())[BulkCode.SETTRIGGERANDSAMPLERATE :=
                                                      setTriggerAndSamplerate.data[..]]
    {
      SlotApart(BulkCode.SETTRIGGERANDSAMPLERATE);
      setTriggerAndSamplerate.SetDownsamplingMode(downsampling);
      setTriggerAndSamplerate.SetSamplerateId(id);
      setTriggerAndSamplerate.SetDownsampler(value);
      setTriggerAndSamplerate.SetFastRate(false);
      commandPending[BulkCode.SETTRIGGERANDSAMPLERATE] := true;
    }

    /** The DSO-5200 part of updateSamplerate: both divider fields, and the
      * fast-rate bit of the trigger command. */
    method WriteSamplerate5200(fast: bv8, slow: bv16, fastRate: bool)
      requires TablesValid() && model == Dso5200
      modifies setSamplerate5200.data, setTrigger5200.data, commandPending
      ensures setSamplerate5200.GetSamplerateFast() == fast
      ensures setSamplerate5200.GetSamplerateSlow() == slow
      ensures setTrigger5200.GetFastRate() == fastRate
      ensures commandPending[..] == old(commandPending[..])[BulkCode.CSETTRIGGERORSAMPLERATE := true]
                                                           [BulkCode.ESETTRIGGERORSAMPLERATE := true]
      ensures CommandBytes() == old(CommandBytes())[BulkCode.CSETTRIGGERORSAMPLERATE := setSamplerate5200.data[..]]
                                                   [BulkCode.ESETTRIGGERORSAMPLERATE := setTrigger5200.data[..]]
    {
      SlotApart(BulkCode.CSETTRIGGERORSAMPLERATE);
      SlotApart(BulkCode.ESETTRIGGERORSAMPLERATE);
      setSamplerate5200.SetSamplerateFast(fast);
      setSamplerate5200.SetSamplerateSlow(slow);
      setTrigger5200.SetFastRate(fastRate);
      commandPending[BulkCode.CSETTRIGGERORSAMPLERATE] := true;
      commandPending[BulkCode.ESETTRIGGERORSAMPLERATE] := true;
    }

    /** The DSO-2250 part of updateSamplerate. */
    method WriteSamplerate2250(downsampling: bool, samplerate: bv16, fastRate: bool)
      requires TablesValid() && model == Dso2250
      modifies setSamplerate2250.data, commandPending
      ensures setSamplerate2250.GetDownsampling() == downsampling
      ensures setSamplerate2250.GetSamplerate() == samplerate
      ensures setSamplerate2250.GetFastRate() == fastRate
      ensures commandPending[..] == old(commandPending[..])[BulkCode.ESETTRIGGERORSAMPLERATE := true]
      ensures CommandBytes() == old(CommandBytes())[BulkCode.ESETTRIGGERORSAMPLERATE := setSamplerate2250.data[..]]
    {
      SlotApart(BulkCode.ESETTRIGGERORSAMPLERATE);
      setSamplerate2250.SetDownsampling(downsampling);
      setSamplerate2250.SetSamplerate(samplerate);
      setSamplerate2250.SetFastRate(fastRate);
      commandPending[BulkCode.ESETTRIGGERORSAMPLERATE] := true;
    }

    /** The writes of updateSamplerate into the model's samplerate command. */
    method WriteSamplerate(downsampler: uint32, fastRate: bool)
      requires TablesValid() && model != Dso6022
      modifies command, commandPending
      ensures model == Dso2090 || model == Dso2150 ==>
        var e := Encode2090(downsampler, LimitsFor(fastRate).baseAtLeastMax);
        var k := BulkCode.SETTRIGGERANDSAMPLERATE;
        setTriggerAndSamplerate.GetDownsamplingMode() == e.downsampling &&
        setTriggerAndSamplerate.GetSamplerateId() == e.samplerateId as bv8 &&
        setTriggerAndSamplerate.GetDownsampler() == e.value as bv16 && !setTriggerAndSamplerate.GetFastRate() &&
        commandPending[..] == old(commandPending[..])[k := true] &&
        CommandBytes() == old(CommandBytes())[k := command[k][..]]
      ensures model == Dso5200 ==>
        var e := Encode5200(downsampler);
        var c, k := BulkCode.CSETTRIGGERORSAMPLERATE, BulkCode.ESETTRIGGERORSAMPLERATE;
        setSamplerate5200.GetSamplerateFast() == e.fastField as bv8 &&
        setSamplerate5200.GetSamplerateSlow() == e.slowField as bv16 && setTrigger5200.GetFastRate() == fastRate &&
        commandPending[..] == old(commandPending[..])[c := true][k := true] &&
        CommandBytes() == old(CommandBytes())[c := command[c][..]][k := command[k][..]]
      ensures model == Dso2250 ==>
        var e := Encode2250(downsampler);
        var k := BulkCode.ESETTRIGGERORSAMPLERATE;
        setSamplerate2250.GetDownsampling() == e.downsampling &&
        setSamplerate2250.GetSamplerate() == e.samplerate as bv16 && setSamplerate2250.GetFastRate() == fastRate &&
        commandPending[..] == old(commandPending[..])[k := true] &&
        CommandBytes() == old(CommandBytes())[k := command[k][..]]
    {
      match model {
        case Dso2090 | Dso2150 =>
          var e := Encode2090(downsampler, LimitsFor(fastRate).baseAtLeastMax);
          var id := e.samplerateId as bv8;
          assert id & 0x03 == id;
          WriteSamplerate2090(e.downsampling, id, e.value as bv16);
        case Dso5200 =>
          var e := Encode5200(downsampler);
          WriteSamplerate5200(e.fastField as bv8, e.slowField as bv16, fastRate);
        case Dso2250 =>
          var e := Encode2250(downsampler);
          WriteSamplerate2250(e.downsampling, e.samplerate as bv16, fastRate);
      }
    }

    /** updateSamplerate: encodes the divider for the model's samplerate
      * command, marks it pending, and records the divider the device will
      * use and the samplerate mode; a model without a samplerate command
      * gives UINT_MAX and changes nothing. */
    method UpdateSamplerate(downsampler: uint32, fastRate: bool) returns (d: uint32)
      requires Valid()
      modifies this, commandPending, command
      ensures Valid() && RollOf() == old(RollOf())
      ensures model == Dso6022 ==>
        d == UINT_MAX && settings == old(settings) && commandPending[..] == old(commandPending[..]) &&
        CommandBytes() == old(CommandBytes())
      ensures model != Dso6022 ==> settings == old(settings).(downsampler := d, fastRate := fastRate)
      ensures d == match model
                   case Dso2090 | Dso2150 => Encode2090(downsampler, LimitsFor(fastRate).baseAtLeastMax).downsampler
                   case Dso2250 | Dso5200 => downsampler
                   case Dso6022 => UINT_MAX
      ensures model == Dso2090 || model == Dso2150 ==>
        var e := Encode2090(downsampler, LimitsFor(fastRate).baseAtLeastMax);
        var k := BulkCode.SETTRIGGERANDSAMPLERATE;
        setTriggerAndSamplerate.GetDownsamplingMode() == e.downsampling &&
        setTriggerAndSamplerate.GetSamplerateId() == e.samplerateId as bv8 &&
        setTriggerAndSamplerate.GetDownsampler() == e.value as bv16 && !setTriggerAndSamplerate.GetFastRate() &&
        commandPending[..] == old(commandPending[..])[k := true] &&
        CommandBytes() == old(CommandBytes())[k := command[k][..]]
      ensures model == Dso5200 ==>
        var e := Encode5200(downsampler);
        var c, k := BulkCode.CSETTRIGGERORSAMPLERATE, BulkCode.ESETTRIGGERORSAMPLERATE;
        setSamplerate5200.GetSamplerateFast() == e.fastField as bv8 &&
        setSamplerate5200.GetSamplerateSlow() == e.slowField as bv16 && setTrigger5200.GetFastRate() == fastRate &&
        commandPending[..] == old(commandPending[..])[c := true][k := true] &&
        CommandBytes() == old(CommandBytes())[c := command[c][..]][k := command[k][..]]
      ensures model == Dso2250 ==>
        var e := Encode2250(downsampler);
        var k := BulkCode.ESETTRIGGERORSAMPLERATE;
        setSamplerate2250.GetDownsampling() == e.downsampling &&
        setSamplerate2250.GetSamplerate() == e.samplerate as bv16 && setSamplerate2250.GetFastRate() == fastRate &&
        commandPending[..] == old(commandPending[..])[k := true] &&
        CommandBytes() == old(CommandBytes())[k := command[k][..]]
    {
      if model == Dso6022 {
        return UINT_MAX;
      }
      d := if model == Dso2090 || model == Dso2150
           then Encode2090(downsampler, LimitsFor(fastRate).baseAtLeastMax).downsampler
           else downsampler;
      settings := settings.(downsampler := d, fastRate := fastRate);
      WriteSamplerate(downsampler, fastRate);
    }

    /** The bulk half of run(): every pending bulk command goes out in index
      * order and loses its flag; the first failure ends the flush. */
    method FlushBulk() returns (stopped: bool)
      requires Valid()
      modifies device, device.host, commandPending
      ensures var f := FlushSpec(old(device.State()), BulkSend(device.host.speed, old(device.BeginCommand())),
                                 BulkStops(), old(CommandBytes()), old(commandPending[..]), 0);
        device.State() == f.transport && commandPending[..] == f.pending && stopped == f.stopped
      ensures device.BeginCommand() == old(device.BeginCommand()) && CommandBytes() == old(CommandBytes())
      ensures ControlItems() == old(ControlItems()) && controlPending[..] == old(controlPending[..])
    {
      ghost var t0, p0 := device.State(), commandPending[..];
      ghost var begin := device.BeginCommand();
      ghost var send, stops := BulkSend(device.host.speed, begin), BulkStops();
      ghost var items := CommandBytes();
      var i := 0;
      while i < BulkCode.COUNT
        invariant i <= BulkCode.COUNT && CommandBytes() == items && device.BeginCommand() == begin
        invariant FlushEnd(FlushSpec(device.State(), send, stops, items, commandPending[..], i)) ==
                  FlushEnd(FlushSpec(t0, send, stops, items, p0, 0))
      {
        if commandPending[i] {
          var r := SendBulk(i);
          if r < 0 {
            return true;
          }
          commandPending[i] := false;
        }
        i := i + 1;
      }
      return false;
    }

    /** The control half of run(): every pending control command goes out in
      * index order and loses its flag when it succeeds; only a vanished
      * device ends the flush. */
    method FlushControl() returns (stopped: bool)
      requires Valid()
      modifies device, device.host, controlPending
      ensures var f := FlushSpec(old(device.State()), ControlSend(), ControlStops(), old(ControlItems()),
                                 old(controlPending[..]), 0);
        device.State() == f.transport && controlPending[..] == f.pending && stopped == f.stopped
      ensures device.BeginCommand() == old(device.BeginCommand()) && CommandBytes() == old(CommandBytes())
      ensures ControlItems() == old(ControlItems()) && commandPending[..] == old(commandPending[..])
    {
      ghost var t0, p0 := device.State(), controlPending[..];
      ghost var send, stops := ControlSend(), ControlStops();
      ghost var items := ControlItems();
      var i := 0;
      while i < CONTROLINDEX_COUNT
        invariant i <= CONTROLINDEX_COUNT && ControlItems() == items
        invariant FlushEnd(FlushSpec(device.State(), send, stops, items, controlPending[..], i)) ==
                  FlushEnd(FlushSpec(t0, send, stops, items, p0, 0))
      {
        if controlPending[i] {
          var r := SendControl(i);
          if r == ERROR_NO_DEVICE {
            return true;
          }
          if r >= 0 {
            controlPending[i] := false;
          }
        }
        i := i + 1;
      }
      return false;
    }

    /** Sends bulk table slot `i` through the device; no table changes. */
    method SendBulk(i: nat) returns (r: int)
      requires Valid() && i < BulkCode.COUNT
      modifies device, device.host
      ensures (device.State(), r) == BulkSend(device.host.speed, old(device.BeginCommand()))(old(device.State()), old(CommandBytes())[i])
      ensures device.BeginCommand() == old(device.BeginCommand()) && CommandBytes() == old(CommandBytes())
      ensures ControlItems() == old(ControlItems()) && controlPending[..] == old(controlPending[..])
      ensures commandPending[..] == old(commandPending[..])
    {
      r := device.BulkCommand(command[i][..], UsbDefinitions.ATTEMPTS);
    }

    /** Sends control table slot `i` through the device; no table changes. */
    method SendControl(i: nat) returns (r: int)
      requires Valid() && i < CONTROLINDEX_COUNT
      modifies device, device.host
      ensures (device.State(), r) == ControlSend()(old(device.State()), old(ControlItems())[i])
      ensures device.BeginCommand() == old(device.BeginCommand()) && CommandBytes() == old(CommandBytes())
      ensures ControlItems() == old(ControlItems()) && controlPending[..] == old(controlPending[..])
      ensures commandPending[..] == old(commandPending[..])
    {
      r := device.ControlWrite(controlCode[i], control[i][..], 0, 0, UsbDefinitions.ATTEMPTS);
    }

    /** getSampleCount: the samples the device holds, from the packet size in roll mode. */
    method GetSampleCount() returns (count: SampleCount)
      requires Valid()
      modifies device, device.host
      ensures (device.State(), count) == SampleCountSpec(old(device.State()), old(CycleSetup()))
    {
      if IsRollMode() {
        var size := device.GetPacketSize();
        count := SampleCountOf(true, settings.fastRate, RecordLength(), size);
      } else {
        count := SampleCountOf(false, settings.fastRate, RecordLength(), UsbDevice.Size(0));
      }
    }

    /** getSamples: requests and reads the sample data; returns the sample
      * count to remember, the bytes received and whether getPacketSize threw. */
    method GetSamples(previous: uint32) returns (remembered: uint32, bytes: nat, threw: bool)
      requires Valid() && device.inPacketLength > 0
      modifies device, device.host
      ensures Fetched(device.State(), remembered, bytes, threw) ==
              GetSamplesSpec(old(device.State()), old(CycleSetup()), previous)
    {
      if !UseControlNoBulk(model) {
        var c := device.BulkCommand(command[BulkCode.GETDATA][..], 1);
        if c < 0 {
          return previous, 0, false;
        }
      }
      var count := GetSampleCount();
      match count {
        case SpeedFault =>
          return previous, 0, true;
        case Count(total) =>
          var b := SampleBookkeeping(total, previous, SampleSize(model));
          var r := device.BulkReadMulti(b.dataLength, UsbDefinitions.ATTEMPTS_MULTI);
          return b.previous, if r < 0 then 0 else r, false;
      }
    }

    /** startSampling: lets the roll-mode cycle start a capture. */
    method StartSampling()
      requires Valid()
      modifies this
      ensures Valid() && settings == old(settings) && RollOf() == old(RollOf()).(sampling := true)
    {
      sampling := true;
    }

    /** stopSampling: the roll-mode cycle starts no further capture. */
    method StopSampling()
      requires Valid()
      modifies this
      ensures Valid() && settings == old(settings) && RollOf() == old(RollOf()).(sampling := false)
    {
      sampling := false;
    }

    /** The STARTSAMPLING step: while sampling, note the expected sample count and start a capture. */
    method RollStartSampling() returns (o: Outcome)
      requires Valid() && device.inPacketLength > 0 && rollState == STARTSAMPLING
      modifies this, device, device.host
      ensures Valid() && settings == old(settings)
      ensures (device.State(), RollOf(), o) == RollStepSpec(old(device.State()), old(CycleSetup()), old(RollOf()))
    {
      if !sampling {
        return Rescheduled;
      }
      var count := GetSampleCount();
      match count {
        case SpeedFault =>
          return Thrown;
        case Count(total) =>
          o := StartCapture(total);
      }
    }

    /** The capture start of the STARTSAMPLING step. */
    method StartCapture(total: uint32) returns (o: Outcome)
      requires Valid() && rollState == STARTSAMPLING
      modifies this, device, device.host
      ensures Valid() && settings == old(settings)
      ensures (device.State(), RollOf(), o) == StartCaptureSpec(old(device.State()), old(CycleSetup()), old(RollOf()), total)
    {
      previousSampleCount := total;
      var c := device.BulkCommand(command[BulkCode.STARTSAMPLING][..], UsbDefinitions.ATTEMPTS);
      if c == ERROR_NO_DEVICE {
        return Returned;
      }
      if c >= 0 {
        samplingStarted := true;
      }
      rollState := NextRollState(rollState);
      o := Rescheduled;
    }

    /** The ENABLETRIGGER and FORCETRIGGER steps: send the state's command. */
    method RollTrigger() returns (o: Outcome)
      requires Valid() && device.inPacketLength > 0 && (rollState == ENABLETRIGGER || rollState == FORCETRIGGER)
      modifies this, device, device.host
      ensures Valid() && settings == old(settings)
      ensures (device.State(), RollOf(), o) == RollStepSpec(old(device.State()), old(CycleSetup()), old(RollOf()))
    {
      var code := if rollState == ENABLETRIGGER then BulkCode.ENABLETRIGGER else BulkCode.FORCETRIGGER;
      var c := device.BulkCommand(command[code][..], UsbDefinitions.ATTEMPTS);
      if c == ERROR_NO_DEVICE {
        return Returned;
      }
      rollState := NextRollState(rollState);
      o := Rescheduled;
    }

    /** The GETDATA step: fetch the samples, and stop after them in single-trigger mode. */
    method RollFetch() returns (o: Outcome)
      requires Valid() && device.inPacketLength > 0 && rollState == GETDATA
      modifies this, device, device.host
      ensures Valid() && settings == old(settings)
      ensures (device.State(), RollOf(), o) == RollStepSpec(old(device.State()), old(CycleSetup()), old(RollOf()))
    {
      var remembered, _, threw := GetSamples(previousSampleCount);
      if threw {
        return Thrown;
      }
      previousSampleCount := remembered;
      if settings.triggerMode == TRIGGERMODE_SINGLE && samplingStarted {
        StopSampling();
      }
      samplingStarted := false;
      rollState := NextRollState(rollState);
      o := Rescheduled;
    }

    /** One roll-mode step of run(). */
    method RollStep() returns (o: Outcome)
      requires Valid() && device.inPacketLength > 0
      modifies this, device, device.host
      ensures Valid() && settings == old(settings)
      ensures (device.State(), RollOf(), o) == RollStepSpec(old(device.State()), old(CycleSetup()), old(RollOf()))
    {
      if rollState == STARTSAMPLING {
        o := RollStartSampling();
      } else if rollState == ENABLETRIGGER || rollState == FORCETRIGGER {
        o := RollTrigger();
      } else {
        o := RollFetch();
      }
    }

    /** run(): one cycle of the control loop, up to the point where the
      * capture-state handling of the standard mode would begin. */
    method Run() returns (o: Outcome)
      requires Valid() && device.inPacketLength > 0
      modifies this, device, device.host, commandPending, controlPending
      ensures Valid() && settings == old(settings)
      ensures Cycle(device.State(), commandPending[..], controlPending[..], RollOf(), o) ==
              RunSpec(old(device.State()), old(CycleSetup()), old(ControlItems()), old(commandPending[..]),
                      old(controlPending[..]), old(RollOf()))
    {
      var stopped := FlushBulk();
      if stopped {
        return Returned;
      }
      ghost var before := device.State();
      stopped := FlushControl();
      if stopped {
        return Returned;
      }
      if IsRollMode() {
        ghost var s := old(CycleSetup());
        FlushKeepsInLen(old(device.State()), BulkSend(s.speed, s.begin), BulkStops(), s.commands,
                        old(commandPending[..]), 0);
        FlushKeepsInLen(before, ControlSend(), ControlStops(), old(ControlItems()), old(controlPending[..]), 0);
        o := RollStep();
      } else {
        rollState := STARTSAMPLING;
        o := Rescheduled;
      }
    }

    /** The fields the roll-mode step works on. */
    function RollOf(): Roll
      reads this
    {
      Roll(rollState, sampling, samplingStarted, previousSampleCount)
    }
  }
}

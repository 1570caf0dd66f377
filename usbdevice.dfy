// The USB transport of the oscilloscope: connecting to the device, the
// retrying bulk and control transfers, the chunked multi-packet read and the
// clean-up when the device disappears.
//
// Each method of `USBDevice` is tied to a function of the same name with
// `Spec` appended, over the `Transport` value: the libusb replies still to
// come, the record of libusb calls, the device references held, and the
// device's own fields. The properties the transport promises are stated on
// those functions and proved as lemmas about them.
module UsbDevice {
  import opened LibUsb
  import UsbDefinitions
  import ControlCode
  import ControlBegin

  /** The length of the CONTROL_GETSPEED answer; the answer's parser is not part of this model. */
  const SPEED_RESPONSE_LENGTH: nat := 10

  /** The bulk packet sizes of a full-speed and a high-speed connection (section 5.8.3 of the USB 2.0 specification). */
  const FULL_SPEED_PACKET_SIZE: int := 64
  const HIGH_SPEED_PACKET_SIZE: int := 512

  datatype Option<T> = None | Some(value: T)

  /** The state one transfer reads and changes: the host's pending replies,
    * its call record and device references, and the device's connection
    * handle (`open`), claimed interface, endpoint packet sizes, bulk-enable
    * flag and the number of `deviceDisconnected` signals emitted. */
  datatype Transport = Transport(script: seq<int>, log: seq<Call>, refs: int, open: bool, iface: int,
                                 outLen: int, inLen: int, allowBulk: bool, events: nat)

  /** What connectDevice reports besides its result. */
  datatype ConnectMessage = NoMessage | CouldNotOpen(code: int) | InterfaceError(code: int)

  /** getPacketSize's result: a size, or the exception it throws for an unknown speed. */
  datatype PacketSize = Size(bytes: int) | UnknownSpeed

  function Min(a: int, b: int): int
  {
    if a <= b then a else b
  }

  /** `n` copies of one call. */
  function Repeat(c: Call, n: nat): (calls: seq<Call>)
    ensures |calls| == n && forall i :: 0 <= i < n ==> calls[i] == c
  {
    if n == 0 then [] else Repeat(c, n - 1) + [c]
  }

  // ---------------------------------------------------------------------------
  // Retrying on timeout

  /** The number of calls a retry loop makes and the reply of its last call. */
  datatype Retried = Retried(calls: nat, reply: int)

  /** The loop `for (attempt = 0; (attempt < attempts || attempts == -1) &&
    * errorCode == TIMEOUT; ++attempt)`: it calls again only after a timeout,
    * at most `attempts` times, or without limit when `attempts` is -1. */
  function Retry(script: seq<int>, attempts: int): (r: Retried)
    decreases if attempts == -1 then |script| else if attempts > 0 then attempts else 0
    ensures r.calls == 0 <==> !(attempts > 0 || attempts == -1)
    ensures r.calls == 0 ==> r.reply == ERROR_TIMEOUT
    ensures attempts >= 0 ==> r.calls <= attempts
    ensures r.calls <= |script| + 1
    ensures r.calls > 0 ==> r.reply == ReplyAt(script, r.calls - 1)
    ensures forall i :: 0 <= i < r.calls - 1 ==> ReplyAt(script, i) == ERROR_TIMEOUT
    ensures r.reply == ERROR_TIMEOUT ==> attempts != -1 && r.calls == (if attempts > 0 then attempts else 0)
  {
    if !(attempts > 0 || attempts == -1) then
      Retried(0, ERROR_TIMEOUT)
    else if Reply(script) != ERROR_TIMEOUT then
      Retried(1, Reply(script))
    else
      var rest := Retry(Rest(script), if attempts == -1 then -1 else attempts - 1);
      ReplyAtRest(script);
      Retried(rest.calls + 1, rest.reply)
  }

  /** Call `i` of the replies after the first is call `i + 1` of all of them. */
  lemma ReplyAtRest(script: seq<int>)
    requires script != []
    ensures forall i :: 1 <= i ==> ReplyAt(script, i) == ReplyAt(Rest(script), i - 1)
  {
  }

  /** The calls and last reply of a retry loop are determined by the replies:
    * any count and reply that stop where the loop stops are Retry's. */
  lemma {:induction false} RetryUnique(script: seq<int>, attempts: int, n: nat, reply: int)
    requires n == 0 <==> !(attempts > 0 || attempts == -1)
    requires attempts >= 0 ==> n <= attempts
    requires n == 0 ==> reply == ERROR_TIMEOUT
    requires n > 0 ==> reply == ReplyAt(script, n - 1)
    requires forall i :: 0 <= i < n - 1 ==> ReplyAt(script, i) == ERROR_TIMEOUT
    requires reply == ERROR_TIMEOUT ==> attempts != -1 && n == (if attempts > 0 then attempts else 0)
    ensures Retry(script, attempts) == Retried(n, reply)
  {
  }

  /** Two timeouts and then a success take three calls out of three attempts;
    * a device that keeps timing out gets exactly three calls; zero attempts
    * make no call and report a timeout. */
  lemma RetryExamples()
    ensures Retry([ERROR_TIMEOUT, ERROR_TIMEOUT, 8], 3) == Retried(3, 8)
    ensures Retry([ERROR_TIMEOUT, ERROR_TIMEOUT, ERROR_TIMEOUT, ERROR_TIMEOUT], 3) == Retried(3, ERROR_TIMEOUT)
    ensures forall s :: Retry(s, 0) == Retried(0, ERROR_TIMEOUT)
    ensures Retry([ERROR_TIMEOUT, ERROR_TIMEOUT, ERROR_TIMEOUT, ERROR_NO_DEVICE], -1) == Retried(4, ERROR_NO_DEVICE)
  {
    RetryUnique([ERROR_TIMEOUT, ERROR_TIMEOUT, 8], 3, 3, 8);
    RetryUnique([ERROR_TIMEOUT, ERROR_TIMEOUT, ERROR_TIMEOUT, ERROR_TIMEOUT], 3, 3, ERROR_TIMEOUT);
    RetryUnique([ERROR_TIMEOUT, ERROR_TIMEOUT, ERROR_TIMEOUT, ERROR_NO_DEVICE], -1, 4, ERROR_NO_DEVICE);
  }

  // ---------------------------------------------------------------------------
  // The transfers as functions of the transport state

  /** A transfer's result for the last reply: the error, or the bytes moved. */
  function Outcome(reply: int, length: nat): (r: int)
    ensures r >= 0 ==> r <= length
    ensures r < 0 <==> reply < 0
  {
    if reply < 0 then reply else Moved(reply, length)
  }

  /** connectionLost: drops the device reference on every call; only with an
    * open handle does it release the interface, close the handle and emit
    * `deviceDisconnected`. */
  function LoseSpec(t: Transport): (u: Transport)
    ensures !u.open && u.refs == t.refs - 1 && u.script == t.script
    ensures u.events == t.events + (if t.open then 1 else 0)
    ensures u.iface == (if t.open then -1 else t.iface)
    ensures u.log == t.log + [UnrefDevice] + (if t.open then [ReleaseInterface(t.iface), Close] else [])
    ensures u.outLen == t.outLen && u.inLen == t.inLen && u.allowBulk == t.allowBulk
  {
    var t1 := t.(log := t.log + [UnrefDevice], refs := t.refs - 1);
    if !t.open then t1
    else t1.(log := t1.log + [ReleaseInterface(t.iface), Close], open := false, iface := -1, events := t.events + 1)
  }

  /** A second connectionLost emits nothing more, but drops one more reference. */
  lemma LoseTwice(t: Transport)
    ensures LoseSpec(LoseSpec(t)).events == t.events + (if t.open then 1 else 0)
    ensures LoseSpec(LoseSpec(t)).refs == t.refs - 2
  {
  }

  /** Runs the retry loop of one kind of transfer, recording `call` once per
    * attempt, and cleans up when the last reply says the device is gone. */
  function RetrySpec(t: Transport, call: Call, attempts: int): (res: (Transport, Retried))
    requires t.open
    ensures res.1 == Retry(t.script, attempts)
    ensures res.0.inLen == t.inLen && res.0.outLen == t.outLen && res.0.allowBulk == t.allowBulk
    ensures res.0.open == (res.1.reply != ERROR_NO_DEVICE)
  {
    var r := Retry(t.script, attempts);
    var t1 := t.(script := Drop(t.script, r.calls), log := t.log + Repeat(call, r.calls));
    (if r.reply == ERROR_NO_DEVICE then LoseSpec(t1) else t1, r)
  }

  /** bulkTransfer: NO_DEVICE without a handle; otherwise the error code of
    * the last attempt, or the number of bytes moved, at most `length`. */
  function BulkTransferSpec(t: Transport, endpoint: int, offset: nat, length: nat, attempts: int, timeout: int,
                            sent: seq<bv8>): (res: (Transport, int))
    ensures !t.open ==> res == (t, ERROR_NO_DEVICE)
    ensures res.1 >= 0 ==> res.1 <= length
    ensures res.1 != ERROR_TIMEOUT || attempts != -1
    ensures res.0.inLen == t.inLen && res.0.outLen == t.outLen && res.0.allowBulk == t.allowBulk
  {
    if !t.open then (t, ERROR_NO_DEVICE)
    else
      var (u, r) := RetrySpec(t, BulkTransfer(endpoint, offset, length, timeout, sent), attempts);
      (u, Outcome(r.reply, length))
  }

  /** controlTransfer: the same retry scheme with the fixed 500 ms timeout. */
  function ControlTransferSpec(t: Transport, requestType: int, request: bv8, sent: seq<bv8>, length: nat,
                               value: int, index: int, attempts: int): (res: (Transport, int))
    ensures !t.open ==> res == (t, ERROR_NO_DEVICE)
    ensures res.1 >= 0 ==> res.1 <= length
    ensures res.0.inLen == t.inLen && res.0.outLen == t.outLen && res.0.allowBulk == t.allowBulk
  {
    if !t.open then (t, ERROR_NO_DEVICE)
    else
      var call := ControlTransfer(requestType, request, value, index, length, UsbDefinitions.TIMEOUT, sent);
      var (u, r) := RetrySpec(t, call, attempts);
      (u, Outcome(r.reply, length))
  }

  /** controlWrite: a vendor request in the OUT direction carrying `sent`. */
  function ControlWriteSpec(t: Transport, request: bv8, sent: seq<bv8>, value: int, index: int, attempts: int)
    : (res: (Transport, int))
    ensures res.0.inLen == t.inLen && res.0.outLen == t.outLen && res.0.allowBulk == t.allowBulk
    ensures res.1 >= 0 ==> res.1 <= |sent|
  {
    if !t.open then (t, ERROR_NO_DEVICE)
    else ControlTransferSpec(t, REQUEST_TYPE_VENDOR + ENDPOINT_OUT, request, sent, |sent|, value, index, attempts)
  }

  /** controlRead: a vendor request in the IN direction for `length` bytes. */
  function ControlReadSpec(t: Transport, request: bv8, length: nat, value: int, index: int, attempts: int)
    : (res: (Transport, int))
    ensures res.0.inLen == t.inLen && res.0.outLen == t.outLen && res.0.allowBulk == t.allowBulk
  {
    if !t.open then (t, ERROR_NO_DEVICE)
    else ControlTransferSpec(t, REQUEST_TYPE_VENDOR + ENDPOINT_IN, request, [], length, value, index, attempts)
  }

  /** getConnectionSpeed: the error of the CONTROL_GETSPEED read, or the speed the device reports. */
  function ConnectionSpeedSpec(t: Transport, speed: int): (res: (Transport, int))
    ensures res.0.inLen == t.inLen && res.0.outLen == t.outLen && res.0.allowBulk == t.allowBulk
    ensures !t.open ==> res == (t, ERROR_NO_DEVICE)
  {
    var (u, c) := ControlReadSpec(t, ControlCode.GETSPEED, SPEED_RESPONSE_LENGTH, 0, 0, UsbDefinitions.ATTEMPTS);
    (u, if c < 0 then c else speed)
  }

  /** bulkWrite: the speed query, then the transfer to the OUT endpoint. */
  function BulkWriteSpec(t: Transport, speed: int, sent: seq<bv8>, attempts: int): (res: (Transport, int))
    ensures !t.open ==> res == (t, ERROR_NO_DEVICE)
    ensures t.open && ConnectionSpeedSpec(t, speed).1 < 0 ==> res == ConnectionSpeedSpec(t, speed)
    ensures res.1 >= 0 ==> res.1 <= |sent|
    ensures res.0.inLen == t.inLen && res.0.outLen == t.outLen && res.0.allowBulk == t.allowBulk
  {
    if !t.open then (t, ERROR_NO_DEVICE)
    else
      var (u, c) := ConnectionSpeedSpec(t, speed);
      if c < 0 then (u, c)
      else BulkTransferSpec(u, UsbDefinitions.EP_OUT, 0, |sent|, attempts, UsbDefinitions.TIMEOUT, sent)
  }

  /** bulkRead: the speed query, then the transfer from the IN endpoint. */
  function BulkReadSpec(t: Transport, speed: int, length: nat, attempts: int): (res: (Transport, int))
    ensures !t.open ==> res == (t, ERROR_NO_DEVICE)
    ensures t.open && ConnectionSpeedSpec(t, speed).1 < 0 ==> res == ConnectionSpeedSpec(t, speed)
    ensures res.1 >= 0 ==> res.1 <= length
    ensures res.0.inLen == t.inLen && res.0.outLen == t.outLen && res.0.allowBulk == t.allowBulk
  {
    if !t.open then (t, ERROR_NO_DEVICE)
    else
      var (u, c) := ConnectionSpeedSpec(t, speed);
      if c < 0 then (u, c)
      else BulkTransferSpec(u, UsbDefinitions.EP_IN, 0, length, attempts, UsbDefinitions.TIMEOUT, [])
  }

  /** bulkCommand: announces the command with CONTROL_BEGINCOMMAND, then writes it. */
  function BulkCommandSpec(t: Transport, speed: int, begin: seq<bv8>, command: seq<bv8>, attempts: int)
    : (res: (Transport, int))
    ensures !t.open ==> res == (t, ERROR_NO_DEVICE)
    ensures t.open && !t.allowBulk ==> res == (t, SUCCESS)
    ensures res.1 >= 0 ==> res.1 <= |command|
    ensures res.0.inLen == t.inLen && res.0.outLen == t.outLen && res.0.allowBulk == t.allowBulk
  {
    if !t.open then (t, ERROR_NO_DEVICE)
    else if !t.allowBulk then (t, SUCCESS)
    else
      var (u, c) := ControlWriteSpec(t, ControlCode.BEGINCOMMAND, begin, 0, 0, UsbDefinitions.ATTEMPTS);
      if c < 0 then (u, c)
      else BulkWriteSpec(u, speed, command, attempts)
  }

  /** The first call bulkCommand makes on an open, bulk-enabled device is the
    * begin-command control write; when that write fails the result is its
    * error and no bulk transfer is made. */
  lemma BulkCommandBeginsFirst(t: Transport, speed: int, begin: seq<bv8>, command: seq<bv8>, attempts: int)
    requires t.open && t.allowBulk
    ensures var res := BulkCommandSpec(t, speed, begin, command, attempts);
      |res.0.log| > |t.log| && res.0.log[..|t.log|] == t.log &&
      res.0.log[|t.log|] == ControlTransfer(REQUEST_TYPE_VENDOR + ENDPOINT_OUT, ControlCode.BEGINCOMMAND, 0, 0, |begin|,
                                            UsbDefinitions.TIMEOUT, begin)
    ensures var begun := ControlWriteSpec(t, ControlCode.BEGINCOMMAND, begin, 0, 0, UsbDefinitions.ATTEMPTS);
      var res := BulkCommandSpec(t, speed, begin, command, attempts);
      begun.1 < 0 ==> res.1 == begun.1 && forall i :: |t.log| <= i < |res.0.log| ==> !res.0.log[i].BulkTransfer?
  {
    var call := ControlTransfer(REQUEST_TYPE_VENDOR + ENDPOINT_OUT, ControlCode.BEGINCOMMAND, 0, 0, |begin|,
                                UsbDefinitions.TIMEOUT, begin);
    var r := Retry(t.script, UsbDefinitions.ATTEMPTS);
    var t1 := t.(script := Drop(t.script, r.calls), log := t.log + Repeat(call, r.calls));
    assert t1.log[|t.log|] == call;
    var (u, c) := ControlWriteSpec(t, ControlCode.BEGINCOMMAND, begin, 0, 0, UsbDefinitions.ATTEMPTS);
    assert u == (if r.reply == ERROR_NO_DEVICE then LoseSpec(t1) else t1);
    assert u.log[..|t1.log|] == t1.log;
    if c >= 0 {
      BulkWriteExtends(u, speed, command, attempts);
    }
  }

  /** A bulk write only appends to the call record. */
  lemma BulkWriteExtends(t: Transport, speed: int, sent: seq<bv8>, attempts: int)
    ensures var res := BulkWriteSpec(t, speed, sent, attempts);
      |res.0.log| >= |t.log| && res.0.log[..|t.log|] == t.log
  {
    if t.open {
      var (u, c) := ConnectionSpeedSpec(t, speed);
      assert |u.log| >= |t.log| && u.log[..|t.log|] == t.log;
      if c >= 0 {
        var (v, d) := BulkTransferSpec(u, UsbDefinitions.EP_OUT, 0, |sent|, attempts, UsbDefinitions.TIMEOUT, sent);
        assert |v.log| >= |u.log| && v.log[..|u.log|] == u.log;
        assert v.log[..|t.log|] == u.log[..|t.log|];
      }
    }
  }

  // ---------------------------------------------------------------------------
  // The multi-packet read

  /** The chunk loop of bulkReadMulti from chunk `packet` on, with `received`
    * bytes read so far and `code` the last chunk's result. Each chunk asks for
    * `min(length - received, inLen)` bytes at offset `packet * inLen`, which
    * is where the bytes received so far end; the loop goes on only while a
    * chunk returns exactly `inLen`. The result is the state, the bytes
    * received and the last code. */
  function ReadChunks(t: Transport, length: nat, attempts: int, received: nat, packet: nat, code: int)
    : (res: (Transport, nat, int))
    requires received <= length
    requires received < length && code == t.inLen ==> t.inLen > 0
    requires code == t.inLen ==> received == packet * t.inLen
    decreases length - received
    ensures received <= res.1 <= length
    ensures res.2 != t.inLen || res.1 == length
    ensures res.0.inLen == t.inLen && res.0.outLen == t.outLen && res.0.allowBulk == t.allowBulk
  {
    if !(received < length && code == t.inLen) then (t, received, code)
    else
      var (u, c) := BulkTransferSpec(t, UsbDefinitions.EP_IN, packet * t.inLen, Min(length - received, t.inLen),
                                     attempts, UsbDefinitions.TIMEOUT_MULTI, []);
      var now := if c > 0 then received + c else received;
      if c == t.inLen then ReadChunks(u, length, attempts, now, packet + 1, c)
      else (u, now, c)
  }

  lemma NextPacketOffset(packet: nat, size: int)
    ensures (packet + 1) * size == packet * size + size
  {
  }

  /** bulkReadMulti: after the speed query, reads `length` bytes in chunks of
    * at most `inLen`; the result is the number of bytes received if any,
    * otherwise the last code (inLen itself when nothing was asked for). */
  function ReadMultiSpec(t: Transport, speed: int, length: nat, attempts: int): (res: (Transport, int))
    requires length > 0 ==> t.inLen > 0
    ensures !t.open ==> res == (t, ERROR_NO_DEVICE)
    ensures t.open && ConnectionSpeedSpec(t, speed).1 < 0 ==> res == ConnectionSpeedSpec(t, speed)
    ensures length > 0 && res.1 > 0 ==> res.1 <= length
    ensures t.open && ConnectionSpeedSpec(t, speed).1 >= 0 && length == 0 ==> res.1 == t.inLen
    ensures res.0.inLen == t.inLen && res.0.outLen == t.outLen && res.0.allowBulk == t.allowBulk
  {
    if !t.open then (t, ERROR_NO_DEVICE)
    else
      var (u, c) := ConnectionSpeedSpec(t, speed);
      if c < 0 then (u, c)
      else
        var (v, received, code) := ReadChunks(u, length, attempts, 0, 0, u.inLen);
        (v, if received > 0 then received else code)
  }

  /** 1300 bytes over 512-byte packets, each chunk read at the first attempt:
    * three chunks of 512, 512 and 276 bytes at offsets 0, 512 and 1024. */
  lemma ReadMultiExample(t: Transport)
    requires t.open && t.inLen == 512
    requires t.script == [1, 512, 512, 276]
    ensures var res := ReadMultiSpec(t, UsbDefinitions.CONNECTION_HIGHSPEED, 1300, UsbDefinitions.ATTEMPTS_MULTI);
      res.1 == 1300 && res.0.script == [] &&
      res.0.log == t.log + [ControlTransfer(REQUEST_TYPE_VENDOR + ENDPOINT_IN, ControlCode.GETSPEED, 0, 0,
                                            SPEED_RESPONSE_LENGTH, UsbDefinitions.TIMEOUT, []),
                            BulkTransfer(UsbDefinitions.EP_IN, 0, 512, UsbDefinitions.TIMEOUT_MULTI, []),
                            BulkTransfer(UsbDefinitions.EP_IN, 512, 512, UsbDefinitions.TIMEOUT_MULTI, []),
                            BulkTransfer(UsbDefinitions.EP_IN, 1024, 276, UsbDefinitions.TIMEOUT_MULTI, [])]
  {
    RetryUnique([1, 512, 512, 276], UsbDefinitions.ATTEMPTS, 1, 1);
    RetryUnique([512, 512, 276], UsbDefinitions.ATTEMPTS_MULTI, 1, 512);
    RetryUnique([512, 276], UsbDefinitions.ATTEMPTS_MULTI, 1, 512);
    RetryUnique([276], UsbDefinitions.ATTEMPTS_MULTI, 1, 276);
  }

  /** getPacketSize's map from the reported speed to a bulk packet size. */
  function PacketSizeOf(speed: int): (size: PacketSize)
    ensures size == Size(FULL_SPEED_PACKET_SIZE) <==> speed == UsbDefinitions.CONNECTION_FULLSPEED
    ensures size == Size(HIGH_SPEED_PACKET_SIZE) <==> speed == UsbDefinitions.CONNECTION_HIGHSPEED
    ensures size == UnknownSpeed <==> speed > UsbDefinitions.CONNECTION_HIGHSPEED
    ensures size == Size(-1) <==> speed < 0
  {
    if speed == UsbDefinitions.CONNECTION_FULLSPEED then Size(FULL_SPEED_PACKET_SIZE)
    else if speed == UsbDefinitions.CONNECTION_HIGHSPEED then Size(HIGH_SPEED_PACKET_SIZE)
    else if speed > UsbDefinitions.CONNECTION_HIGHSPEED then UnknownSpeed
    else Size(-1)
  }

  /** getPacketSize: asks for the speed and maps it; a failed query gives -1. */
  function PacketSizeSpec(t: Transport, speed: int): (res: (Transport, PacketSize))
    ensures res.0 == ConnectionSpeedSpec(t, speed).0
    ensures ConnectionSpeedSpec(t, speed).1 < 0 ==> res.1 == Size(-1)
  {
    var (u, s) := ConnectionSpeedSpec(t, speed);
    (u, PacketSizeOf(s))
  }

  // ---------------------------------------------------------------------------
  // Connecting

  /** An interface the oscilloscope is driven through: vendor-specific class,
    * subclass 0, protocol 0 and exactly two endpoints. */
  predicate IsScopeInterface(d: InterfaceDescriptor)
  {
    d.interfaceClass == CLASS_VENDOR_SPEC && d.subClass == 0 && d.protocol == 0 && |d.endpoints| == 2
  }

  /** An interface whose first alternate setting is a scope interface. */
  predicate Eligible(i: Interface)
  {
    |i.altsettings| >= 1 && IsScopeInterface(i.altsettings[0])
  }

  /** The first eligible interface of a configuration. */
  function FirstEligible(config: seq<Interface>): (r: Option<nat>)
    ensures r == None <==> forall k :: 0 <= k < |config| ==> !Eligible(config[k])
    ensures r.Some? ==> r.value < |config| && Eligible(config[r.value])
    ensures r.Some? ==> forall k :: 0 <= k < r.value ==> !Eligible(config[k])
  {
    if config == [] then None
    else if Eligible(config[0]) then Some(0)
    else match FirstEligible(config[1..]) {
      case None => None
      case Some(j) => Some(j + 1)
    }
  }

  /** The max packet size of the last endpoint with the given address, 0 if there is none. */
  function LastPacketSize(endpoints: seq<EndpointDescriptor>, address: int): (size: int)
    ensures (forall k :: 0 <= k < |endpoints| ==> endpoints[k].address != address) ==> size == 0
    ensures (exists k :: 0 <= k < |endpoints| && endpoints[k].address == address) ==>
      exists k :: 0 <= k < |endpoints| && endpoints[k].address == address && endpoints[k].maxPacketSize == size &&
        forall j :: k < j < |endpoints| ==> endpoints[j].address != address
  {
    if endpoints == [] then 0
    else if endpoints[|endpoints| - 1].address == address then endpoints[|endpoints| - 1].maxPacketSize
    else
      var init := endpoints[..|endpoints| - 1];
      assert forall k :: 0 <= k < |init| ==> init[k] == endpoints[k];
      LastPacketSize(init, address)
  }

  /** claimInterface: claims the interface and records the packet sizes of the
    * two endpoints (the IN size stays 0 when both addresses coincide). */
  function ClaimSpec(t: Transport, d: InterfaceDescriptor, endpointOut: int, endpointIn: int)
    : (res: (Transport, int))
    ensures res.1 == (if Reply(t.script) < 0 then Reply(t.script) else SUCCESS)
    ensures res.0.script == Rest(t.script) && res.0.log == t.log + [ClaimInterface(d.number)]
    ensures res.1 == SUCCESS ==>
      (res.0.iface == d.number && res.0.outLen == LastPacketSize(d.endpoints, endpointOut) &&
       res.0.inLen == (if endpointIn == endpointOut then 0 else LastPacketSize(d.endpoints, endpointIn)))
    ensures res.1 != SUCCESS ==> res.0 == t.(script := Rest(t.script), log := t.log + [ClaimInterface(d.number)])
  {
    var c := Reply(t.script);
    var t1 := t.(script := Rest(t.script), log := t.log + [ClaimInterface(d.number)]);
    if c < 0 then (t1, c)
    else
      (t1.(iface := d.number, outLen := LastPacketSize(d.endpoints, endpointOut),
           inLen := if endpointIn == endpointOut then 0 else LastPacketSize(d.endpoints, endpointIn)), SUCCESS)
  }

  /** connectDevice: refuses a device that still needs its firmware, accepts an
    * open one as is, otherwise opens it and claims the first eligible
    * interface. The handle stays open when no interface could be claimed. */
  function ConnectSpec(t: Transport, needsFirmware: bool, config: seq<Interface>)
    : (res: (Transport, bool, ConnectMessage))
    ensures res.1 ==> !needsFirmware && res.0.open && res.2 == NoMessage
    ensures !res.1 && !needsFirmware ==> res.2 != NoMessage
    ensures res.0.open <==> t.open || (!needsFirmware && Reply(t.script) == SUCCESS)
    ensures t.open || needsFirmware ==> res.0 == t
    ensures |t.log| <= |res.0.log| && res.0.log[..|t.log|] == t.log
    ensures res.0.refs == t.refs && res.0.events == t.events
  {
    if needsFirmware then (t, false, NoMessage)
    else if t.open then (t, true, NoMessage)
    else
      var c := Reply(t.script);
      var t1 := t.(script := Rest(t.script), log := t.log + [Open]);
      if c != SUCCESS then (t1, false, CouldNotOpen(c))
      else
        var t2 := t1.(open := true, log := t1.log + [GetConfigDescriptor]);
        var (t3, code) := match FirstEligible(config) {
          case None => (t2, ERROR_NOT_FOUND)
          case Some(j) => ClaimSpec(t2, config[j].altsettings[0], UsbDefinitions.EP_OUT, UsbDefinitions.EP_IN)
        };
        var t4 := t3.(log := t3.log + [FreeConfigDescriptor]);
        if code != SUCCESS then (t4, false, InterfaceError(code)) else (t4, true, NoMessage)
  }

  /** A device whose identifiers differ from the model's is refused without any
    * libusb call; a connected device is accepted without any. */
  lemma ConnectWithoutCalls(t: Transport, needsFirmware: bool, config: seq<Interface>)
    requires needsFirmware || t.open
    ensures ConnectSpec(t, needsFirmware, config) == (t, !needsFirmware, NoMessage)
  {
  }

  /** When the device opens and no interface is eligible, connectDevice fails
    * with NOT_FOUND; since the handle stays open, the next call succeeds. */
  lemma ConnectNoInterface(t: Transport, config: seq<Interface>)
    requires !t.open && Reply(t.script) == SUCCESS
    requires forall k :: 0 <= k < |config| ==> !Eligible(config[k])
    ensures var res := ConnectSpec(t, false, config);
      res.1 == false && res.2 == InterfaceError(ERROR_NOT_FOUND) && res.0.open &&
      res.0.log == t.log + [Open, GetConfigDescriptor, FreeConfigDescriptor] &&
      ConnectSpec(res.0, false, config) == (res.0, true, NoMessage)
  {
    assert FirstEligible(config) == None;
  }

  /** With an eligible interface, connectDevice claims exactly that first one. */
  lemma ConnectClaimsFirst(t: Transport, config: seq<Interface>, j: nat)
    requires !t.open && Reply(t.script) == SUCCESS
    requires j < |config| && Eligible(config[j]) && forall k :: 0 <= k < j ==> !Eligible(config[k])
    ensures var res := ConnectSpec(t, false, config);
      var claim := Reply(Rest(t.script));
      res.0.log == t.log + [Open, GetConfigDescriptor, ClaimInterface(config[j].altsettings[0].number),
                            FreeConfigDescriptor] &&
      res.1 == (claim >= 0) && res.0.open &&
      (claim >= 0 ==> res.0.iface == config[j].altsettings[0].number)
  {
    var f := FirstEligible(config);
    assert f.Some?;
    if f.value < j {
    } else if f.value > j {
    }
  }

  // ---------------------------------------------------------------------------
  // The device

  class USBDevice {
    const host: Host
    /** The identifiers the model expects, and those the device reports. */
    const modelVendorId: int
    const modelProductId: int
    const descriptor: DeviceDescriptor
    /** The device's first configuration descriptor. */
    const config: seq<Interface>
    const beginCommandControl: ControlBegin.ControlBeginCommand

    var handleOpen: bool
    var interface: int
    var outPacketLength: int
    var inPacketLength: int
    var allowBulkTransfer: bool
    ghost var disconnectEvents: nat

    ghost function State(): Transport
      reads this, host
    {
      Transport(host.script, host.log, host.refs, handleOpen, interface, outPacketLength, inPacketLength,
                allowBulkTransfer, disconnectEvents)
    }

    /** The bytes of the begin-command announcement. */
    ghost function BeginCommand(): seq<bv8>
      reads beginCommandControl.data
    {
      beginCommandControl.data[..]
    }

    /** Takes a reference on the device; the handle is closed and bulk transfers
      * are enabled. The interface and packet sizes are not initialized in the
      * source; here they are -1, 0 and 0. */
    constructor (modelVendorId: int, modelProductId: int, descriptor: DeviceDescriptor, config: seq<Interface>,
                 host: Host)
      modifies host
      ensures this.host == host && this.config == config && this.descriptor == descriptor
      ensures this.modelVendorId == modelVendorId && this.modelProductId == modelProductId
      ensures State() == Transport(old(host.script), old(host.log) + [RefDevice], old(host.refs) + 1,
                                   false, -1, 0, 0, true, 0)
      ensures fresh(beginCommandControl) && fresh(beginCommandControl.data)
      ensures |BeginCommand()| == ControlBegin.LENGTH && BeginCommand()[..2] == [0x0f, UsbDefinitions.COMMANDINDEX_0]
    {
      this.host := host;
      this.modelVendorId := modelVendorId;
      this.modelProductId := modelProductId;
      this.descriptor := descriptor;
      this.config := config;
      beginCommandControl := new ControlBegin.ControlBeginCommand.Default();
      handleOpen := false;
      interface := -1;
      outPacketLength := 0;
      inPacketLength := 0;
      allowBulkTransfer := true;
      disconnectEvents := 0;
      new;
      host.Notify(RefDevice);
    }

    /** The device still runs the loader firmware when its identifiers differ from the model's. */
    function NeedsFirmware(): bool
      reads this
    {
      descriptor.idProduct != modelProductId || descriptor.idVendor != modelVendorId
    }

    function IsConnected(): bool
      reads this
    {
      handleOpen
    }

    method ConnectDevice() returns (ok: bool, message: ConnectMessage)
      modifies this, host
      ensures (State(), ok, message) == ConnectSpec(old(State()), NeedsFirmware(), config)
    {
      if NeedsFirmware() {
        return false, NoMessage;
      }
      if IsConnected() {
        return true, NoMessage;
      }
      var code := host.Next(Open);
      if code != SUCCESS {
        handleOpen := false;
        return false, CouldNotOpen(code);
      }
      handleOpen := true;
      code := ERROR_NOT_FOUND;
      host.Notify(GetConfigDescriptor);
      ghost var t2 := State();
      var i := 0;
      ghost var claimed := false;
      while i < |config|
        invariant 0 <= i <= |config|
        invariant forall k :: 0 <= k < i ==> !Eligible(config[k])
        invariant State() == t2 && code == ERROR_NOT_FOUND
      {
        if |config[i].altsettings| >= 1 {
          var d := config[i].altsettings[0];
          if IsScopeInterface(d) {
            code := ClaimInterface(d, UsbDefinitions.EP_OUT, UsbDefinitions.EP_IN);
            claimed := true;
            break;
          }
        }
        i := i + 1;
      }
      assert claimed ==> FirstEligible(config) == Some(i);
      assert !claimed ==> FirstEligible(config) == None;
      host.Notify(FreeConfigDescriptor);
      if code != SUCCESS {
        return false, InterfaceError(code);
      }
      return true, NoMessage;
    }

    method ClaimInterface(d: InterfaceDescriptor, endpointOut: int, endpointIn: int) returns (code: int)
      modifies this, host
      ensures (State(), code) == ClaimSpec(old(State()), d, endpointOut, endpointIn)
    {
      code := host.Next(LibUsb.ClaimInterface(d.number));
      if code < 0 {
        return;
      }
      interface := d.number;
      outPacketLength := 0;
      inPacketLength := 0;
      ghost var t1 := State();
      var e := 0;
      while e < |d.endpoints|
        invariant 0 <= e <= |d.endpoints|
        invariant State() == t1.(outLen := LastPacketSize(d.endpoints[..e], endpointOut),
                                 inLen := if endpointIn == endpointOut then 0
                                          else LastPacketSize(d.endpoints[..e], endpointIn))
      {
        assert d.endpoints[..e + 1][..e] == d.endpoints[..e];
        if d.endpoints[e].address == endpointOut {
          outPacketLength := d.endpoints[e].maxPacketSize;
        } else if d.endpoints[e].address == endpointIn {
          inPacketLength := d.endpoints[e].maxPacketSize;
        }
        e := e + 1;
      }
      assert d.endpoints[..e] == d.endpoints;
      code := SUCCESS;
    }

    method ConnectionLost()
      modifies this, host
      ensures State() == LoseSpec(old(State()))
    {
      host.Notify(UnrefDevice);
      if !handleOpen {
        return;
      }
      host.Notify(ReleaseInterface(interface));
      interface := -1;
      host.Notify(Close);
      handleOpen := false;
      disconnectEvents := disconnectEvents + 1;
    }

    method BulkTransfer(endpoint: int, offset: nat, length: nat, attempts: int, timeout: int, sent: seq<bv8>)
      returns (r: int)
      modifies this, host
      ensures (State(), r) == BulkTransferSpec(old(State()), endpoint, offset, length, attempts, timeout, sent)
    {
      if !handleOpen {
        return ERROR_NO_DEVICE;
      }
      var errorCode, transferred := RetryBulk(endpoint, offset, length, attempts, timeout, sent);
      if errorCode == ERROR_NO_DEVICE {
        ConnectionLost();
      }
      if errorCode < 0 {
        return errorCode;
      }
      return transferred;
    }

    /** The retry loop of bulkTransfer: one libusb call per attempt while the
      * reply is a timeout; the error code and byte count of the last attempt. */
    method RetryBulk(endpoint: int, offset: nat, length: nat, attempts: int, timeout: int, sent: seq<bv8>)
      returns (errorCode: int, transferred: nat)
      modifies host
      ensures var r := Retry(old(host.script), attempts);
        host.script == Drop(old(host.script), r.calls) && host.refs == old(host.refs) &&
        host.log == old(host.log) + Repeat(LibUsb.BulkTransfer(endpoint, offset, length, timeout, sent), r.calls) &&
        (if errorCode < 0 then errorCode else transferred) == Outcome(r.reply, length) &&
        (errorCode == ERROR_NO_DEVICE <==> r.reply == ERROR_NO_DEVICE)
    {
      ghost var script := host.script;
      ghost var log := host.log;
      ghost var call := LibUsb.BulkTransfer(endpoint, offset, length, timeout, sent);
      errorCode := ERROR_TIMEOUT;
      transferred := 0;
      var attempt: nat := 0;
      while (attempt < attempts || attempts == -1) && errorCode == ERROR_TIMEOUT
        invariant attempt <= |script| + 1
        invariant host.script == Drop(script, attempt) && host.log == log + Repeat(call, attempt)
        invariant host.refs == old(host.refs)
        invariant attempts >= 0 ==> attempt <= attempts
        invariant !(attempts > 0 || attempts == -1) ==> attempt == 0
        invariant attempt == 0 ==> errorCode == ERROR_TIMEOUT
        invariant attempt > 0 ==> var reply := ReplyAt(script, attempt - 1);
          errorCode == (if reply < 0 then reply else SUCCESS) &&
          (reply >= 0 ==> transferred == Moved(reply, length))
        invariant forall i :: 0 <= i < attempt - 1 ==> ReplyAt(script, i) == ERROR_TIMEOUT
        decreases (if attempts == -1 then |host.script| + 1 else attempts - attempt),
                  (if errorCode == ERROR_TIMEOUT then 1 else 0)
      {
        assert Reply(Drop(script, attempt)) == ReplyAt(script, attempt);
        assert Rest(Drop(script, attempt)) == Drop(script, attempt + 1);
        errorCode, transferred := host.Bulk(endpoint, offset, length, timeout, sent);
        attempt := attempt + 1;
      }
      RetryUnique(script, attempts, attempt, if attempt == 0 then ERROR_TIMEOUT else ReplyAt(script, attempt - 1));
    }

    method ControlTransfer(requestType: int, request: bv8, sent: seq<bv8>, length: nat, value: int, index: int,
                           attempts: int) returns (r: int)
      modifies this, host
      ensures (State(), r) == ControlTransferSpec(old(State()), requestType, request, sent, length, value, index, attempts)
    {
      if !handleOpen {
        return ERROR_NO_DEVICE;
      }
      var errorCode := RetryControl(requestType, request, sent, length, value, index, attempts);
      if errorCode == ERROR_NO_DEVICE {
        ConnectionLost();
      }
      return errorCode;
    }

    /** The retry loop of controlTransfer: one libusb call per attempt while
      * the reply is a timeout; the result of the last attempt. */
    method RetryControl(requestType: int, request: bv8, sent: seq<bv8>, length: nat, value: int, index: int,
                        attempts: int) returns (errorCode: int)
      modifies host
      ensures var r := Retry(old(host.script), attempts);
        var call := LibUsb.ControlTransfer(requestType, request, value, index, length, UsbDefinitions.TIMEOUT, sent);
        host.script == Drop(old(host.script), r.calls) && host.refs == old(host.refs) &&
        host.log == old(host.log) + Repeat(call, r.calls) && errorCode == Outcome(r.reply, length)
    {
      ghost var script := host.script;
      ghost var log := host.log;
      ghost var call := LibUsb.ControlTransfer(requestType, request, value, index, length, UsbDefinitions.TIMEOUT, sent);
      errorCode := ERROR_TIMEOUT;
      var attempt: nat := 0;
      while (attempt < attempts || attempts == -1) && errorCode == ERROR_TIMEOUT
        invariant attempt <= |script| + 1
        invariant host.script == Drop(script, attempt) && host.log == log + Repeat(call, attempt)
        invariant host.refs == old(host.refs)
        invariant attempts >= 0 ==> attempt <= attempts
        invariant !(attempts > 0 || attempts == -1) ==> attempt == 0
        invariant attempt == 0 ==> errorCode == ERROR_TIMEOUT
        invariant attempt > 0 ==> errorCode == Outcome(ReplyAt(script, attempt - 1), length)
        invariant forall i :: 0 <= i < attempt - 1 ==> ReplyAt(script, i) == ERROR_TIMEOUT
        decreases (if attempts == -1 then |host.script| + 1 else attempts - attempt),
                  (if errorCode == ERROR_TIMEOUT then 1 else 0)
      {
        assert Reply(Drop(script, attempt)) == ReplyAt(script, attempt);
        assert Rest(Drop(script, attempt)) == Drop(script, attempt + 1);
        errorCode := host.Control(requestType, request, value, index, length, UsbDefinitions.TIMEOUT, sent);
        attempt := attempt + 1;
      }
      RetryUnique(script, attempts, attempt, if attempt == 0 then ERROR_TIMEOUT else ReplyAt(script, attempt - 1));
    }

    method ControlWrite(request: bv8, sent: seq<bv8>, value: int, index: int, attempts: int) returns (r: int)
      modifies this, host
      ensures (State(), r) == ControlWriteSpec(old(State()), request, sent, value, index, attempts)
    {
      if !handleOpen {
        return ERROR_NO_DEVICE;
      }
      r := ControlTransfer(REQUEST_TYPE_VENDOR + ENDPOINT_OUT, request, sent, |sent|, value, index, attempts);
    }

    method ControlRead(request: bv8, length: nat, value: int, index: int, attempts: int) returns (r: int)
      modifies this, host
      ensures (State(), r) == ControlReadSpec(old(State()), request, length, value, index, attempts)
    {
      if !handleOpen {
        return ERROR_NO_DEVICE;
      }
      r := ControlTransfer(REQUEST_TYPE_VENDOR + ENDPOINT_IN, request, [], length, value, index, attempts);
    }

    method GetConnectionSpeed() returns (r: int)
      modifies this, host
      ensures (State(), r) == ConnectionSpeedSpec(old(State()), host.speed)
    {
      r := ControlRead(ControlCode.GETSPEED, SPEED_RESPONSE_LENGTH, 0, 0, UsbDefinitions.ATTEMPTS);
      if r >= 0 {
        r := host.speed;
      }
    }

    method GetPacketSize() returns (size: PacketSize)
      modifies this, host
      ensures (State(), size) == PacketSizeSpec(old(State()), host.speed)
    {
      var s := GetConnectionSpeed();
      if s == UsbDefinitions.CONNECTION_FULLSPEED {
        return Size(FULL_SPEED_PACKET_SIZE);
      } else if s == UsbDefinitions.CONNECTION_HIGHSPEED {
        return Size(HIGH_SPEED_PACKET_SIZE);
      } else if s > UsbDefinitions.CONNECTION_HIGHSPEED {
        return UnknownSpeed;
      }
      return Size(-1);
    }

    method BulkWrite(sent: seq<bv8>, attempts: int) returns (r: int)
      modifies this, host
      ensures (State(), r) == BulkWriteSpec(old(State()), host.speed, sent, attempts)
    {
      if !handleOpen {
        return ERROR_NO_DEVICE;
      }
      r := GetConnectionSpeed();
      if r < 0 {
        return;
      }
      r := BulkTransfer(UsbDefinitions.EP_OUT, 0, |sent|, attempts, UsbDefinitions.TIMEOUT, sent);
    }

    method BulkRead(length: nat, attempts: int) returns (r: int)
      modifies this, host
      ensures (State(), r) == BulkReadSpec(old(State()), host.speed, length, attempts)
    {
      if !handleOpen {
        return ERROR_NO_DEVICE;
      }
      r := GetConnectionSpeed();
      if r < 0 {
        return;
      }
      r := BulkTransfer(UsbDefinitions.EP_IN, 0, length, attempts, UsbDefinitions.TIMEOUT, []);
    }

    method BulkCommand(command: seq<bv8>, attempts: int) returns (r: int)
      modifies this, host
      ensures (State(), r) == BulkCommandSpec(old(State()), host.speed, BeginCommand(), command, attempts)
    {
      if !handleOpen {
        return ERROR_NO_DEVICE;
      }
      if !allowBulkTransfer {
        return SUCCESS;
      }
      r := ControlWrite(ControlCode.BEGINCOMMAND, beginCommandControl.data[..], 0, 0, UsbDefinitions.ATTEMPTS);
      if r < 0 {
        return;
      }
      r := BulkWrite(command, attempts);
    }

    method BulkReadMulti(length: nat, attempts: int) returns (r: int)
      requires length > 0 ==> inPacketLength > 0
      modifies this, host
      ensures (State(), r) == ReadMultiSpec(old(State()), host.speed, length, attempts)
    {
      if !handleOpen {
        return ERROR_NO_DEVICE;
      }
      var code := GetConnectionSpeed();
      if code < 0 {
        return code;
      }
      ghost var t1 := State();
      code := inPacketLength;
      var packet: nat := 0;
      var received: nat := 0;
      while received < length && code == inPacketLength
        invariant inPacketLength == t1.inLen
        invariant received <= length && (code == inPacketLength ==> received == packet * inPacketLength)
        invariant ReadChunks(State(), length, attempts, received, packet, code) == ReadChunks(t1, length, attempts, 0, 0, t1.inLen)
        decreases length - received, if code == inPacketLength then 1 else 0
      {
        received, packet, code := ReadChunk(length, attempts, received, packet);
      }
      r := if received > 0 then received else code;
    }

    /** One round of bulkReadMulti: the transfer of the next packet. */
    method ReadChunk(length: nat, attempts: int, received: nat, packet: nat)
      returns (received': nat, packet': nat, code: int)
      requires received < length && inPacketLength > 0 && received == packet * inPacketLength
      modifies this, host
      ensures inPacketLength == old(inPacketLength) && packet' == packet + 1
      ensures received' == (if code > 0 then received + code else received) && received' <= length
      ensures code == inPacketLength ==> received' == packet' * inPacketLength
      ensures ReadChunks(old(State()), length, attempts, received, packet, old(inPacketLength)) ==
              ReadChunks(State(), length, attempts, received', packet', code)
    {
      code := BulkTransfer(UsbDefinitions.EP_IN, packet * inPacketLength, Min(length - received, inPacketLength),
                           attempts, UsbDefinitions.TIMEOUT_MULTI, []);
      received' := if code > 0 then received + code else received;
      packet' := packet + 1;
      NextPacketOffset(packet, inPacketLength);
    }

    method SetEnableBulkTransfer(enable: bool)
      modifies this
      ensures State() == old(State()).(allowBulk := enable)
    {
      allowBulkTransfer := enable;
    }

    method OverwriteInPacketLength(length: int)
      modifies this
      ensures State() == old(State()).(inLen := length)
    {
      inPacketLength := length;
    }
  }
}

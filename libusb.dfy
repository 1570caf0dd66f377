// The part of libusb the USB device class uses, as an oracle.
//
// The host stack is a `Host` object holding the replies it will give, in
// order (`script`): a negative entry is a libusb error code, a non-negative
// entry a success, which for a transfer is the number of bytes moved (at most
// the number requested, as libusb guarantees). Once the script is used up
// every call fails with LIBUSB_ERROR_IO. Every call is recorded, in order, in
// the ghost `log`, and `refs` counts the references held on the device.
module LibUsb {

  const SUCCESS: int := 0
  const ERROR_IO: int := -1
  const ERROR_INVALID_PARAM: int := -2
  const ERROR_ACCESS: int := -3
  const ERROR_NO_DEVICE: int := -4
  const ERROR_NOT_FOUND: int := -5
  const ERROR_BUSY: int := -6
  const ERROR_TIMEOUT: int := -7

  /** bInterfaceClass of a vendor-specific interface. */
  const CLASS_VENDOR_SPEC: int := 0xff

  /** bmRequestType of a vendor request, with its direction bit (section 9.3.1 of the USB 2.0 specification). */
  const REQUEST_TYPE_VENDOR: int := 0x40
  const ENDPOINT_OUT: int := 0x00
  const ENDPOINT_IN: int := 0x80

  datatype EndpointDescriptor = EndpointDescriptor(address: int, maxPacketSize: int)

  /** One alternate setting of an interface; bNumEndpoints is `|endpoints|`. */
  datatype InterfaceDescriptor =
    InterfaceDescriptor(number: int, interfaceClass: int, subClass: int, protocol: int,
                        endpoints: seq<EndpointDescriptor>)

  datatype Interface = Interface(altsettings: seq<InterfaceDescriptor>)

  datatype DeviceDescriptor = DeviceDescriptor(idVendor: int, idProduct: int)

  /** A call into libusb. A transfer records the endpoint or request, the offset
    * into the caller's buffer, the requested length, the timeout and, for the
    * OUT direction, the bytes sent. */
  datatype Call =
    | RefDevice
    | UnrefDevice
    | Open
    | Close
    | GetConfigDescriptor
    | FreeConfigDescriptor
    | ClaimInterface(number: int)
    | ReleaseInterface(number: int)
    | BulkTransfer(endpoint: int, offset: nat, length: nat, timeout: int, sent: seq<bv8>)
    | ControlTransfer(requestType: int, request: bv8, value: int, index: int, length: nat, timeout: int,
                      sent: seq<bv8>)

  /** The reply the next call receives. */
  function Reply(script: seq<int>): int
  {
    if script == [] then ERROR_IO else script[0]
  }

  /** The replies left after one call. */
  function Rest(script: seq<int>): (rest: seq<int>)
    ensures |rest| == if script == [] then 0 else |script| - 1
  {
    if script == [] then [] else script[1..]
  }

  /** The reply the call `i` places from now receives. */
  function ReplyAt(script: seq<int>, i: nat): int
  {
    if i < |script| then script[i] else ERROR_IO
  }

  /** The replies left after `n` calls. */
  function Drop(script: seq<int>, n: nat): seq<int>
  {
    if n <= |script| then script[n..] else []
  }

  /** What a successful transfer of `length` bytes reports as moved. */
  function Moved(reply: int, length: nat): (n: nat)
    requires reply >= 0
    ensures n <= length && n <= reply
  {
    if reply < length then reply else length
  }

  class Host {
    var script: seq<int>
    /** The connection speed the device reports to CONTROL_GETSPEED. */
    const speed: int
    ghost var log: seq<Call>
    ghost var refs: int

    constructor (script: seq<int>, speed: int, refs: int)
      ensures this.script == script && this.speed == speed && this.refs == refs && log == []
    {
      this.script := script;
      this.speed := speed;
      this.refs := refs;
      log := [];
    }

    /** Takes the next reply. */
    method Next(call: Call) returns (reply: int)
      modifies this
      ensures reply == Reply(old(script)) && script == Rest(old(script)) && log == old(log) + [call]
      ensures refs == old(refs)
    {
      reply := Reply(script);
      script := Rest(script);
      log := log + [call];
    }

    /** A call whose result is not looked at. */
    method Notify(call: Call)
      modifies this
      ensures script == old(script) && log == old(log) + [call]
      ensures refs == old(refs) + (if call == RefDevice then 1 else if call == UnrefDevice then -1 else 0)
    {
      log := log + [call];
      if call == RefDevice {
        refs := refs + 1;
      } else if call == UnrefDevice {
        refs := refs - 1;
      }
    }

    /** libusb_bulk_transfer: the error code (SUCCESS on success) and the bytes moved. */
    method Bulk(endpoint: int, offset: nat, length: nat, timeout: int, sent: seq<bv8>)
      returns (code: int, transferred: nat)
      modifies this
      ensures var reply := Reply(old(script));
        code == (if reply < 0 then reply else SUCCESS) &&
        transferred == (if reply < 0 then 0 else Moved(reply, length))
      ensures script == Rest(old(script)) && refs == old(refs)
      ensures log == old(log) + [BulkTransfer(endpoint, offset, length, timeout, sent)]
    {
      var reply := Next(BulkTransfer(endpoint, offset, length, timeout, sent));
      if reply < 0 {
        code, transferred := reply, 0;
      } else {
        code, transferred := SUCCESS, Moved(reply, length);
      }
    }

    /** libusb_control_transfer: the error code, or the bytes moved. */
    method Control(requestType: int, request: bv8, value: int, index: int, length: nat, timeout: int,
                   sent: seq<bv8>)
      returns (code: int)
      modifies this
      ensures var reply := Reply(old(script)); code == if reply < 0 then reply else Moved(reply, length)
      ensures script == Rest(old(script)) && refs == old(refs)
      ensures log == old(log) + [ControlTransfer(requestType, request, value, index, length, timeout, sent)]
    {
      var reply := Next(ControlTransfer(requestType, request, value, index, length, timeout, sent));
      code := if reply < 0 then reply else Moved(reply, length);
    }
  }
}

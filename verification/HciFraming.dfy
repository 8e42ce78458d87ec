/** Packet layout of the BlueZ transport, for both chips: HCI commands (Bluetooth Core Specification, Vol 4
    Part E, section 5.4.1), HCI events (section 5.4.4) and the vendor headers in front of the ANT payload. */
module HciFraming {
  import opened Packets
  import opened Runs

  datatype Chip = Wl12xx | Bcm433x

  const HCI_COMMAND_PKT: byte := 0x01
  const HCI_EVENT_PKT: byte := 0x04
  const EVT_VENDOR: byte := 0xFF
  const COMMAND_ID_PADDING: byte := 0xFF

  function CommandOpcode(chip: Chip): nat {
    match chip case Wl12xx => 0xFDD1 case Bcm433x => 0xFCEC
  }

  function CommandVendorSize(chip: Chip): nat {
    match chip case Wl12xx => 2 case Bcm433x => 1
  }

  function EventVendorSize(chip: Chip): nat {
    match chip case Wl12xx => 4 case Bcm433x => 2
  }

  /** Little-endian 16-bit fields. */
  function StoreLE16(v: nat): seq<byte>
    requires v < 0x10000
  {
    [v % 256, v / 256]
  }

  function LEtoHost16(lo: byte, hi: byte): nat {
    hi * 256 + lo
  }

  // ---------------------------------------------------------------- commands

  function CommandHeader(chip: Chip, messageLength: byte): seq<byte> {
    [HCI_COMMAND_PKT] + StoreLE16(CommandOpcode(chip))
    + [(messageLength + CommandVendorSize(chip)) % 256]
    + match chip case Wl12xx => StoreLE16(messageLength) case Bcm433x => [COMMAND_ID_PADDING]
  }

  /** `create_command_header`, filling the packed struct field by field. */
  method CreateCommandHeader(chip: Chip, header: array<byte>, messageLength: byte)
    requires header.Length == 4 + CommandVendorSize(chip)
    modifies header
    ensures header[..] == CommandHeader(chip, messageLength)
  {
    header[0] := HCI_COMMAND_PKT;
    header[1], header[2] := CommandOpcode(chip) % 256, CommandOpcode(chip) / 256;
    header[3] := (messageLength as int + CommandVendorSize(chip)) % 256;
    match chip {
      case Wl12xx => header[4], header[5] := messageLength % 256, messageLength / 256;
      case Bcm433x => header[4] := COMMAND_ID_PADDING;
    }
  }

  /** The command packet on the wire, byte for byte, as long as the 8-bit parameter length can hold it. */
  lemma CommandOnTheWire(chip: Chip, n: byte)
    requires n <= 255 - CommandVendorSize(chip)
    ensures CommandHeader(chip, n) == match chip
              case Wl12xx => [0x01, 0xD1, 0xFD, n + 2, n, 0x00]
              case Bcm433x => [0x01, 0xEC, 0xFC, n + 1, 0xFF]
  {
  }

  /** What a controller reads out of a command packet: opcode and ANT message, provided that the parameter
      length counts the rest of the packet and the vendor header is the chip's. */
  function DecodeCommand(chip: Chip, p: seq<byte>): Option<(nat, seq<byte>)> {
    if |p| < 4 + CommandVendorSize(chip) || p[0] != HCI_COMMAND_PKT || p[3] != |p| - 4 then None
    else
      var message := p[4 + CommandVendorSize(chip)..];
      var vendorOk := match chip
        case Wl12xx => LEtoHost16(p[4], p[5]) == |message|
        case Bcm433x => p[4] == COMMAND_ID_PADDING;
      if vendorOk then Some((LEtoHost16(p[1], p[2]), message)) else None
  }

  /** The header in front of a message decodes to the chip's opcode and that message exactly when the 8-bit
      parameter length can hold it: up to 253 bytes on the WL12XX, 254 on the BCM433X. */
  lemma CommandDecodesIffItFits(chip: Chip, message: seq<byte>)
    requires |message| <= 255
    ensures DecodeCommand(chip, CommandHeader(chip, |message|) + message) == Some((CommandOpcode(chip), message))
       <==> |message| <= 255 - CommandVendorSize(chip)
  {
    var h := CommandHeader(chip, |message|);
    var p := h + message;
    assert p[..|h|] == h && p[|h|..] == message;
  }

  // ---------------------------------------------------------------- events

  /** `p` is the standard encoding of `payload` as an ANT vendor event; only the BCM433X has a status byte. */
  ghost predicate Encodes(chip: Chip, p: seq<byte>, status: byte, payload: seq<byte>) {
    match chip
    case Wl12xx => |payload| <= 251 && p == [0x04, 0xFF, |payload| + 4, 0x00, 0x05, |payload|, 0x00] + payload
    case Bcm433x => |payload| <= 253 && p == [0x04, 0xFF, |payload| + 2, 0x2D, status] + payload
  }

  function ValidateEventVendor(chip: Chip, p: seq<byte>): int
    requires |p| >= 3 + EventVendorSize(chip)
  {
    match chip
    case Wl12xx =>
      if LEtoHost16(p[3], p[4]) != 0x0500 then -1
      else if |p| != LEtoHost16(p[5], p[6]) + 7 then -1
      else 0
    case Bcm433x =>
      if p[3] != 0x2D then -1 else 0
  }

  /** `validate_hci_event_packet` on the bytes that were read. */
  function ValidateEventPacket(chip: Chip, p: seq<byte>): int {
    if |p| < 3 + EventVendorSize(chip) then -1
    else if p[0] != HCI_EVENT_PKT then -1
    else if p[1] != EVT_VENDOR then -1
    else if |p| != p[2] as int + 3 then -1
    else if ValidateEventVendor(chip, p) == -1 then -1
    else |p| - (3 + EventVendorSize(chip))
  }

  /** Every standard encoding is accepted, with the length of its payload, which sits right after the
      headers. */
  lemma EncodingsAccepted(chip: Chip, p: seq<byte>, status: byte, payload: seq<byte>)
    requires Encodes(chip, p, status, payload)
    ensures ValidateEventPacket(chip, p) == |payload|
    ensures p[3 + EventVendorSize(chip)..] == payload
  {
    var n := 3 + EventVendorSize(chip);
    assert p == p[..n] + payload;
    assert p[n..] == payload;
  }

  /** ... and nothing else is: acceptance means the packet is the encoding of what follows the headers. */
  lemma AcceptedOnlyEncodings(chip: Chip, p: seq<byte>)
    requires ValidateEventPacket(chip, p) != -1
    ensures Encodes(chip, p, p[4], p[3 + EventVendorSize(chip)..])
    ensures |p[3 + EventVendorSize(chip)..]| == ValidateEventPacket(chip, p)
  {
    var payload := p[3 + EventVendorSize(chip)..];
    match chip {
      case Wl12xx =>
        assert p == [p[0], p[1], p[2], p[3], p[4], p[5], p[6]] + payload;
      case Bcm433x =>
        assert p == [p[0], p[1], p[2], p[3], p[4]] + payload;
    }
  }

  lemma AcceptsExactlyEncodings(chip: Chip, p: seq<byte>)
    ensures ValidateEventPacket(chip, p) != -1
       <==> exists status: byte, payload: seq<byte> :: Encodes(chip, p, status, payload)
  {
    if ValidateEventPacket(chip, p) != -1 {
      AcceptedOnlyEncodings(chip, p);
    }
    forall status: byte, payload: seq<byte> | Encodes(chip, p, status, payload)
      ensures ValidateEventPacket(chip, p) != -1
    {
      EncodingsAccepted(chip, p, status, payload);
    }
  }
}

/** The advertising payload that the MicroPython variant (main.py) passes to
    `gap_advertise`: a Flags AD structure followed by a Complete Local Name AD
    structure, each laid out as in Vol 3, Part C, section 11 of the Bluetooth Core
    Specification (one length octet, then that many octets of AD type and AD data). */
module Advertising {
  import opened Common

  /** AD type "Flags" (Core Specification Supplement, Part A, section 1.3). */
  const AD_TYPE_FLAGS: Byte := 0x01
  /** AD type "Complete Local Name" (Core Specification Supplement, Part A, section 1.2). */
  const AD_TYPE_COMPLETE_LOCAL_NAME: Byte := 0x09
  /** Flags value: LE General Discoverable Mode (bit 1) and BR/EDR Not Supported (bit 2). */
  const FLAGS_LE_GENERAL_NO_BR_EDR: Byte := 0x06

  /** The largest advertising data a legacy advertising PDU carries. */
  const LEGACY_ADV_DATA_MAX: nat := 31

  /** One AD structure: its type and its data; its length octet is 1 + |data|. */
  datatype AdStructure = AdStructure(adType: Byte, data: seq<Byte>)

  /** `advertise()`: `[0x02, 0x01]`, `[0x06]`, `[len(name) + 1, 0x09]`, then the name.
      MicroPython's `struct.pack('B', v)` stores the low byte of `v` without a range
      check, so the name's length octet is `len(name) + 1` modulo 256. */
  function AdvertisingPayload(name: seq<Byte>): (r: seq<Byte>)
    ensures |r| == 5 + |name|
    ensures r[..3] == [0x02, AD_TYPE_FLAGS, FLAGS_LE_GENERAL_NO_BR_EDR]
    ensures r[4] == AD_TYPE_COMPLETE_LOCAL_NAME && r[5..] == name
    ensures r[3] <= |name| + 1 && (|name| + 1 - r[3]) % 256 == 0
    ensures |name| < 255 ==> r[3] == |name| + 1
    ensures |name| >= 255 ==> r[3] < |name| + 1
  {
    [0x02, AD_TYPE_FLAGS] + [FLAGS_LE_GENERAL_NO_BR_EDR]
    + [(|name| + 1) % 256, AD_TYPE_COMPLETE_LOCAL_NAME] + name
  }

  /** Reads a run of AD structures. A length octet of 0 ends the significant part of
      the data; a length that runs past the end makes the data malformed. */
  function ParseAdStructures(p: seq<Byte>): Option<seq<AdStructure>>
    decreases |p|
  {
    if p == [] || p[0] == 0 then Some([])
    else
      var end := p[0] as int + 1;
      if |p| < end then None
      else match ParseAdStructures(p[end..])
        case None => None
        case Some(rest) => Some([AdStructure(p[1], p[2..end])] + rest)
  }

  /** The AD data of a run of structures: each one as its length octet, its type and
      its data. */
  function SerializeAdStructures(ss: seq<AdStructure>): seq<Byte>
    requires forall i :: 0 <= i < |ss| ==> |ss[i].data| < 255
  {
    if ss == [] then []
    else [|ss[0].data| + 1, ss[0].adType] + ss[0].data + SerializeAdStructures(ss[1..])
  }

  /** Reading serialised AD structures gives back exactly those structures. */
  lemma {:induction false} ParseSerialize(ss: seq<AdStructure>)
    requires forall i :: 0 <= i < |ss| ==> |ss[i].data| < 255
    ensures ParseAdStructures(SerializeAdStructures(ss)) == Some(ss)
  {
    if ss != [] {
      var s := ss[0];
      var rest := SerializeAdStructures(ss[1..]);
      var p := [|s.data| + 1, s.adType] + s.data + rest;
      assert p[0] == |s.data| + 1 && p[1] == s.adType;
      assert p[|s.data| + 2..] == rest;
      assert p[2..|s.data| + 2] == s.data;
      ParseSerialize(ss[1..]);
      assert [s] + ss[1..] == ss;
    }
  }

  /** The Flags structure and the Complete Local Name structure `advertise()` means to
      send for `name`. */
  function IntendedStructures(name: seq<Byte>): seq<AdStructure>
  {
    [AdStructure(AD_TYPE_FLAGS, [FLAGS_LE_GENERAL_NO_BR_EDR]),
     AdStructure(AD_TYPE_COMPLETE_LOCAL_NAME, name)]
  }

  /** The payload is well-formed AD data: exactly a Flags structure holding 0x06 and a
      Complete Local Name structure holding the name, in that order. */
  lemma PayloadParses(name: seq<Byte>)
    requires |name| < 255
    ensures ParseAdStructures(AdvertisingPayload(name)) == Some(IntendedStructures(name))
  {
    var ss := IntendedStructures(name);
    assert SerializeAdStructures(ss[1..][1..]) == [];
    assert SerializeAdStructures(ss) == AdvertisingPayload(name);
    ParseSerialize(ss);
  }

  /** A name of 255 bytes or more gets a wrapped length octet, so the payload does not
      read as the two intended structures: it is malformed, or its second structure
      holds fewer bytes than the name. */
  lemma OverlongNameIsMisread(name: seq<Byte>)
    requires |name| >= 255
    ensures ParseAdStructures(AdvertisingPayload(name)) != Some(IntendedStructures(name))
  {
    var p := AdvertisingPayload(name);
    var q := p[3..];
    var k := q[0] as int;
    var first := AdStructure(p[1], p[2..3]);
    if k == 0 {
      assert ParseAdStructures(q) == Some([]);
      assert ParseAdStructures(p) == Some([first] + []);
    } else {
      assert |q| >= k + 1;
      match ParseAdStructures(q[k + 1..])
      case None =>
        assert ParseAdStructures(q) == None;
      case Some(rest) =>
        var second := AdStructure(q[1], q[2..k + 1]);
        assert ParseAdStructures(q) == Some([second] + rest);
        assert ParseAdStructures(p) == Some([first] + ([second] + rest));
        assert ([first] + ([second] + rest))[1] == second;
        assert |second.data| < |name| == |IntendedStructures(name)[1].data|;
    }
  }

  /** The payload fits a legacy advertising PDU exactly when the name has at most
      26 bytes. */
  lemma PayloadFitsLegacyAdvertising(name: seq<Byte>)
    ensures |AdvertisingPayload(name)| <= LEGACY_ADV_DATA_MAX <==> |name| <= 26
  {
  }
}

/**
 * Block-device mappings of an instance: one root EBS volume followed by
 * `diskcount` instance-store ("ephemeral") volumes whose device names end
 * in the characters with codes 98, 99, ... in index order: the letters
 * 'b' to 'z' while `diskcount <= 25`, then '{', '|', ... and, from the
 * 31st volume on, bytes above 0x7F.
 */
module BlockDevices {
  import opened Pieces
  import opened Decimal
  import opened Outcomes

  datatype BlockDeviceMapping =
    | EbsMapping(deviceName: string, volumeSize: Piece, volumeType: string)
    | EphemeralMapping(deviceName: string, virtualName: string)

  /** `chr(i + 98)`: the first ephemeral volume gets the letter 'b'. */
  const FirstLetter: int := 98
  /** Python 2's `chr` only accepts arguments below 256 (one byte). */
  const ChrLimit: int := 256
  /** The largest `diskcount` for which `chr(i + 98)` succeeds for every `i`. */
  const MaxDiskCount: int := ChrLimit - FirstLetter
  /** Both call sites ask for 24 ephemeral volumes. */
  const CallSiteDiskCount: nat := 24

  /** The root EBS volume, named after `deviceNameBase` with the suffix "a1". */
  function RootMapping(deviceNameBase: string, volumeSize: Piece, volumeType: string): BlockDeviceMapping
  {
    EbsMapping(deviceNameBase + "a1", volumeSize, volumeType)
  }

  /** The root mapping every list starts with; it ignores the caller's name base. */
  function BootRoot(): BlockDeviceMapping
  {
    RootMapping("/dev/sd", Ref("BootDiskSize"), "gp2")
  }

  /** The `i`-th ephemeral volume. */
  function Ephemeral(deviceNameBase: string, i: nat): BlockDeviceMapping
    requires i + FirstLetter < ChrLimit
  {
    EphemeralMapping(deviceNameBase + [(i + FirstLetter) as char], "ephemeral" + NatToString(i))
  }

  /** The list that `my_block_device_mappings_ephemeral` builds, in build order. */
  function DeviceList(diskcount: nat, deviceNameBase: string): seq<BlockDeviceMapping>
    requires diskcount <= MaxDiskCount
  {
    if diskcount == 0 then [BootRoot()]
    else DeviceList(diskcount - 1, deviceNameBase) + [Ephemeral(deviceNameBase, diskcount - 1)]
  }

  /**
   * `my_block_device_mappings_ephemeral(diskcount, devicenamebase)`: the root
   * mapping, then one ephemeral mapping per index below `diskcount` (none
   * when `diskcount` is not positive). The first index whose letter would
   * be `chr(256)` aborts the whole call with Python's ValueError.
   */
  method BlockDeviceMappings(diskcount: int, deviceNameBase: string)
    returns (r: Result<seq<BlockDeviceMapping>>)
    ensures diskcount <= 0 ==> r == Success([BootRoot()])
    ensures 0 <= diskcount <= MaxDiskCount ==> r == Success(DeviceList(diskcount, deviceNameBase))
    ensures diskcount > MaxDiskCount ==> r.Failure?
  {
    var mappings := [BootRoot()];
    var i := 0;
    while i < diskcount
      invariant 0 <= i <= MaxDiskCount
      invariant diskcount > 0 ==> i <= diskcount
      invariant diskcount <= 0 ==> i == 0
      invariant mappings == DeviceList(i, deviceNameBase)
    {
      if i + FirstLetter >= ChrLimit {
        return Failure("ValueError: chr() arg not in range(256)");
      }
      mappings := mappings + [Ephemeral(deviceNameBase, i)];
      i := i + 1;
    }
    r := Success(mappings);
  }

  /** The letter that ends an ephemeral device name. */
  function Suffix(m: BlockDeviceMapping): char
  {
    if m.deviceName == [] then ' ' else m.deviceName[|m.deviceName| - 1]
  }

  // ---------------------------------------------------------------------
  // Properties of the device list.

  /**
   * The list has `diskcount + 1` entries: the root EBS volume at position 0,
   * and ephemeral volume `i` at position `i + 1`.
   */
  lemma {:induction false} DeviceListShape(diskcount: nat, base: string)
    requires diskcount <= MaxDiskCount
    ensures |DeviceList(diskcount, base)| == diskcount + 1
    ensures DeviceList(diskcount, base)[0] == BootRoot()
    ensures forall i :: 0 <= i < diskcount ==> DeviceList(diskcount, base)[i + 1] == Ephemeral(base, i)
  {
    if diskcount > 0 {
      DeviceListShape(diskcount - 1, base);
    }
  }

  /**
   * The root entry is the gp2 EBS volume "/dev/sda1" sized by the
   * `BootDiskSize` parameter, whatever name base the caller passes.
   */
  lemma RootEntry(diskcount: nat, base: string)
    requires diskcount <= MaxDiskCount
    ensures DeviceList(diskcount, base)[0] == EbsMapping("/dev/sda1", Ref("BootDiskSize"), "gp2")
  {
    DeviceListShape(diskcount, base);
  }

  /**
   * Ephemeral suffixes run through consecutive characters with codes 98, 99, ...:
   * no gaps, strictly increasing, so the root's "a1" never collides with them.
   * They are the letters 'b' to 'z' only while `diskcount <= 25`
   * (`SuffixesBeyondZ`).
   */
  lemma EphemeralSuffixes(diskcount: nat, base: string)
    requires diskcount <= MaxDiskCount
    ensures var l := DeviceList(diskcount, base);
      |l| == diskcount + 1 &&
      (forall i :: 1 <= i < |l| ==> Suffix(l[i]) as int == FirstLetter + i - 1) &&
      (forall i, j :: 1 <= i < j < |l| ==> Suffix(l[i]) < Suffix(l[j]))
  {
    DeviceListShape(diskcount, base);
  }

  /**
   * The suffixes stay letters only up to the 25th ephemeral volume: its
   * suffix is 'z', the next one is '{', and from the 31st on (index 30)
   * the suffix is a byte above 0x7F. The builder accepts all of these up to
   * `diskcount` 158, so a larger `diskcount` gives device names that are not
   * of the form base + letter.
   */
  lemma SuffixesBeyondZ(diskcount: nat, base: string)
    requires diskcount <= MaxDiskCount
    ensures var l := DeviceList(diskcount, base);
      |l| == diskcount + 1 &&
      (forall i :: 1 <= i < |l| ==> ('b' <= Suffix(l[i]) <= 'z' <==> i <= 25)) &&
      (diskcount >= 25 ==> Suffix(l[25]) == 'z') &&
      (diskcount >= 26 ==> Suffix(l[26]) == '{') &&
      (forall i :: 31 <= i < |l| ==> Suffix(l[i]) as int > 0x7F)
  {
    EphemeralSuffixes(diskcount, base);
  }

  /** No two entries share a device name or, among the ephemeral ones, a virtual name. */
  lemma DeviceNamesDistinct(diskcount: nat, base: string)
    requires diskcount <= MaxDiskCount
    ensures var l := DeviceList(diskcount, base);
      |l| == diskcount + 1 &&
      (forall i, j :: 0 <= i < j < |l| ==> l[i].deviceName != l[j].deviceName) &&
      (forall i :: 1 <= i < |l| ==> l[i].EphemeralMapping?) &&
      (forall i, j :: 1 <= i < j < |l| ==> l[i].virtualName != l[j].virtualName)
  {
    var l := DeviceList(diskcount, base);
    DeviceListShape(diskcount, base);
    forall i, j | 0 <= i < j < |l|
      ensures l[i].deviceName != l[j].deviceName
    {
      var n, m := l[i].deviceName, l[j].deviceName;
      assert l[j] == Ephemeral(base, j - 1);
      assert m[|m| - 1] as int == FirstLetter + j - 1;
      if i == 0 {
        assert n[|n| - 1] == '1';
      } else {
        assert l[i] == Ephemeral(base, i - 1);
        assert n[|n| - 1] as int == FirstLetter + i - 1;
      }
    }
    forall i, j | 1 <= i < j < |l|
      ensures l[i].virtualName != l[j].virtualName
    {
      if l[i].virtualName == l[j].virtualName {
        var a, b := NatToString(i - 1), NatToString(j - 1);
        assert l[i] == Ephemeral(base, i - 1) && l[j] == Ephemeral(base, j - 1);
        assert "ephemeral" + a == "ephemeral" + b;
        assert a == ("ephemeral" + a)[9..];
        assert b == ("ephemeral" + b)[9..];
        NatToStringInjective(i - 1, j - 1);
      }
    }
  }

  /** The suffix letters of the ephemeral entries, in list order. */
  function EphemeralSuffixLetters(l: seq<BlockDeviceMapping>): (r: string)
    requires |l| >= 1
    ensures |r| == |l| - 1
  {
    seq(|l| - 1, i requires 0 <= i < |l| - 1 => Suffix(l[i + 1]))
  }

  /**
   * At both call sites (`diskcount` 24, base "/dev/sd") the ephemeral
   * suffixes are exactly the letters 'b' to 'y' in order, all inside the
   * `[b-z]` range the boot script's device glob scans.
   */
  lemma CallSiteSuffixes()
    ensures var l := DeviceList(CallSiteDiskCount, "/dev/sd");
      |l| == 25 &&
      EphemeralSuffixLetters(l) == "bcdefghijklmnopqrstuvwxy" &&
      (forall i :: 1 <= i < |l| ==> 'b' <= Suffix(l[i]) <= 'z')
  {
    var l := DeviceList(CallSiteDiskCount, "/dev/sd");
    EphemeralSuffixes(CallSiteDiskCount, "/dev/sd");
    var letters := "bcdefghijklmnopqrstuvwxy";
    forall i | 0 <= i < 24
      ensures EphemeralSuffixLetters(l)[i] == letters[i]
    {
      assert letters[i] as int == FirstLetter + i;
    }
  }
}

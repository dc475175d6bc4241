/** Which PCM devices an output stream opens for a mask of audio devices, and whether a
    running stream may stay open when its mask changes.  A mask is the set of its bits. */
module PcmSelection {
  import opened Wrappers

  type DeviceMask = set<nat>

  const BIT_IN: nat := 31
  const OUT_SPEAKER: nat := 1
  const OUT_WIRED_HEADSET: nat := 2
  const OUT_WIRED_HEADPHONE: nat := 3
  const OUT_BLUETOOTH_SCO: nat := 4
  const OUT_BLUETOOTH_SCO_HEADSET: nat := 5
  const OUT_BLUETOOTH_SCO_CARKIT: nat := 6
  const IN_BUILTIN_MIC: nat := 2
  const IN_BLUETOOTH_SCO_HEADSET: nat := 3
  const IN_WIRED_HEADSET: nat := 4
  const IN_BACK_MIC: nat := 7

  datatype UsecaseType = PcmPlayback | PcmCapture | PcmCaptureLowLatency | PcmHotwordStreaming

  datatype Profile = Profile(id: nat, kind: UsecaseType, devices: DeviceMask)

  const MICS: DeviceMask := {IN_BUILTIN_MIC, IN_WIRED_HEADSET, IN_BACK_MIC}

  /** The bits of SND_DEVICE_IN_LOOPBACK_AEC, which the table uses as a mask. */
  const LOOPBACK_AEC: DeviceMask := {1, 5}

  /** The pcm_devices table, in order. */
  const PCM_DEVICES := [
    Profile(9, PcmPlayback, {OUT_WIRED_HEADSET, OUT_WIRED_HEADPHONE, OUT_SPEAKER}),
    Profile(0, PcmCapture, MICS + {BIT_IN}),
    Profile(0, PcmCaptureLowLatency, MICS + {BIT_IN}),
    Profile(2, PcmPlayback, {OUT_BLUETOOTH_SCO, OUT_BLUETOOTH_SCO_HEADSET, OUT_BLUETOOTH_SCO_CARKIT}),
    Profile(2, PcmCapture, {IN_BLUETOOTH_SCO_HEADSET, BIT_IN}),
    Profile(1, PcmCapture, LOOPBACK_AEC),
    Profile(0, PcmHotwordStreaming, MICS + {BIT_IN})]

  function OfKind(table: seq<Profile>, kind: UsecaseType): seq<Profile> {
    if table == [] then []
    else if table[0].kind == kind then [table[0]] + OfKind(table[1..], kind)
    else OfKind(table[1..], kind)
  }

  /** The profiles' masks are pairwise disjoint and hold no input bit. */
  ghost predicate Disjoint(profiles: seq<Profile>) {
    && (forall i :: 0 <= i < |profiles| ==> BIT_IN !in profiles[i].devices)
    && (forall i, j :: 0 <= i < j < |profiles| ==> profiles[i].devices !! profiles[j].devices)
  }

  /** get_pcm_device: the first profile of the kind that shares a device with the mask. */
  function GetPcmDevice(table: seq<Profile>, kind: UsecaseType, devices: DeviceMask): (p: Option<Profile>)
    ensures p.Some? ==> p.value.kind == kind && p.value.devices * devices != {}
  {
    if table == [] then None
    else if table[0].kind == kind && (devices - {BIT_IN}) * table[0].devices != {} then
      var bit :| bit in (devices - {BIT_IN}) * table[0].devices;
      assert bit in table[0].devices * devices;
      Some(table[0])
    else GetPcmDevice(table[1..], kind, devices)
  }

  datatype Selection = Selection(profiles: seq<Profile>, rest: DeviceMask)

  /** uc_select_pcm_devices: greedy, until no profile shares a device with what is left. */
  function Select(table: seq<Profile>, kind: UsecaseType, devices: DeviceMask): Selection
    decreases |devices|
  {
    match GetPcmDevice(table, kind, devices)
    case None => Selection([], devices)
    case Some(p) =>
      BitsDecrease(devices, p.devices);
      var s := Select(table, kind, devices - p.devices);
      Selection([p] + s.profiles, s.rest)
  }

  /** Each round of the selection clears a set bit. */
  lemma BitsDecrease(devices: DeviceMask, p: DeviceMask)
    requires p * devices != {}
    ensures |devices - p| < |devices|
  {
  }

  /** The check of out_set_parameters: a running stream stays open when each of its PCM
      devices still has a device to serve and together they serve the whole mask. */
  function StaysOpen(list: seq<Profile>, val: DeviceMask): bool {
    if list == [] then val == {}
    else list[0].devices * val != {} && StaysOpen(list[1..], val - list[0].devices)
  }

  /** The same profiles chosen in one pass over the table. */
  function Chosen(profiles: seq<Profile>, devices: DeviceMask): seq<Profile> {
    if profiles == [] then []
    else if profiles[0].devices * devices != {} then [profiles[0]] + Chosen(profiles[1..], devices)
    else Chosen(profiles[1..], devices)
  }

  function Union(profiles: seq<Profile>): DeviceMask {
    if profiles == [] then {} else profiles[0].devices + Union(profiles[1..])
  }

  lemma {:induction false} GetIsFirstChosen(table: seq<Profile>, kind: UsecaseType, devices: DeviceMask)
    ensures var c := Chosen(OfKind(table, kind), devices - {BIT_IN});
            GetPcmDevice(table, kind, devices) == if c == [] then None else Some(c[0])
    decreases |table|
  {
    if table != [] {
      GetIsFirstChosen(table[1..], kind, devices);
      assert table[0].devices * (devices - {BIT_IN}) == (devices - {BIT_IN}) * table[0].devices;
      if table[0].kind == kind {
        assert OfKind(table, kind)[1..] == OfKind(table[1..], kind);
      } else {
        assert OfKind(table, kind) == OfKind(table[1..], kind);
      }
    }
  }

  /** A profile serves a device of the mask; the bit that marks input masks is not one. */
  ghost predicate Serves(p: Profile, kind: UsecaseType, devices: DeviceMask) {
    p.kind == kind && exists bit :: bit in devices && bit != 31 && bit in p.devices
  }

  /** The first entry of the table that serves the mask, if any does. */
  lemma {:induction false} GetIsFirstThatServes(table: seq<Profile>, kind: UsecaseType, devices: DeviceMask)
    ensures match GetPcmDevice(table, kind, devices)
            case None => forall i :: 0 <= i < |table| ==> !Serves(table[i], kind, devices)
            case Some(p) => exists i :: 0 <= i < |table| && table[i] == p && Serves(p, kind, devices)
                                        && forall j :: 0 <= j < i ==> !Serves(table[j], kind, devices)
    decreases |table|
  {
    if table != [] {
      var rest := table[1..];
      GetIsFirstThatServes(rest, kind, devices);
      FirstServes(table[0], kind, devices);
      if !Serves(table[0], kind, devices) {
        assert forall i :: 0 < i < |table| ==> table[i] == rest[i - 1];
        if GetPcmDevice(rest, kind, devices).Some? {
          var i :| 0 <= i < |rest| && rest[i] == GetPcmDevice(rest, kind, devices).value && Serves(rest[i], kind, devices)
                   && forall j :: 0 <= j < i ==> !Serves(rest[j], kind, devices);
          assert table[i + 1] == rest[i];
        }
      } else {
        assert table[0] == GetPcmDevice(table, kind, devices).value;
      }
    }
  }

  lemma FirstServes(p: Profile, kind: UsecaseType, devices: DeviceMask)
    ensures Serves(p, kind, devices) <==> p.kind == kind && (devices - {BIT_IN}) * p.devices != {}
  {
    if bit :| bit in devices && bit != 31 && bit in p.devices { assert bit in (devices - {BIT_IN}) * p.devices; }
    if bit :| bit in (devices - {BIT_IN}) * p.devices { assert bit in devices && bit != 31 && bit in p.devices; }
  }

  /** Whatever the table: what a selection leaves is exactly what no profile of the kind serves;
      and it opens only profiles of the kind, from the table. */
  lemma {:induction false} SelectionServesAll(table: seq<Profile>, kind: UsecaseType, devices: DeviceMask, bit: nat)
    requires bit != 31
    ensures var s := Select(table, kind, devices);
            && (bit in s.rest <==> bit in devices && forall i :: 0 <= i < |table| && table[i].kind == kind ==> bit !in table[i].devices)
            && forall k :: 0 <= k < |s.profiles| ==> s.profiles[k] in table && s.profiles[k].kind == kind
    decreases |devices|
  {
    GetIsFirstThatServes(table, kind, devices);
    SelectUnfold(table, kind, devices);
    hide Select;
    match GetPcmDevice(table, kind, devices) {
      case None =>
        if bit in devices {
          forall i | 0 <= i < |table| && table[i].kind == kind ensures bit !in table[i].devices {
            assert !Serves(table[i], kind, devices);
          }
        }
      case Some(p) =>
        SelectionServesAll(table, kind, devices - p.devices, bit);
    }
  }

  /** What playback opens: the codec for the speaker and wired outputs, the voice link for
      Bluetooth ones. */
  lemma PlaybackOpens(devices: DeviceMask)
    ensures var list := Select(PCM_DEVICES, PcmPlayback, devices).profiles;
            && ((exists k :: 0 <= k < |list| && list[k].id == 9) <==> 1 in devices || 2 in devices || 3 in devices)
            && ((exists k :: 0 <= k < |list| && list[k].id == 2) <==> 4 in devices || 5 in devices || 6 in devices)
            && |list| <= 2
  {
    var d := devices - {BIT_IN};
    var p, q := PlaybackSelects(devices);
    assert BIT_IN == 31;
    hide *;
    Meets(p.devices, d, 1, 2, 3);
    Meets(q.devices, d, 4, 5, 6);
    TwoListed(p, q, p.devices * d != {}, q.devices * d != {}, Select(PCM_DEVICES, PcmPlayback, devices).profiles);
  }

  lemma PlaybackSelects(devices: DeviceMask) returns (p: Profile, q: Profile)
    ensures p.id == 9 && p.devices == {1, 2, 3} && q.id == 2 && q.devices == {4, 5, 6}
    ensures var d := devices - {BIT_IN};
            Select(PCM_DEVICES, PcmPlayback, devices).profiles ==
              (if p.devices * d != {} then [p] else []) + (if q.devices * d != {} then [q] else [])
  {
    p, q := PCM_DEVICES[0], PCM_DEVICES[3];
    PlaybackProfilesDisjoint();
    SelectIsChosen(PCM_DEVICES, PcmPlayback, devices);
    hide Select, Chosen, Disjoint, OfKind;
    ChosenOfTwo(p, q, devices - {BIT_IN});
  }

  lemma ChosenOfTwo(p: Profile, q: Profile, d: DeviceMask)
    ensures Chosen([p, q], d) == (if p.devices * d != {} then [p] else []) + (if q.devices * d != {} then [q] else [])
  {
    assert [p, q][1..] == [q] && [q][1..] == [];
    assert Chosen([q], d) == if q.devices * d != {} then [q] else [];
  }

  lemma TwoListed(p: Profile, q: Profile, first: bool, second: bool, list: seq<Profile>)
    requires list == (if first then [p] else []) + (if second then [q] else []) && p.id != q.id
    ensures (exists k :: 0 <= k < |list| && list[k].id == p.id) <==> first
    ensures (exists k :: 0 <= k < |list| && list[k].id == q.id) <==> second
    ensures |list| <= 2
  {
    if first { assert list[0] == p; }
    if second { assert list[|list| - 1] == q; }
  }

  lemma Meets(a: DeviceMask, d: DeviceMask, x: nat, y: nat, z: nat)
    requires a == {x, y, z}
    ensures a * d != {} <==> x in d || y in d || z in d
  {
    if x in d { assert x in a * d; }
    if y in d { assert y in a * d; }
    if z in d { assert z in a * d; }
  }

  /** Clearing bits no listed profile has changes no choice. */
  lemma {:induction false} ChosenIgnores(profiles: seq<Profile>, devices: DeviceMask, bits: DeviceMask)
    requires forall i :: 0 <= i < |profiles| ==> profiles[i].devices !! bits
    ensures Chosen(profiles, devices - bits) == Chosen(profiles, devices)
    decreases |profiles|
  {
    if profiles != [] {
      assert profiles[0].devices !! bits;
      assert profiles[0].devices * (devices - bits) == profiles[0].devices * devices;
      ChosenIgnores(profiles[1..], devices, bits);
    }
  }

  /** Taking the first chosen profile's bits away leaves exactly the other choices. */
  lemma {:induction false} ChosenTail(profiles: seq<Profile>, devices: DeviceMask)
    requires Disjoint(profiles) && Chosen(profiles, devices) != []
    ensures var c := Chosen(profiles, devices);
            Chosen(profiles, devices - c[0].devices) == c[1..]
    decreases |profiles|
  {
    var p, rest := profiles[0], profiles[1..];
    assert Disjoint(rest);
    if p.devices * devices != {} {
      assert p.devices * (devices - p.devices) == {};
      ChosenIgnores(rest, devices, p.devices);
    } else {
      ChosenTail(rest, devices);
      var c := Chosen(rest, devices);
      assert p.devices * (devices - c[0].devices) == {};
    }
  }

  /** The greedy selection makes the one-pass choice and leaves what it does not cover. */
  lemma {:induction false} SelectIsChosen(table: seq<Profile>, kind: UsecaseType, devices: DeviceMask)
    requires Disjoint(OfKind(table, kind))
    ensures var c := Chosen(OfKind(table, kind), devices - {BIT_IN});
            Select(table, kind, devices) == Selection(c, devices - Union(c))
    decreases |devices|
  {
    hide Select, GetPcmDevice, Disjoint, OfKind, Chosen;
    var c := Chosen(OfKind(table, kind), devices - {BIT_IN});
    GetIsFirstChosen(table, kind, devices);
    SelectUnfold(table, kind, devices);
    if c != [] {
      var p := c[0];
      var left := devices - p.devices;
      BitsDecrease(devices, p.devices);
      SelectIsChosen(table, kind, left);
      ChosenTail(OfKind(table, kind), devices - {BIT_IN});
      assert devices - {BIT_IN} - p.devices == left - {BIT_IN};
      SelectStep(table, kind, devices, p, c[1..]);
      assert c == [p] + c[1..];
    } else {
      assert devices - Union(c) == devices;
    }
  }

  lemma SelectUnfold(table: seq<Profile>, kind: UsecaseType, devices: DeviceMask)
    ensures match GetPcmDevice(table, kind, devices)
            case None => Select(table, kind, devices) == Selection([], devices)
            case Some(p) =>
              |devices - p.devices| < |devices| &&
              var s := Select(table, kind, devices - p.devices);
              Select(table, kind, devices) == Selection([p] + s.profiles, s.rest)
  {
  }

  lemma SelectStep(table: seq<Profile>, kind: UsecaseType, devices: DeviceMask, p: Profile, tail: seq<Profile>)
    requires GetPcmDevice(table, kind, devices) == Some(p)
    requires Select(table, kind, devices - p.devices) == Selection(tail, devices - p.devices - Union(tail))
    ensures Select(table, kind, devices) == Selection([p] + tail, devices - Union([p] + tail))
  {
  }

  lemma {:induction false} ChosenFrom(profiles: seq<Profile>, devices: DeviceMask, i: nat)
    requires i < |Chosen(profiles, devices)|
    ensures exists k :: 0 <= k < |profiles| && profiles[k] == Chosen(profiles, devices)[i]
    decreases |profiles|
  {
    var first := if profiles[0].devices * devices != {} then 1 else 0;
    if i >= first {
      ChosenFrom(profiles[1..], devices, i - first);
      var k :| 0 <= k < |profiles[1..]| && profiles[1..][k] == Chosen(profiles[1..], devices)[i - first];
      assert profiles[k + 1] == profiles[1..][k];
    }
  }

  lemma {:induction false} UnionOfChosen(profiles: seq<Profile>, devices: DeviceMask, bits: DeviceMask)
    requires forall i :: 0 <= i < |profiles| ==> profiles[i].devices !! bits
    ensures Union(Chosen(profiles, devices)) !! bits
    decreases |profiles|
  {
    if profiles != [] {
      UnionOfChosen(profiles[1..], devices, bits);
      assert profiles[0].devices !! bits;
    }
  }

  /** On disjoint profiles the check says: a fresh choice would be the same, and complete. */
  lemma {:induction false} OpenIffSameChoice(profiles: seq<Profile>, old_: DeviceMask, val: DeviceMask)
    requires Disjoint(profiles)
    ensures StaysOpen(Chosen(profiles, old_), val) <==>
            Chosen(profiles, val) == Chosen(profiles, old_) && val <= Union(Chosen(profiles, val))
    decreases |profiles|
  {
    if profiles != [] {
      var p, rest := profiles[0], profiles[1..];
      assert Disjoint(rest);
      if p.devices * old_ != {} {
        OpenIffSameChoice(rest, old_, val - p.devices);
        ChosenIgnores(rest, val, p.devices);
        assert Chosen(profiles, old_)[1..] == Chosen(rest, old_);
        if p.devices * val != {} {
          assert Chosen(profiles, val)[1..] == Chosen(rest, val);
        } else if Chosen(profiles, val) == Chosen(profiles, old_) {
          FirstNotChosen(p, rest, val);
        }
      } else {
        OpenIffSameChoice(rest, old_, val);
        if p.devices * val != {} {
          UnionOfChosen(rest, old_, p.devices);
          if StaysOpen(Chosen(rest, old_), val) {
            OpenIsCovered(Chosen(rest, old_), val);
          }
          if Chosen(profiles, val) == Chosen(rest, old_) {
            FirstNotChosen(p, rest, old_);
          }
        }
      }
    }
  }

  lemma {:induction false} FirstNotChosen(p: Profile, rest: seq<Profile>, devices: DeviceMask)
    requires Chosen(rest, devices) != [] && Chosen(rest, devices)[0] == p
    requires forall i :: 0 <= i < |rest| ==> p.devices !! rest[i].devices
    ensures p.devices == {}
  {
    ChosenFrom(rest, devices, 0);
  }

  lemma {:induction false} OpenIsCovered(list: seq<Profile>, val: DeviceMask)
    requires StaysOpen(list, val)
    ensures val <= Union(list)
    decreases |list|
  {
    if list != [] {
      OpenIsCovered(list[1..], val - list[0].devices);
    }
  }

  /** Re-routing agrees with re-selection: a list that was selected for some mask stays open
      for `val` exactly when selecting for `val` would give that list and cover the mask. */
  lemma ReroutingAgreesWithReselection(table: seq<Profile>, kind: UsecaseType, before: DeviceMask, val: DeviceMask)
    requires Disjoint(OfKind(table, kind))
    ensures var list := Select(table, kind, before).profiles;
            StaysOpen(list, val) <==> Select(table, kind, val) == Selection(list, {})
  {
    var profiles := OfKind(table, kind);
    SelectIsChosen(table, kind, before);
    SelectIsChosen(table, kind, val);
    InputBitIgnored(profiles, before);
    InputBitIgnored(profiles, val);
    OpenIffSameChoice(profiles, before, val);
    var c := Chosen(profiles, val);
    NothingLeft(val, Union(c));
  }

  lemma NothingLeft(val: DeviceMask, covered: DeviceMask)
    ensures val - covered == {} <==> val <= covered
  {
    if val - covered == {} {
      forall bit | bit in val ensures bit in covered {
        assert bit !in val - covered;
      }
    }
  }

  lemma InputBitIgnored(profiles: seq<Profile>, devices: DeviceMask)
    requires Disjoint(profiles)
    ensures Chosen(profiles, devices - {BIT_IN}) == Chosen(profiles, devices)
  {
    forall i | 0 <= i < |profiles| ensures profiles[i].devices !! {BIT_IN} {
      assert BIT_IN !in profiles[i].devices;
    }
    ChosenIgnores(profiles, devices, {BIT_IN});
  }

  /** The playback profiles of the table meet the condition. */
  lemma PlaybackProfilesDisjoint()
    ensures Disjoint(OfKind(PCM_DEVICES, PcmPlayback))
    ensures OfKind(PCM_DEVICES, PcmPlayback) == [PCM_DEVICES[0], PCM_DEVICES[3]]
  {
    var t := PCM_DEVICES;
    assert OfKind(t[7..], PcmPlayback) == [];
    assert t[6..][1..] == t[7..] && OfKind(t[6..], PcmPlayback) == [];
    assert t[5..][1..] == t[6..] && OfKind(t[5..], PcmPlayback) == [];
    assert t[4..][1..] == t[5..] && OfKind(t[4..], PcmPlayback) == [];
    assert t[3..][1..] == t[4..] && OfKind(t[3..], PcmPlayback) == [t[3]];
    assert t[2..][1..] == t[3..] && OfKind(t[2..], PcmPlayback) == [t[3]];
    assert t[1..][1..] == t[2..] && OfKind(t[1..], PcmPlayback) == [t[3]];
    assert OfKind(t, PcmPlayback) == [t[0], t[3]];
  }

  /** The part of a playback stream that selection and re-routing change. */
  class OutputStream {
    var standby: bool
    var devices: DeviceMask
    var pcmDevList: seq<Profile>

    /** While the stream runs, its list is what a fresh selection on its mask would give. */
    ghost predicate Valid() reads this {
      !standby ==> pcmDevList == Select(PCM_DEVICES, PcmPlayback, devices).profiles
    }

    constructor (mask: DeviceMask)
      ensures Valid() && standby && devices == mask
    {
      standby, devices, pcmDevList := true, mask, [];
    }

    method UcSelectPcmDevices() returns (ghost uncovered: DeviceMask)
      modifies this`pcmDevList
      ensures Select(PCM_DEVICES, PcmPlayback, devices) == Selection(pcmDevList, uncovered)
    {
      hide *;
      var left := devices;
      pcmDevList := [];
      var profile := GetPcmDevice(PCM_DEVICES, PcmPlayback, left);
      SelectUnfold(PCM_DEVICES, PcmPlayback, left);
      while profile.Some?
        invariant profile == GetPcmDevice(PCM_DEVICES, PcmPlayback, left)
        invariant var s := Select(PCM_DEVICES, PcmPlayback, left);
                  Select(PCM_DEVICES, PcmPlayback, devices) == Selection(pcmDevList + s.profiles, s.rest)
        decreases |left|
      {
        SelectUnfold(PCM_DEVICES, PcmPlayback, left);
        ghost var tail := Select(PCM_DEVICES, PcmPlayback, left - profile.value.devices).profiles;
        assert pcmDevList + ([profile.value] + tail) == pcmDevList + [profile.value] + tail;
        pcmDevList := pcmDevList + [profile.value];
        left := left - profile.value.devices;
        profile := GetPcmDevice(PCM_DEVICES, PcmPlayback, left);
      }
      uncovered := left;
      SelectUnfold(PCM_DEVICES, PcmPlayback, left);
      assert pcmDevList + [] == pcmDevList;
    }

    method Start()
      requires standby
      modifies this
      ensures Valid() && !standby && devices == old(devices)
    {
      var _ := UcSelectPcmDevices();
      standby := false;
    }

    /** The routing branch of out_set_parameters.  The stream is put in standby unless a fresh
        selection would open the same devices and serve the whole new mask. */
    method Route(mask: DeviceMask)
      requires Valid()
      modifies this
      ensures Valid()
      ensures mask == {} ==> standby == old(standby) && devices == old(devices) && pcmDevList == old(pcmDevList)
      ensures mask != {} ==> devices == mask
      ensures mask != {} && !old(standby) ==>
                (standby <==> Select(PCM_DEVICES, PcmPlayback, mask) != Selection(old(pcmDevList), {}))
      ensures old(standby) ==> standby
      ensures !standby ==> pcmDevList == old(pcmDevList)
    {
      if mask == {} { return; }
      ghost var before := devices;
      devices := mask;
      if !standby {
        var doStandby := false;
        var val, i := mask, 0;
        while i < |pcmDevList|
          invariant 0 <= i <= |pcmDevList|
          invariant StaysOpen(pcmDevList, mask) <==> !doStandby && StaysOpen(pcmDevList[i..], val)
        {
          if pcmDevList[i].devices * val == {} { doStandby := true; }
          val := val - pcmDevList[i].devices;
          i := i + 1;
        }
        if val != {} { doStandby := true; }
        PlaybackProfilesDisjoint();
        ReroutingAgreesWithReselection(PCM_DEVICES, PcmPlayback, before, mask);
        if doStandby { standby, pcmDevList := true, []; }
      }
    }
  }
}

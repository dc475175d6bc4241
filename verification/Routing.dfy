/** Sound-device reference counts and applied mixer paths over the list of active use cases. */
module Routing {
  import opened Wrappers
  import opened Runs

  datatype UsecaseId = AudioPlayback | MultiCh | Offload | DeepBuffer | AudioCapture | CaptureHotword

  predicate IsPlayback(id: UsecaseId) {
    id != AudioCapture && id != CaptureHotword
  }

  const NONE: nat := 0
  const OUT_SPEAKER: nat := 2
  const OUT_HEADPHONES: nat := 3
  const OUT_SPEAKER_AND_HEADPHONES: nat := 4
  const IN_BEGIN: nat := 14
  const DEVICE_MAX: nat := 35

  type OutDevice = d: nat | d < IN_BEGIN
  type InDevice = d: nat | d == NONE || IN_BEGIN <= d < DEVICE_MAX
  type Device = d: nat | d < DEVICE_MAX

  /** The first device of device_table with the same mixer path name. */
  function Path(d: Device): Device {
    if d == 17 then 14 else if d == 19 then 16 else if d == 20 then 18 else d
  }

  /** An entry of the use-case list, with the stream it was listed for.  `hasMixer`: its mixer
      list is not empty.  `taken`: a later entry of the same id has put the mixer card's one node
      for that id on its own list, and this entry's list runs into that one. */
  datatype UseCase = UseCase(id: UsecaseId, stream: nat, outDev: OutDevice, inDev: InDevice, hasMixer: bool, taken: bool)

  /** A walk of the entry's mixer list does not come back to its head. */
  predicate Broken(u: UseCase) {
    u.hasMixer && u.taken
  }

  /** A new entry, before its devices are selected. */
  function Fresh(id: UsecaseId, stream: nat, hasMixer: bool): UseCase {
    UseCase(id, stream, NONE, NONE, hasMixer, false)
  }

  /** `dev` stands for `d`: the combo stands for both its parts, "none" for nothing. */
  predicate Expands(dev: Device, d: Device) {
    if dev == OUT_SPEAKER_AND_HEADPHONES then d == OUT_SPEAKER || d == OUT_HEADPHONES
    else dev != NONE && dev == d
  }

  predicate Uses(u: UseCase, d: Device) {
    Expands(u.outDev, d) || Expands(u.inDev, d)
  }

  /** How many listed use cases use `d`. */
  function Count(ucs: seq<UseCase>, d: Device): nat {
    if ucs == [] then 0 else (if Uses(ucs[0], d) then 1 else 0) + Count(ucs[1..], d)
  }

  lemma {:induction false} CountAppend(a: seq<UseCase>, b: seq<UseCase>, d: Device)
    ensures Count(a + b, d) == Count(a, d) + Count(b, d)
    decreases |a|
  {
    if a == [] {
      assert a + b == b;
    } else {
      assert (a + b)[1..] == a[1..] + b;
      CountAppend(a[1..], b, d);
    }
  }

  lemma CountSplit(ucs: seq<UseCase>, i: nat, d: Device)
    requires i < |ucs|
    ensures Count(ucs, d) == Count(ucs[..i], d) + (if Uses(ucs[i], d) then 1 else 0) + Count(ucs[i + 1..], d)
  {
    assert ucs == ucs[..i] + ([ucs[i]] + ucs[i + 1..]);
    CountAppend(ucs[..i], [ucs[i]] + ucs[i + 1..], d);
    CountAppend([ucs[i]], ucs[i + 1..], d);
  }

  lemma {:induction false} CountPositive(ucs: seq<UseCase>, d: Device)
    ensures Count(ucs, d) > 0 <==> exists i :: 0 <= i < |ucs| && Uses(ucs[i], d)
    decreases |ucs|
  {
    if ucs != [] {
      CountPositive(ucs[1..], d);
      if Count(ucs[1..], d) > 0 {
        var i :| 0 <= i < |ucs[1..]| && Uses(ucs[1..][i], d);
        assert Uses(ucs[i + 1], d);
      }
      if i :| 0 < i < |ucs| && Uses(ucs[i], d) {
        assert Uses(ucs[1..][i - 1], d);
      }
    }
  }

  /** get_usecase_from_id. */
  function IndexOf(ucs: seq<UseCase>, id: UsecaseId): (i: nat)
    ensures i <= |ucs|
    ensures i < |ucs| ==> ucs[i].id == id
    ensures forall j :: 0 <= j < i ==> ucs[j].id != id
  {
    if ucs == [] then 0 else if ucs[0].id == id then 0 else 1 + IndexOf(ucs[1..], id)
  }

  /** get_usecase_from_type for capture use cases. */
  function FirstCapture(ucs: seq<UseCase>): (i: nat)
    ensures i <= |ucs|
    ensures i < |ucs| ==> !IsPlayback(ucs[i].id)
  {
    if ucs == [] then 0 else if !IsPlayback(ucs[0].id) then 0 else 1 + FirstCapture(ucs[1..])
  }

  /** What the device-choice helpers answer, and whether the first listed capture stream
      records from the voice-communication source. */
  datatype Choice = Choice(outDev: OutDevice, inDev: InDevice, voiceComm: bool)

  function Retarget(ucs: seq<UseCase>, i: nat, outDev: OutDevice, inDev: InDevice): seq<UseCase>
    requires i < |ucs|
  {
    ucs[i := ucs[i].(outDev := outDev, inDev := inDev)]
  }

  /** The list after selecting the devices of a capture use case. */
  function CaptureSelected(ucs: seq<UseCase>, id: UsecaseId, c: Choice): (r: seq<UseCase>)
    requires !IsPlayback(id)
    ensures |r| == |ucs|
  {
    var i := IndexOf(ucs, id);
    if id == CaptureHotword || i == |ucs| then ucs else Retarget(ucs, i, NONE, c.inDev)
  }

  /** A primary playback re-selects the capture side first when that is a voice
      communication: its microphone depends on the speaker in use. */
  function BeforePlayback(ucs: seq<UseCase>, id: UsecaseId, c: Choice): (r: seq<UseCase>)
    ensures |r| == |ucs|
  {
    var i := FirstCapture(ucs);
    if id == AudioPlayback && i < |ucs| && c.voiceComm then CaptureSelected(ucs, ucs[i].id, c) else ucs
  }

  /** The list after select_devices. */
  function Selected(ucs: seq<UseCase>, id: UsecaseId, c: Choice): (r: seq<UseCase>)
    ensures |r| == |ucs|
  {
    var i := IndexOf(ucs, id);
    if !IsPlayback(id) then CaptureSelected(ucs, id, c)
    else if i == |ucs| then ucs
    else Retarget(BeforePlayback(ucs, id, c), i, c.outDev, NONE)
  }

  /** The list with `u` at its end; a mixer list of `u` takes the node from earlier ones. */
  function Appended(ucs: seq<UseCase>, u: UseCase): (r: seq<UseCase>)
    ensures |r| == |ucs| + 1 && r[|ucs|] == u
    ensures forall i :: 0 <= i < |ucs| ==>
              r[i] == if u.hasMixer && ucs[i].id == u.id && ucs[i].hasMixer then ucs[i].(taken := true) else ucs[i]
  {
    seq(|ucs|, i requires 0 <= i < |ucs| =>
      if u.hasMixer && ucs[i].id == u.id && ucs[i].hasMixer then ucs[i].(taken := true) else ucs[i]) + [u]
  }

  // ---- which device a use case holds

  /** The first entry of the use case; the others of that id are never looked up. */
  predicate IsFirst(ucs: seq<UseCase>, id: UsecaseId, i: nat) {
    i < |ucs| && ucs[i].id == id && forall j :: 0 <= j < i ==> ucs[j].id != id
  }

  /** The capture entry that a start or re-routing of the primary output re-selects: the first
      one, if it is not hotword capture and records a voice communication. */
  predicate Reselected(ucs: seq<UseCase>, id: UsecaseId, c: Choice, k: nat) {
    && id == AudioPlayback && c.voiceComm
    && k < |ucs| && ucs[k].id == AudioCapture
    && forall j :: 0 <= j < k ==> ucs[j].id != AudioCapture && ucs[j].id != CaptureHotword
  }

  /** The entry holds the device chosen for its direction and none of the other; a hotword entry
      is left alone. */
  predicate Holds(u: UseCase, was: UseCase, c: Choice) {
    if was.id == CaptureHotword then u == was
    else if was.id == AudioCapture then u == was.(outDev := 0, inDev := c.inDev)
    else u == was.(outDev := c.outDev, inDev := 0)
  }

  /** The use case plays to the device or records from it; the combo is both its parts. */
  predicate HoldsDevice(u: UseCase, d: Device) {
    d != 0 && d != 4 && (u.outDev == d || u.inDev == d || (u.outDev == 4 && (d == 2 || d == 3)))
  }

  lemma CountIsHeld(ucs: seq<UseCase>, d: Device)
    ensures Count(ucs, d) > 0 <==> exists k :: 0 <= k < |ucs| && HoldsDevice(ucs[k], d)
  {
    CountPositive(ucs, d);
    assert forall k :: 0 <= k < |ucs| ==> (Uses(ucs[k], d) <==> HoldsDevice(ucs[k], d));
  }

  /** The first entry of the use case is taken off, if there is one. */
  predicate RemovesFirst(before: seq<UseCase>, after: seq<UseCase>, id: UsecaseId) {
    if exists i :: 0 <= i < |before| && before[i].id == id
    then exists i :: 0 <= i < |before| && IsFirst(before, id, i) && after == before[..i] + before[i + 1..]
    else after == before
  }

  lemma WithoutFirstRemoves(ucs: seq<UseCase>, id: UsecaseId)
    ensures RemovesFirst(ucs, WithoutFirst(ucs, id), id)
  {
    var i := IndexOf(ucs, id);
    if i < |ucs| { assert IsFirst(ucs, id, i); }
  }

  /** The speaker leaves the combo of the primary output's first entry. */
  predicate GivesUpSpeaker(before: seq<UseCase>, after: seq<UseCase>) {
    && |after| == |before|
    && forall k :: 0 <= k < |before| ==>
         after[k] == if IsFirst(before, AudioPlayback, k) && before[k].outDev == 4 then before[k].(outDev := 3) else before[k]
  }

  lemma DowngradedGivesUp(ucs: seq<UseCase>)
    ensures GivesUpSpeaker(ucs, Downgraded(ucs))
  {
    forall k | 0 <= k < |ucs| ensures IsFirst(ucs, AudioPlayback, k) <==> k == IndexOf(ucs, AudioPlayback) {}
  }

  /** After a selection the use case's first entry holds the devices chosen, so does the capture
      entry that a primary playback re-selects, and every other entry is as before. */
  ghost predicate HoldsChosen(before: seq<UseCase>, after: seq<UseCase>, id: UsecaseId, c: Choice) {
    && |after| == |before|
    && forall k :: 0 <= k < |before| ==>
         if IsFirst(before, id, k) then Holds(after[k], before[k], c)
         else if Reselected(before, id, c, k) && exists i :: 0 <= i < |before| && before[i].id == id then Holds(after[k], before[k], c)
         else after[k] == before[k]
  }

  lemma SelectedHolds(ucs: seq<UseCase>, id: UsecaseId, c: Choice)
    ensures HoldsChosen(ucs, Selected(ucs, id, c), id, c)
  {
    var r, i, a := Selected(ucs, id, c), IndexOf(ucs, id), FirstCapture(ucs);
    FirstCaptureIsFirst(ucs);
    forall k | 0 <= k < |ucs|
      ensures if IsFirst(ucs, id, k) then Holds(r[k], ucs[k], c)
              else if Reselected(ucs, id, c, k) && exists i :: 0 <= i < |ucs| && ucs[i].id == id then Holds(r[k], ucs[k], c)
              else r[k] == ucs[k]
    {
      assert IsFirst(ucs, id, k) <==> k == i;
      if a < |ucs| && ucs[a].id == AudioCapture { assert IndexOf(ucs, AudioCapture) == a; }
      assert Reselected(ucs, id, c, k) ==> k == a;
    }
  }

  lemma {:induction false} FirstCaptureIsFirst(ucs: seq<UseCase>)
    ensures forall j :: 0 <= j < FirstCapture(ucs) ==> IsPlayback(ucs[j].id)
    decreases |ucs|
  {
    if ucs != [] && IsPlayback(ucs[0].id) {
      FirstCaptureIsFirst(ucs[1..]);
      assert forall j :: 0 < j < FirstCapture(ucs) ==> ucs[j] == ucs[1..][j - 1];
    }
  }

  function Without(ucs: seq<UseCase>, i: nat): seq<UseCase>
    requires i < |ucs|
  {
    ucs[..i] + ucs[i + 1..]
  }

  function WithoutFirst(ucs: seq<UseCase>, id: UsecaseId): seq<UseCase> {
    var i := IndexOf(ucs, id);
    if i == |ucs| then ucs else Without(ucs, i)
  }

  predicate Listed(ucs: seq<UseCase>, id: UsecaseId, stream: nat) {
    exists i :: 0 <= i < |ucs| && ucs[i].id == id && ucs[i].stream == stream
  }

  /** Entries are looked up by use case: a hotword stream listed at k is still listed after its
      stop, and another one is not, exactly if a hotword stream was listed before it. */
  lemma StopTakesOwnEntry(ucs: seq<UseCase>, stream: nat, k: nat)
    requires k < |ucs| && ucs[k].id == CaptureHotword && ucs[k].stream == stream
    requires forall j :: 0 <= j < |ucs| && ucs[j].id == CaptureHotword && ucs[j].stream == stream ==> j == k
    ensures Listed(WithoutFirst(ucs, CaptureHotword), CaptureHotword, stream) <==>
            exists j :: 0 <= j < k && ucs[j].id == CaptureHotword
  {
    var i := IndexOf(ucs, CaptureHotword);
    var r := WithoutFirst(ucs, CaptureHotword);
    assert i <= k && forall j :: 0 <= j < |r| ==> r[j] == ucs[if j < i then j else j + 1];
    if i < k { assert r[k - 1] == ucs[k]; }
  }

  /** Stopping what was just started leaves the other use cases as the start left them. */
  lemma StopUndoesStart(ucs: seq<UseCase>, id: UsecaseId, stream: nat, hasMixer: bool, c: Choice)
    requires forall i :: 0 <= i < |ucs| ==> ucs[i].id != id
    ensures WithoutFirst(Selected(Appended(ucs, Fresh(id, stream, hasMixer)), id, c), id) ==
            if IsPlayback(id) then BeforePlayback(ucs, id, c) else ucs
  {
    var u := Fresh(id, stream, hasMixer);
    assert Appended(ucs, u) == ucs + [u];
    var others, last := SelectedNew(ucs, u, c);
    hide Selected, Appended, BeforePlayback, IndexOf;
    IndexOfLonger(others, last, id);
    assert WithoutFirst(others + [last], id) == others + [];
  }

  /** Selecting the devices of a new last entry. */
  lemma SelectedNew(ucs: seq<UseCase>, u: UseCase, c: Choice) returns (others: seq<UseCase>, last: UseCase)
    requires forall i :: 0 <= i < |ucs| ==> ucs[i].id != u.id
    ensures others == if IsPlayback(u.id) then BeforePlayback(ucs, u.id, c) else ucs
    ensures last.id == u.id && (forall i :: 0 <= i < |others| ==> others[i].id != u.id)
    ensures Selected(ucs + [u], u.id, c) == others + [last]
  {
    IndexOfLonger(ucs, u, u.id);
    others := if IsPlayback(u.id) then BeforePlayback(ucs, u.id, c) else ucs;
    if IsPlayback(u.id) { BeforeLonger(ucs, u, c); }
    assert forall i :: 0 <= i < |others| ==> others[i].id != u.id;
    hide BeforePlayback;
    last := Selected(ucs + [u], u.id, c)[|ucs|];
    assert Selected(ucs + [u], u.id, c) == others + [last];
  }

  lemma BeforeLonger(ucs: seq<UseCase>, u: UseCase, c: Choice)
    requires IsPlayback(u.id)
    ensures BeforePlayback(ucs + [u], u.id, c) == BeforePlayback(ucs, u.id, c) + [u]
  {
    FirstCaptureOfLonger(ucs, u);
    var a := FirstCapture(ucs);
    if a < |ucs| {
      assert (ucs + [u])[a] == ucs[a];
      IndexOfLonger(ucs, u, ucs[a].id);
    }
  }

  lemma {:induction false} IndexOfLonger(ucs: seq<UseCase>, u: UseCase, id: UsecaseId)
    ensures var i := IndexOf(ucs, id);
            IndexOf(ucs + [u], id) == if i < |ucs| then i else if u.id == id then |ucs| else |ucs| + 1
    decreases |ucs|
  {
    if ucs != [] {
      assert (ucs + [u])[1..] == ucs[1..] + [u];
      IndexOfLonger(ucs[1..], u, id);
    }
  }

  lemma {:induction false} FirstCaptureOfLonger(ucs: seq<UseCase>, u: UseCase)
    ensures FirstCapture(ucs) < |ucs| ==> FirstCapture(ucs + [u]) == FirstCapture(ucs)
    ensures FirstCapture(ucs) == |ucs| && IsPlayback(u.id) ==> FirstCapture(ucs + [u]) == |ucs| + 1
    decreases |ucs|
  {
    if ucs != [] {
      assert (ucs + [u])[1..] == ucs[1..] + [u];
      FirstCaptureOfLonger(ucs[1..], u);
    }
  }

  /** Devices of the wrong direction are never held, a hotword use case holds none, and only
      the first listed use case of an id holds any. */
  ghost predicate WellFormed(ucs: seq<UseCase>) {
    && (forall i :: 0 <= i < |ucs| ==> (if IsPlayback(ucs[i].id) then ucs[i].inDev else ucs[i].outDev) == NONE)
    && (forall i :: 0 <= i < |ucs| && ucs[i].id == CaptureHotword ==> ucs[i].inDev == NONE)
    && (forall i, j :: 0 <= i < j < |ucs| && ucs[i].id == ucs[j].id ==> ucs[j].outDev == NONE && ucs[j].inDev == NONE)
  }

  lemma RetargetKeepsWellFormed(ucs: seq<UseCase>, i: nat, outDev: OutDevice, inDev: InDevice)
    requires WellFormed(ucs) && i < |ucs| && i == IndexOf(ucs, ucs[i].id)
    requires if IsPlayback(ucs[i].id) then inDev == NONE else outDev == NONE && (inDev == NONE || ucs[i].id == AudioCapture)
    ensures WellFormed(Retarget(ucs, i, outDev, inDev))
  {
  }

  /** No two devices in use share a mixer path name. */
  ghost predicate NoClash(cnt: seq<int>)
    requires |cnt| == DEVICE_MAX
  {
    forall d: Device, e: Device :: cnt[d] > 0 && cnt[e] > 0 && Path(d) == Path(e) ==> d == e
  }

  /** Devices that share a path name are microphones, and only one use case holds one. */
  lemma SharedPathIsOneDevice(ucs: seq<UseCase>, d: Device, e: Device)
    requires WellFormed(ucs) && Count(ucs, d) > 0 && Count(ucs, e) > 0 && Path(d) == Path(e)
    ensures d == e
  {
    CountPositive(ucs, d);
    CountPositive(ucs, e);
    var i :| 0 <= i < |ucs| && Uses(ucs[i], d);
    var j :| 0 <= j < |ucs| && Uses(ucs[j], e);
    if d >= IN_BEGIN {
      assert ucs[i].id == AudioCapture && ucs[j].id == AudioCapture;
    }
  }

  lemma CountsDoNotClash(ucs: seq<UseCase>, cnt: seq<int>)
    requires WellFormed(ucs) && |cnt| == DEVICE_MAX
    requires forall d: Device :: cnt[d] <= Count(ucs, d)
    ensures NoClash(cnt)
  {
    forall d: Device, e: Device | cnt[d] > 0 && cnt[e] > 0 && Path(d) == Path(e) ensures d == e {
      SharedPathIsOneDevice(ucs, d, e);
    }
  }

  /** The paths of the devices with a positive count. */
  ghost function Paths(cnt: seq<int>): set<Device>
    requires |cnt| == DEVICE_MAX
  {
    set d: Device | cnt[d] > 0 :: Path(d)
  }

  lemma PathApplied(cnt: seq<int>, d: Device)
    requires |cnt| == DEVICE_MAX && cnt[d] >= 0
    ensures Paths(cnt[d := cnt[d] + 1]) == Paths(cnt) + {Path(d)}
    ensures cnt[d] > 0 ==> Path(d) in Paths(cnt)
  {
  }

  /** Resetting a path with the last use of its device takes away that path only. */
  lemma PathReset(cnt: seq<int>, d: Device)
    requires |cnt| == DEVICE_MAX && cnt[d] > 0 && NoClash(cnt)
    ensures Paths(cnt[d := cnt[d] - 1]) == if cnt[d] == 1 then Paths(cnt) - {Path(d)} else Paths(cnt)
  {
  }

  lemma RetargetCounts(ucs: seq<UseCase>, i: nat, outDev: OutDevice, inDev: InDevice, d: Device)
    requires i < |ucs|
    ensures Count(Retarget(ucs, i, outDev, inDev), d) ==
            Count(ucs, d) - (if Uses(ucs[i], d) then 1 else 0)
            + (if Expands(outDev, d) || Expands(inDev, d) then 1 else 0)
  {
    var after := Retarget(ucs, i, outDev, inDev);
    CountSplit(ucs, i, d);
    CountSplit(after, i, d);
    assert after[..i] == ucs[..i] && after[i + 1..] == ucs[i + 1..];
  }

  lemma WithoutCounts(ucs: seq<UseCase>, i: nat, d: Device)
    requires i < |ucs|
    ensures Count(Without(ucs, i), d) == Count(ucs, d) - (if Uses(ucs[i], d) then 1 else 0)
  {
    CountSplit(ucs, i, d);
    CountAppend(ucs[..i], ucs[i + 1..], d);
  }

  lemma AppendedWellFormed(ucs: seq<UseCase>, u: UseCase)
    requires WellFormed(ucs) && u.outDev == NONE && u.inDev == NONE
    ensures WellFormed(Appended(ucs, u))
  {
  }

  lemma WithoutKeepsWellFormed(ucs: seq<UseCase>, i: nat)
    requires i < |ucs| && WellFormed(ucs)
    ensures WellFormed(Without(ucs, i))
  {
  }

  lemma {:induction false} SameUses(a: seq<UseCase>, b: seq<UseCase>, d: Device)
    requires |a| == |b| && forall i :: 0 <= i < |a| ==> a[i].outDev == b[i].outDev && a[i].inDev == b[i].inDev
    ensures Count(a, d) == Count(b, d)
    decreases |a|
  {
    if a != [] { SameUses(a[1..], b[1..], d); }
  }

  lemma AppendedCounts(ucs: seq<UseCase>, u: UseCase, d: Device)
    requires u.outDev == NONE && u.inDev == NONE
    ensures Count(Appended(ucs, u), d) == Count(ucs, d)
  {
    var r := Appended(ucs, u);
    assert r == r[..|ucs|] + [u];
    CountAppend(r[..|ucs|], [u], d);
    SameUses(r[..|ucs|], ucs, d);
  }

  /** The device part of the audio HAL. */
  class AudioDevice {
    var refCnt: array<int>
    var usecases: seq<UseCase>
    /** The mixer paths now applied. */
    var applied: set<Device>
    /** A mixer list that runs into another was walked: the call does not return, and the device
        lock is never given back. */
    var stuck: bool
    /** How often a device was disabled whose count was already 0. */
    ghost var alreadyZero: nat
    /** No use case without a mixer card was ever listed. */
    ghost var allMixers: bool

    ghost predicate Valid() reads this, refCnt {
      && refCnt.Length == DEVICE_MAX
      && WellFormed(usecases)
      && (forall d: Device :: refCnt[d] == Count(usecases, d))
      && Mixed(refCnt[..])
      && alreadyZero == 0
    }

    /** While every use case has a mixer card the applied paths are those of devices in use. */
    ghost predicate Mixed(cnt: seq<int>)
      requires |cnt| == DEVICE_MAX
      reads this
    {
      allMixers ==> applied == Paths(cnt) && forall i :: 0 <= i < |usecases| ==> usecases[i].hasMixer
    }

    /** A device is in use exactly if a listed use case holds it, and with mixer cards its path is
        then applied. */
    ghost predicate DevicesMatch()
      reads this, refCnt
    {
      && refCnt.Length == DEVICE_MAX
      && (forall d: Device :: refCnt[d] > 0 <==> exists k :: 0 <= k < |usecases| && HoldsDevice(usecases[k], d))
      && (allMixers ==> forall d: Device :: refCnt[d] > 0 ==> Path(d) in applied)
    }

    lemma ValidMatches()
      requires Valid()
      ensures DevicesMatch()
    {
      forall d: Device ensures refCnt[d] > 0 <==> exists k :: 0 <= k < |usecases| && HoldsDevice(usecases[k], d) {
        CountIsHeld(usecases, d);
      }
    }

    constructor ()
      ensures Valid() && !stuck && usecases == [] && allMixers && fresh(refCnt)
    {
      refCnt := new int[DEVICE_MAX](_ => 0);
      usecases, applied, stuck, alreadyZero, allMixers := [], {}, false, 0, true;
      new;
      assert forall d: Device :: refCnt[d] == 0;
      assert Paths(refCnt[..]) == {};
    }

    /** list_for_each over the mixer cards of a use case. */
    method WalkMixers(u: UseCase)
      modifies this`stuck
      ensures stuck == (old(stuck) || Broken(u))
    {
      if u.hasMixer && u.taken { stuck := true; }
    }

    /** One device that is not the combo. */
    method EnableOne(u: UseCase, dev: Device)
      requires refCnt.Length == DEVICE_MAX && refCnt[dev] >= 0
      requires allMixers ==> u.hasMixer && applied == Paths(refCnt[..])
      modifies this`applied, this`stuck, refCnt
      ensures refCnt[..] == old(refCnt[..])[dev := old(refCnt[dev]) + 1]
      ensures allMixers ==> applied == Paths(refCnt[..])
      ensures stuck == (old(stuck) || (Broken(u) && old(refCnt[dev]) == 0))
    {
      ghost var cnt := refCnt[..];
      PathApplied(cnt, dev);
      refCnt[dev] := refCnt[dev] + 1;
      if refCnt[dev] > 1 { return; }
      WalkMixers(u);
      if u.hasMixer { applied := applied + {Path(dev)}; }
    }

    method EnableSndDevice(u: UseCase, dev: Device)
      requires refCnt.Length == DEVICE_MAX && forall d: Device :: refCnt[d] >= 0
      requires allMixers ==> u.hasMixer && applied == Paths(refCnt[..])
      modifies this`applied, this`stuck, refCnt
      ensures forall d: Device :: refCnt[d] == old(refCnt[d]) + if Expands(dev, d) then 1 else 0
      ensures allMixers ==> applied == Paths(refCnt[..])
      ensures stuck == (old(stuck) || (Broken(u) && exists d: Device :: Expands(dev, d) && old(refCnt[d]) == 0))
    {
      if dev == NONE { return; }
      if dev == OUT_SPEAKER_AND_HEADPHONES {
        assert Expands(dev, OUT_SPEAKER) && Expands(dev, OUT_HEADPHONES);
        EnableOne(u, OUT_SPEAKER);
        EnableOne(u, OUT_HEADPHONES);
        return;
      }
      assert Expands(dev, dev);
      EnableOne(u, dev);
    }

    method DisableOne(u: UseCase, dev: Device) returns (ok: bool)
      requires refCnt.Length == DEVICE_MAX
      requires allMixers ==> u.hasMixer && applied == Paths(refCnt[..]) && NoClash(refCnt[..])
      modifies this`applied, this`stuck, this`alreadyZero, refCnt
      ensures ok == (old(refCnt[dev]) > 0)
      ensures alreadyZero == old(alreadyZero) + if ok then 0 else 1
      ensures refCnt[..] == if ok then old(refCnt[..])[dev := old(refCnt[dev]) - 1] else old(refCnt[..])
      ensures allMixers ==> applied == Paths(refCnt[..]) && NoClash(refCnt[..])
      ensures stuck == (old(stuck) || (Broken(u) && old(refCnt[dev]) == 1))
    {
      if refCnt[dev] <= 0 {
        alreadyZero := alreadyZero + 1;
        return false;
      }
      if allMixers { PathReset(refCnt[..], dev); }
      refCnt[dev] := refCnt[dev] - 1;
      if refCnt[dev] == 0 {
        WalkMixers(u);
        if u.hasMixer { applied := applied - {Path(dev)}; }
      }
      return true;
    }

    method DisableSndDevice(u: UseCase, dev: Device)
      requires refCnt.Length == DEVICE_MAX
      requires allMixers ==> u.hasMixer && applied == Paths(refCnt[..]) && NoClash(refCnt[..])
      modifies this`applied, this`stuck, this`alreadyZero, refCnt
      ensures forall d: Device :: refCnt[d] == old(refCnt[d]) - if Expands(dev, d) && old(refCnt[d]) > 0 then 1 else 0
      ensures alreadyZero == old(alreadyZero) <==> forall d: Device :: Expands(dev, d) ==> old(refCnt[d]) > 0
      ensures allMixers ==> applied == Paths(refCnt[..]) && NoClash(refCnt[..])
      ensures stuck == (old(stuck) || (Broken(u) && exists d: Device :: Expands(dev, d) && old(refCnt[d]) == 1))
    {
      if dev == NONE { return; }
      if dev == OUT_SPEAKER_AND_HEADPHONES {
        assert Expands(dev, OUT_SPEAKER) && Expands(dev, OUT_HEADPHONES);
        var _ := DisableOne(u, OUT_SPEAKER);
        var _ := DisableOne(u, OUT_HEADPHONES);
        return;
      }
      assert Expands(dev, dev);
      var _ := DisableOne(u, dev);
    }

    method SwitchOff(i: nat)
      requires Valid() && i < |usecases|
      modifies this`applied, this`stuck, this`alreadyZero, refCnt
      ensures refCnt.Length == DEVICE_MAX
      ensures forall d: Device :: refCnt[d] == Count(usecases, d) - if Uses(usecases[i], d) then 1 else 0
      ensures forall d: Device :: refCnt[d] >= 0
      ensures allMixers ==> applied == Paths(refCnt[..])
      ensures alreadyZero == 0
      ensures stuck ==> old(stuck) || Broken(usecases[i])
    {
      CountsDoNotClash(usecases, refCnt[..]);
      hide WellFormed, NoClash, Paths;
      var u := usecases[i];
      forall d: Device ensures Uses(u, d) ==> refCnt[d] > 0 { CountSplit(usecases, i, d); }
      hide Count;
      if u.outDev != NONE { DisableSndDevice(u, u.outDev); }
      if u.inDev != NONE { DisableSndDevice(u, u.inDev); }
    }

    /** The switching half of select_devices: old devices off, new devices on, and the use case's
        mixers updated. */
    method SwitchDevices(i: nat, outDev: OutDevice, inDev: InDevice)
      requires Valid() && !stuck && i < |usecases| && WellFormed(Retarget(usecases, i, outDev, inDev))
      modifies this, refCnt
      ensures Valid() && refCnt == old(refCnt) && allMixers == old(allMixers)
      ensures usecases == Retarget(old(usecases), i, outDev, inDev)
      ensures stuck == Broken(old(usecases)[i])
    {
      var u := usecases[i];
      SwitchOff(i);
      hide WellFormed, Paths, Count;
      if outDev != NONE { EnableSndDevice(u, outDev); }
      if inDev != NONE { EnableSndDevice(u, inDev); }
      WalkMixers(u);
      forall d: Device ensures refCnt[d] == Count(Retarget(usecases, i, outDev, inDev), d) {
        RetargetCounts(usecases, i, outDev, inDev, d);
      }
      usecases := Retarget(usecases, i, outDev, inDev);
    }

    method SelectDevices(id: UsecaseId, c: Choice) returns (ok: bool)
      requires Valid() && !stuck
      modifies this, refCnt
      ensures refCnt == old(refCnt) && stuck == SelectWalks(old(usecases), id, c)
      ensures !stuck ==>
                && Valid() && allMixers == old(allMixers)
                && usecases == Selected(old(usecases), id, c)
                && ok == (id == CaptureHotword || exists i :: 0 <= i < |old(usecases)| && old(usecases)[i].id == id)
      ensures !stuck ==> HoldsChosen(old(usecases), usecases, id, c) && DevicesMatch()
    {
      ok := SelectFor(id, c);
      if !stuck {
        SelectedHolds(old(usecases), id, c);
        ValidMatches();
      }
    }

    /** The body of select_devices. */
    method SelectFor(id: UsecaseId, c: Choice) returns (ok: bool)
      requires Valid() && !stuck
      modifies this, refCnt
      ensures refCnt == old(refCnt) && stuck == SelectWalks(old(usecases), id, c)
      ensures !stuck ==>
                && Valid() && allMixers == old(allMixers)
                && usecases == Selected(old(usecases), id, c)
                && ok == (id == CaptureHotword || exists i :: 0 <= i < |old(usecases)| && old(usecases)[i].id == id)
      decreases if IsPlayback(id) then 1 else 0
    {
      if id == CaptureHotword { return true; }
      hide Paths, Count, WellFormed, Expands;
      var active := FirstCapture(usecases);
      var i := IndexOf(usecases, id);
      if i == |usecases| { return false; }
      assert usecases[i].id == id;
      ghost var before := usecases;
      var outDev, inDev := NONE, NONE;
      if IsPlayback(id) {
        outDev := c.outDev;
        if id == AudioPlayback && active < |usecases| && c.voiceComm {
          ok := SelectFor(usecases[active].id, c);
          if stuck { return; }
        }
      } else {
        inDev := c.inDev;
      }
      assert usecases == if IsPlayback(id) then BeforePlayback(before, id, c) else before;
      assert usecases[i].id == id && i == IndexOf(usecases, id);
      assert IsPlayback(id) ==> usecases[i] == before[i];
      RetargetKeepsWellFormed(usecases, i, outDev, inDev);
      ok := true;
      if outDev == usecases[i].outDev && inDev == usecases[i].inDev {
        assert usecases == Retarget(usecases, i, outDev, inDev);
        return;
      }
      SwitchDevices(i, outDev, inDev);
    }

    method Append(u: UseCase)
      requires Valid() && u.outDev == NONE && u.inDev == NONE
      modifies this`usecases, this`applied, this`allMixers
      ensures Valid() && usecases == Appended(old(usecases), u)
      ensures allMixers == (old(allMixers) && u.hasMixer)
    {
      forall d: Device ensures Count(Appended(usecases, u), d) == Count(usecases, d) {
        AppendedCounts(usecases, u, d);
      }
      AppendedWellFormed(usecases, u);
      usecases := Appended(usecases, u);
      allMixers := allMixers && u.hasMixer;
    }

    /** Turns one use case's device off and takes it off the list. */
    method Drop(i: nat, dev: Device)
      requires Valid() && !stuck && i < |usecases|
      requires dev == if IsPlayback(usecases[i].id) then usecases[i].outDev else usecases[i].inDev
      modifies this, refCnt
      ensures Valid() && refCnt == old(refCnt) && allMixers == old(allMixers)
      ensures usecases == Without(old(usecases), i)
      ensures stuck == DropWalks(old(usecases), i)
    {
      ghost var before := usecases;
      CountsDoNotClash(usecases, refCnt[..]);
      forall d: Device | Uses(usecases[i], d) ensures refCnt[d] > 0 { CountSplit(usecases, i, d); }
      DisableSndDevice(usecases[i], dev);
      forall d: Device ensures refCnt[d] == Count(Without(before, i), d) {
        WithoutCounts(before, i, d);
      }
      WithoutKeepsWellFormed(usecases, i);
      usecases := usecases[..i] + usecases[i + 1..];
    }

    method EnableOutputPath(id: UsecaseId, stream: nat, hasMixer: bool, c: Choice)
      requires Valid() && !stuck && IsPlayback(id)
      modifies this, refCnt
      ensures refCnt == old(refCnt)
      ensures var listed := Appended(old(usecases), Fresh(id, stream, hasMixer));
              && stuck == SelectWalks(listed, id, c)
              && (!stuck ==> Valid() && allMixers == (old(allMixers) && hasMixer) && usecases == Selected(listed, id, c))
              && (!stuck ==> HoldsChosen(listed, usecases, id, c) && DevicesMatch())
    {
      Append(Fresh(id, stream, hasMixer));
      var _ := SelectDevices(id, c);
    }

    /** disable_output_path_l and stop_input_stream. */
    method StopUseCase(id: UsecaseId) returns (ok: bool)
      requires Valid() && !stuck
      modifies this, refCnt
      ensures refCnt == old(refCnt) && stuck == StopWalks(old(usecases), id)
      ensures !stuck ==>
                && Valid() && allMixers == old(allMixers)
                && ok == (exists i :: 0 <= i < |old(usecases)| && old(usecases)[i].id == id)
                && usecases == WithoutFirst(old(usecases), id)
      ensures !stuck ==> RemovesFirst(old(usecases), usecases, id) && DevicesMatch()
    {
      WithoutFirstRemoves(usecases, id);
      ok := StopFirst(id);
      if !stuck { ValidMatches(); }
    }

    method StopFirst(id: UsecaseId) returns (ok: bool)
      requires Valid() && !stuck
      modifies this, refCnt
      ensures refCnt == old(refCnt) && stuck == StopWalks(old(usecases), id)
      ensures !stuck ==>
                && Valid() && allMixers == old(allMixers)
                && ok == (exists i :: 0 <= i < |old(usecases)| && old(usecases)[i].id == id)
                && usecases == WithoutFirst(old(usecases), id)
    {
      var i := IndexOf(usecases, id);
      if i == |usecases| { return false; }
      assert usecases[i].id == id;
      Drop(i, if IsPlayback(id) then usecases[i].outDev else usecases[i].inDev);
      return true;
    }

    /** A start whose PCM does not open is undone.  `resamples`: no error of create_resampler is
        left in the result; where one is, the start has failed and stays listed. */
    method StartInput(id: UsecaseId, stream: nat, profileFound: bool, opens: bool, resamples: bool, c: Choice) returns (started: bool)
      requires Valid() && !stuck && !IsPlayback(id)
      modifies this, refCnt
      ensures refCnt == old(refCnt)
      ensures stuck == OpWalks(old(usecases), StartIn(id, stream, profileFound, opens, resamples, c))
      ensures !stuck ==>
                && Valid() && allMixers == old(allMixers)
                && started == (profileFound && opens && resamples)
                && usecases == AfterOp(old(usecases), StartIn(id, stream, profileFound, opens, resamples, c))
                && Does(old(usecases), usecases, StartIn(id, stream, profileFound, opens, resamples, c))
    {
      OpDoes(usecases, StartIn(id, stream, profileFound, opens, resamples, c));
      if !profileFound { return false; }
      Append(Fresh(id, stream, true));
      started := SelectDevices(id, c);
      if stuck { return; }
      if opens { return resamples; }
      started := StopUseCase(id);
      return false;
    }

    method StartOutput(id: UsecaseId, stream: nat, hasMixer: bool, opens: bool, c: Choice) returns (started: bool)
      requires Valid() && !stuck && IsPlayback(id)
      modifies this, refCnt
      ensures refCnt == old(refCnt)
      ensures stuck == OpWalks(old(usecases), StartOut(id, stream, hasMixer, opens, c))
      ensures !stuck ==>
                && Valid() && allMixers == (old(allMixers) && hasMixer)
                && started == opens
                && usecases == AfterOp(old(usecases), StartOut(id, stream, hasMixer, opens, c))
                && Does(old(usecases), usecases, StartOut(id, stream, hasMixer, opens, c))
    {
      OpDoes(usecases, StartOut(id, stream, hasMixer, opens, c));
      EnableOutputPath(id, stream, hasMixer, c);
      if stuck { return false; }
      if opens { return true; }
      started := StopUseCase(id);
      return false;
    }

    /** Re-routing of a running offload stream takes the speaker from a primary output that
        plays to speaker and headphones. */
    method DowngradeCombo()
      requires Valid() && !stuck
      modifies this, refCnt
      ensures refCnt == old(refCnt) && stuck == DowngradeWalks(old(usecases))
      ensures !stuck ==> Valid() && allMixers == old(allMixers) && usecases == Downgraded(old(usecases))
      ensures !stuck ==> GivesUpSpeaker(old(usecases), usecases)
    {
      DowngradedGivesUp(usecases);
      var i := IndexOf(usecases, AudioPlayback);
      if i < |usecases| && usecases[i].outDev == OUT_SPEAKER_AND_HEADPHONES {
        ghost var before := usecases;
        CountsDoNotClash(usecases, refCnt[..]);
        assert Uses(usecases[i], OUT_SPEAKER);
        CountSplit(usecases, i, OUT_SPEAKER);
        DisableSndDevice(usecases[i], OUT_SPEAKER);
        forall d: Device ensures refCnt[d] == Count(Downgraded(before), d) {
          RetargetCounts(before, i, OUT_HEADPHONES, NONE, d);
        }
        usecases := usecases[i := usecases[i].(outDev := OUT_HEADPHONES)];
      }
    }

    method Reroute(id: UsecaseId, c: Choice) returns (ok: bool)
      requires Valid() && !stuck
      modifies this, refCnt
      ensures refCnt == old(refCnt) && stuck == OpWalks(old(usecases), Op.Reroute(id, c))
      ensures !stuck ==>
                Valid() && allMixers == old(allMixers) && usecases == AfterOp(old(usecases), Op.Reroute(id, c))
      ensures !stuck ==> Does(old(usecases), usecases, Op.Reroute(id, c))
    {
      OpDoes(usecases, Op.Reroute(id, c));
      if id == Offload {
        DowngradeCombo();
        if stuck { return false; }
      }
      ok := SelectDevices(id, c);
    }

    method Do(op: Op)
      requires Valid() && !stuck
      modifies this, refCnt
      ensures refCnt == old(refCnt) && stuck == OpWalks(old(usecases), op)
      ensures !stuck ==> Valid() && usecases == AfterOp(old(usecases), op) && Does(old(usecases), usecases, op)
    {
      OpDoes(usecases, op);
      match op
      case StartOut(id, stream, hasMixer, opens, c) =>
        if IsPlayback(id) { var _ := StartOutput(id, stream, hasMixer, opens, c); }
      case StartIn(id, stream, found, opens, resamples, c) =>
        if !IsPlayback(id) { var _ := StartInput(id, stream, found, opens, resamples, c); }
      case Stop(id) =>
        var _ := StopUseCase(id);
      case Reroute(id, c) =>
        var _ := Reroute(id, c);
      case Select(id, c) =>
        var _ := SelectDevices(id, c);
    }

    /** Any run of the operations: it gets stuck exactly if some operation of it walks a mixer list
        whose node was taken; otherwise every count is that of the uses listed, none was taken
        below 0, and the paths applied are those in use. */
    method Run(ops: seq<Op>)
      requires Valid() && !stuck
      modifies this, refCnt
      ensures refCnt == old(refCnt)
      ensures stuck <==> Ever(Next, OpWalks, old(usecases), ops)
      ensures !stuck ==>
                && Valid() && alreadyZero == 0 && DevicesMatch()
                && Exec(Next, old(usecases), ops) == Some(usecases) && Follows(old(usecases), usecases, ops)
                && (forall d: Device :: refCnt[d] == Count(usecases, d))
                && (allMixers ==> forall d: Device ::
                      Path(d) in applied <==> exists e: Device :: Path(e) == Path(d) && refCnt[e] > 0)
    {
      var k := 0;
      ghost var first := usecases;
      while k < |ops|
        invariant k <= |ops| && !stuck && Valid() && refCnt == old(refCnt)
        invariant Ever(Next, OpWalks, first, ops) <==> Ever(Next, OpWalks, usecases, ops[k..])
        invariant Exec(Next, first, ops) == Exec(Next, usecases, ops[k..])
      {
        assert ops[k..][0] == ops[k] && ops[k..][1..] == ops[k + 1..];
        Do(ops[k]);
        if stuck { return; }
        k := k + 1;
      }
      ValidMatches();
      RunFollows(first, ops);
    }
  }

  /** A start lists the stream and selects its devices; one whose device does not open is taken off
      again. */
  ghost predicate Starts(before: seq<UseCase>, after: seq<UseCase>, u: UseCase, opens: bool, c: Choice) {
    exists selected :: HoldsChosen(Appended(before, u), selected, u.id, c) &&
                       if opens then after == selected else RemovesFirst(selected, after, u.id)
  }

  /** What an operation does to the list, in terms of the entries. */
  ghost predicate Does(before: seq<UseCase>, after: seq<UseCase>, op: Op) {
    match op
    case StartOut(id, stream, hasMixer, opens, c) =>
      if IsPlayback(id) then Starts(before, after, UseCase(id, stream, 0, 0, hasMixer, false), opens, c) else after == before
    case StartIn(id, stream, found, opens, _, c) =>
      if !IsPlayback(id) && found then Starts(before, after, UseCase(id, stream, 0, 0, true, false), opens, c) else after == before
    case Stop(id) => RemovesFirst(before, after, id)
    case Reroute(id, c) =>
      if id == Offload then exists mid :: GivesUpSpeaker(before, mid) && HoldsChosen(mid, after, id, c)
      else HoldsChosen(before, after, id, c)
    case Select(id, c) => HoldsChosen(before, after, id, c)
  }

  lemma StartedStarts(ucs: seq<UseCase>, u: UseCase, opens: bool, c: Choice)
    ensures Starts(ucs, Started(ucs, u, opens, c), u, opens, c)
  {
    var selected := Selected(Appended(ucs, u), u.id, c);
    SelectedHolds(Appended(ucs, u), u.id, c);
    WithoutFirstRemoves(selected, u.id);
  }

  lemma OpDoes(ucs: seq<UseCase>, op: Op)
    ensures Does(ucs, AfterOp(ucs, op), op)
  {
    hide Selected, Downgraded, HoldsChosen, RemovesFirst, GivesUpSpeaker, Started, Starts;
    match op
    case StartOut(id, stream, hasMixer, opens, c) => StartedStarts(ucs, Fresh(id, stream, hasMixer), opens, c);
    case StartIn(id, stream, _, opens, _, c) => StartedStarts(ucs, Fresh(id, stream, true), opens, c);
    case Stop(id) => WithoutFirstRemoves(ucs, id);
    case Reroute(id, c) =>
      DowngradedGivesUp(ucs);
      SelectedHolds(ucs, id, c);
      SelectedHolds(Downgraded(ucs), id, c);
    case Select(id, c) => SelectedHolds(ucs, id, c);
  }

  /** Each operation of the run does what it is to do, in turn. */
  ghost predicate Follows(before: seq<UseCase>, after: seq<UseCase>, ops: seq<Op>)
    decreases |ops|
  {
    if ops == [] then after == before
    else exists next :: Does(before, next, ops[0]) && Follows(next, after, ops[1..])
  }

  lemma {:induction false} RunFollows(ucs: seq<UseCase>, ops: seq<Op>)
    ensures Exec(Next, ucs, ops).Some? && Follows(ucs, Exec(Next, ucs, ops).value, ops)
    decreases |ops|
  {
    if ops != [] {
      OpDoes(ucs, ops[0]);
      hide Does, AfterOp;
      RunFollows(AfterOp(ucs, ops[0]), ops[1..]);
    }
  }

  datatype Op =
    | StartOut(id: UsecaseId, stream: nat, hasMixer: bool, opens: bool, choice: Choice)
    | StartIn(id: UsecaseId, stream: nat, profileFound: bool, opens: bool, resamples: bool, choice: Choice)
    | Stop(id: UsecaseId)
    | Reroute(id: UsecaseId, choice: Choice)
    | Select(id: UsecaseId, choice: Choice)

  function Started(ucs: seq<UseCase>, u: UseCase, opens: bool, c: Choice): seq<UseCase> {
    var listed := Selected(Appended(ucs, u), u.id, c);
    if opens then listed else WithoutFirst(listed, u.id)
  }

  /** The list after an operation that returns. */
  function AfterOp(ucs: seq<UseCase>, op: Op): seq<UseCase> {
    match op
    case StartOut(id, stream, hasMixer, opens, c) =>
      if IsPlayback(id) then Started(ucs, Fresh(id, stream, hasMixer), opens, c) else ucs
    case StartIn(id, stream, found, opens, _, c) =>
      if !IsPlayback(id) && found then Started(ucs, Fresh(id, stream, true), opens, c) else ucs
    case Stop(id) => WithoutFirst(ucs, id)
    case Reroute(id, c) => Selected(if id == Offload then Downgraded(ucs) else ucs, id, c)
    case Select(id, c) => Selected(ucs, id, c)
  }

  function Next(ucs: seq<UseCase>, op: Op): Option<seq<UseCase>> {
    Some(AfterOp(ucs, op))
  }

  // ---- the operations that walk a mixer list whose node was taken

  predicate CaptureWalks(ucs: seq<UseCase>, id: UsecaseId, c: Choice) {
    var i := IndexOf(ucs, id);
    id != CaptureHotword && i < |ucs| && Broken(ucs[i]) && !(ucs[i].outDev == NONE && ucs[i].inDev == c.inDev)
  }

  /** Selection walks the list of a use case whose devices change. */
  predicate SelectWalks(ucs: seq<UseCase>, id: UsecaseId, c: Choice) {
    var i, a := IndexOf(ucs, id), FirstCapture(ucs);
    if !IsPlayback(id) then CaptureWalks(ucs, id, c)
    else
      i < |ucs| &&
      (|| (id == AudioPlayback && a < |ucs| && c.voiceComm && CaptureWalks(ucs, ucs[a].id, c))
       || (Broken(ucs[i]) && !(ucs[i].outDev == c.outDev && ucs[i].inDev == NONE)))
  }

  /** Turning a device off walks the list of its last user. */
  ghost predicate DropWalks(ucs: seq<UseCase>, i: nat)
    requires i < |ucs|
  {
    Broken(ucs[i]) &&
    exists d: Device :: Expands(if IsPlayback(ucs[i].id) then ucs[i].outDev else ucs[i].inDev, d) && Count(ucs, d) == 1
  }

  ghost predicate StopWalks(ucs: seq<UseCase>, id: UsecaseId) {
    var i := IndexOf(ucs, id);
    i < |ucs| && DropWalks(ucs, i)
  }

  predicate DowngradeWalks(ucs: seq<UseCase>) {
    var i := IndexOf(ucs, AudioPlayback);
    i < |ucs| && ucs[i].outDev == OUT_SPEAKER_AND_HEADPHONES && Broken(ucs[i]) && Count(ucs, OUT_SPEAKER) == 1
  }

  ghost predicate StartWalks(ucs: seq<UseCase>, u: UseCase, opens: bool, c: Choice) {
    var listed := Appended(ucs, u);
    SelectWalks(listed, u.id, c) || (!opens && StopWalks(Selected(listed, u.id, c), u.id))
  }

  ghost predicate OpWalks(ucs: seq<UseCase>, op: Op) {
    match op
    case StartOut(id, stream, hasMixer, opens, c) =>
      IsPlayback(id) && StartWalks(ucs, Fresh(id, stream, hasMixer), opens, c)
    case StartIn(id, stream, found, opens, _, c) =>
      !IsPlayback(id) && found && StartWalks(ucs, Fresh(id, stream, true), opens, c)
    case Stop(id) => StopWalks(ucs, id)
    case Reroute(id, c) =>
      (id == Offload && DowngradeWalks(ucs)) || SelectWalks(if id == Offload then Downgraded(ucs) else ucs, id, c)
    case Select(id, c) => SelectWalks(ucs, id, c)
  }

  /** A use case is listed that is listed already, both with a mixer card. */
  predicate ListsAgain(ucs: seq<UseCase>, op: Op) {
    && (op.StartOut? || op.StartIn?)
    && (op.StartOut? ==> IsPlayback(op.id) && op.hasMixer)
    && (op.StartIn? ==> !IsPlayback(op.id) && op.profileFound)
    && exists i :: 0 <= i < |ucs| && ucs[i].id == op.id && ucs[i].hasMixer
  }

  ghost predicate NoneTaken(ucs: seq<UseCase>) {
    forall i :: 0 <= i < |ucs| ==> !Broken(ucs[i])
  }

  lemma SelectedTakesNone(ucs: seq<UseCase>, id: UsecaseId, c: Choice)
    requires NoneTaken(ucs)
    ensures NoneTaken(Selected(ucs, id, c)) && NoneTaken(WithoutFirst(ucs, id)) && NoneTaken(Downgraded(ucs))
  {
    CaptureTakesNone(ucs, id, c);
    BeforePlaybackTakesNone(ucs, id, c);
    var i := IndexOf(ucs, id);
    if i < |ucs| {
      WithoutTakesNone(ucs, i);
      RetargetTakesNone(BeforePlayback(ucs, id, c), i, c.outDev, NONE);
    }
    var a := IndexOf(ucs, AudioPlayback);
    if a < |ucs| { RetargetTakesNone(ucs, a, OUT_HEADPHONES, ucs[a].inDev); }
    hide BeforePlayback, CaptureSelected, Retarget, Without, IndexOf;
  }

  lemma WithoutTakesNone(ucs: seq<UseCase>, i: nat)
    requires NoneTaken(ucs) && i < |ucs|
    ensures NoneTaken(Without(ucs, i))
  {
  }

  lemma RetargetTakesNone(ucs: seq<UseCase>, i: nat, outDev: OutDevice, inDev: InDevice)
    requires NoneTaken(ucs) && i < |ucs|
    ensures NoneTaken(Retarget(ucs, i, outDev, inDev))
    ensures Retarget(ucs, i, outDev, inDev) == ucs[i := ucs[i].(outDev := outDev, inDev := inDev)]
  {
  }

  lemma CaptureTakesNone(ucs: seq<UseCase>, id: UsecaseId, c: Choice)
    requires NoneTaken(ucs)
    ensures !IsPlayback(id) ==> NoneTaken(CaptureSelected(ucs, id, c))
  {
  }

  lemma BeforePlaybackTakesNone(ucs: seq<UseCase>, id: UsecaseId, c: Choice)
    requires NoneTaken(ucs)
    ensures NoneTaken(BeforePlayback(ucs, id, c))
  {
    var i := FirstCapture(ucs);
    if i < |ucs| { CaptureTakesNone(ucs, ucs[i].id, c); }
    hide CaptureSelected, NoneTaken;
  }

  lemma OpTakesNone(ucs: seq<UseCase>, op: Op)
    requires NoneTaken(ucs) && !ListsAgain(ucs, op)
    ensures NoneTaken(AfterOp(ucs, op)) && !OpWalks(ucs, op)
  {
    match op
    case StartOut(id, stream, hasMixer, opens, c) =>
      if IsPlayback(id) { StartTakesNone(ucs, Fresh(id, stream, hasMixer), opens, c); }
    case StartIn(id, stream, found, opens, _, c) =>
      if !IsPlayback(id) && found { StartTakesNone(ucs, Fresh(id, stream, true), opens, c); }
    case Stop(id) => SelectedTakesNone(ucs, id, Choice(NONE, NONE, false));
    case Reroute(id, c) =>
      SelectedTakesNone(ucs, id, c);
      SelectedTakesNone(Downgraded(ucs), id, c);
    case Select(id, c) => SelectedTakesNone(ucs, id, c);
  }

  lemma StartTakesNone(ucs: seq<UseCase>, u: UseCase, opens: bool, c: Choice)
    requires NoneTaken(ucs) && !u.taken
    requires u.hasMixer ==> forall i :: 0 <= i < |ucs| ==> !(ucs[i].id == u.id && ucs[i].hasMixer)
    ensures NoneTaken(Started(ucs, u, opens, c)) && !StartWalks(ucs, u, opens, c)
  {
    var listed := Appended(ucs, u);
    assert NoneTaken(listed);
    SelectedTakesNone(listed, u.id, c);
    SelectedTakesNone(Selected(listed, u.id, c), u.id, c);
  }

  /** A run that never lists a use case twice never gets stuck. */
  lemma ListedOnceNeverStuck(ops: seq<Op>)
    requires !Ever(Next, ListsAgain, [], ops)
    ensures !Ever(Next, OpWalks, [], ops)
  {
    forall ucs, op | NoneTaken(ucs) && !ListsAgain(ucs, op) ensures NoneTaken(AfterOp(ucs, op)) && !OpWalks(ucs, op) {
      OpTakesNone(ucs, op);
    }
    NeverUnless(Next, NoneTaken, ListsAgain, OpWalks, [], ops);
  }

  /** One client: a start that fails for want of a resampler, one that succeeds, and a stop. */
  lemma AHalfStartedCaptureGetsStuck(stream: nat, mic: InDevice)
    requires mic != NONE
    ensures var c := Choice(NONE, mic, false);
            Ever(Next, OpWalks, [],
                 [StartIn(AudioCapture, stream, true, true, false, c), StartIn(AudioCapture, stream, true, true, true, c), Stop(AudioCapture)])
  {
    var c := Choice(NONE, mic, false);
    var ops := [StartIn(AudioCapture, stream, true, true, false, c), StartIn(AudioCapture, stream, true, true, true, c), Stop(AudioCapture)];
    var u := Fresh(AudioCapture, stream, true);
    var one, two := AfterOp([], ops[0]), AfterOp(AfterOp([], ops[0]), ops[1]);
    assert one == [u.(inDev := mic)];
    assert two == [u.(inDev := mic, taken := true), u];
    assert two[1..] == [u] && [u][1..] == [] && Count([u], mic) == 0;
    assert Uses(two[0], mic) && Count(two, mic) == 1;
    assert Expands(two[0].inDev, mic) && DropWalks(two, 0);
    assert OpWalks(two, ops[2]);
    assert ops[1..][1..] == [ops[2]] && ops[1..][0] == ops[1];
    assert Ever(Next, OpWalks, two, [ops[2]]);
    assert Ever(Next, OpWalks, one, ops[1..]);
  }

  /** A hotword use case holds no device, and its mixer list is never walked. */
  lemma HotwordIsNeverWalked(ucs: seq<UseCase>, c: Choice)
    requires WellFormed(ucs)
    ensures !SelectWalks(ucs, CaptureHotword, c) && !StopWalks(ucs, CaptureHotword)
  {
  }

  /** The list after the combo downgrade: same uses, except of the speaker. */
  function Downgraded(ucs: seq<UseCase>): (r: seq<UseCase>)
    ensures |r| == |ucs|
  {
    var i := IndexOf(ucs, AudioPlayback);
    if i < |ucs| && ucs[i].outDev == OUT_SPEAKER_AND_HEADPHONES
    then ucs[i := ucs[i].(outDev := OUT_HEADPHONES)] else ucs
  }
}

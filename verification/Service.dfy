/** The gRPC handlers: `UpdatePoints` and `RespondToCommand`. */
module Service {
  import opened Measurements
  import opened FilterRuns
  import opened PointDatabase
  import opened CommandMemory
  import Bridge
  import CommandDispatcher

  /** `v1::AnalogPoint` and `v1::BinaryPoint`; enumerations are open in proto3, so a quality is any number. */
  datatype AnalogMessage = AnalogMessage(index: uint32, value: Double, quality: int)
  datatype BinaryMessage = BinaryMessage(index: uint32, value: bool, quality: int)

  function ToQuality(q: int): Quality {
    if q == 1 then Uncertain else if q == 2 then Bad else if q == 3 then Restart else Good
  }

  /**
   What the SCADA sees of a message's quality: offline exactly for 2, restarted
   exactly for 3, plain ONLINE for every other number; 1 alone is Uncertain.
   */
  lemma QualityOnTheWire(q: int)
    ensures ToFlagBits(ToQuality(q)) == if q == 2 then 0 else if q == 3 then 3 else 1
    ensures ToQuality(q) == Uncertain <==> q == 1
  {
  }

  /** `static_cast<std::uint16_t>`: the low 16 bits. */
  function Narrow(index: uint32): (i: uint16)
    ensures index < 0x1_0000 ==> i as int == index as int
    ensures (index as int - i as int) % 0x1_0000 == 0
  {
    (index % 0x1_0000) as uint16
  }

  function AnalogUpdates(ms: seq<AnalogMessage>): seq<PointUpdate> {
    seq(|ms|, k requires 0 <= k < |ms| => AnalogUpdate(Narrow(ms[k].index), ms[k].value, ToQuality(ms[k].quality)))
  }

  function BinaryUpdates(ms: seq<BinaryMessage>): seq<PointUpdate> {
    seq(|ms|, k requires 0 <= k < |ms| => BinaryUpdate(Narrow(ms[k].index), ms[k].value, ToQuality(ms[k].quality)))
  }

  /** The points of a request in the order they are pushed: analogs first, then binaries. */
  function Updates(analogs: seq<AnalogMessage>, binaries: seq<BinaryMessage>): seq<PointUpdate> {
    AnalogUpdates(analogs) + BinaryUpdates(binaries)
  }

  /** The flag byte the outstation gets for a message's quality. */
  predicate FlagsOf(quality: int, flags: bv8) {
    flags == if quality == 2 then 0 else if quality == 3 then 3 else 1
  }

  predicate SameLow16(index: uint32, i: uint16) {
    (index as int - i as int) % 0x1_0000 == 0
  }

  /** Update number k of a request, field by field: the analog messages come first, then the binary ones. */
  lemma UpdateOfMessage(analogs: seq<AnalogMessage>, binaries: seq<BinaryMessage>, k: nat)
    requires k < |analogs| + |binaries|
    ensures |Updates(analogs, binaries)| == |analogs| + |binaries|
    ensures k < |analogs| ==>
      var u, m := Updates(analogs, binaries)[k], analogs[k];
      u.AnalogUpdate? && SameLow16(m.index, u.index) && u.analog == m.value && u.quality == ToQuality(m.quality)
    ensures k >= |analogs| ==>
      var u, m := Updates(analogs, binaries)[k], binaries[k - |analogs|];
      u.BinaryUpdate? && SameLow16(m.index, u.index) && u.binary == m.value && u.quality == ToQuality(m.quality)
  {
  }

  /**
   From the request to the outstation: drained into a live outstation, message
   number k becomes Apply call number k, with the message's kind, low 16 bits of
   index, value, and the flag byte of its quality.
   */
  lemma MessagesReachTheOutstation(
      f: FilterState, analogs: seq<AnalogMessage>, binaries: seq<BinaryMessage>, k: nat)
    requires f.live && k < |analogs| + |binaries|
    ensures |Stream(f, Updates(analogs, binaries))| == |analogs| + |binaries|
    ensures k < |analogs| ==>
      var a, m := Stream(f, Updates(analogs, binaries))[k], analogs[k];
      a.AppliedAnalog? && SameLow16(m.index, a.index) && a.analog == m.value && FlagsOf(m.quality, a.flags)
    ensures k >= |analogs| ==>
      var a, m := Stream(f, Updates(analogs, binaries))[k], binaries[k - |analogs|];
      a.AppliedBinary? && SameLow16(m.index, a.index) && a.binary == m.value && FlagsOf(m.quality, a.flags)
  {
    var us := Updates(analogs, binaries);
    UpdateOfMessage(analogs, binaries, k);
    StreamIsFaithful(f, us);
    assert Delivers(us[k], Stream(f, us)[k]);
    if k < |analogs| {
      QualityOnTheWire(analogs[k].quality);
    } else {
      QualityOnTheWire(binaries[k - |analogs|].quality);
    }
  }

  /** Just before a point is pushed other producers push some, and then the flush thread may take the queue. */
  datatype Gap = Gap(pushes: seq<PointUpdate>, takes: bool)

  function GapAt(gaps: seq<Gap>, k: nat): Gap {
    if k < |gaps| then gaps[k] else Gap([], false)
  }

  /** The updates from number k on, each after the other producers' pushes that come before it. */
  function Woven(gaps: seq<Gap>, us: seq<PointUpdate>, k: nat): seq<PointUpdate>
    decreases |us| - k
  {
    if k >= |us| then [] else GapAt(gaps, k).pushes + [us[k]] + Woven(gaps, us, k + 1)
  }

  lemma WovenOneMore(before: seq<PointUpdate>, seen: seq<PointUpdate>, gaps: seq<Gap>, us: seq<PointUpdate>, k: nat)
    requires k < |us| && seen == before + GapAt(gaps, k).pushes
    ensures before + Woven(gaps, us, k) == seen + [us[k]] + Woven(gaps, us, k + 1)
  {
  }

  /** How far after the end of update j - 1 update k comes. */
  function Place(gaps: seq<Gap>, j: nat, k: nat): nat
    requires j <= k
    decreases k - j
  {
    |GapAt(gaps, j).pushes| + if j == k then 0 else 1 + Place(gaps, j + 1, k)
  }

  lemma {:induction false} PointIsInPlace(gaps: seq<Gap>, us: seq<PointUpdate>, j: nat, k: nat)
    requires j <= k < |us|
    ensures Place(gaps, j, k) < |Woven(gaps, us, j)| && Woven(gaps, us, j)[Place(gaps, j, k)] == us[k]
    decreases k - j
  {
    var first, rest := GapAt(gaps, j).pushes + [us[j]], Woven(gaps, us, j + 1);
    assert Woven(gaps, us, j) == first + rest;
    if j < k {
      PointIsInPlace(gaps, us, j + 1, k);
      assert Place(gaps, j, k) == |first| + Place(gaps, j + 1, k);
    }
  }

  lemma SliceAfter(first: seq<PointUpdate>, rest: seq<PointUpdate>, a: nat, b: nat)
    requires a <= b <= |rest|
    ensures (first + rest)[|first| + a..|first| + b] == rest[a..b]
  {
  }

  /** Between two points that follow each other lies what was pushed in between. */
  lemma {:induction false} GapIsInPlace(gaps: seq<Gap>, us: seq<PointUpdate>, j: nat, k: nat)
    requires j <= k && k + 1 < |us|
    ensures Place(gaps, j, k) < Place(gaps, j, k + 1) < |Woven(gaps, us, j)|
    ensures Woven(gaps, us, j)[Place(gaps, j, k) + 1..Place(gaps, j, k + 1)] == GapAt(gaps, k + 1).pushes
    decreases k - j
  {
    var first, rest := GapAt(gaps, j).pushes + [us[j]], Woven(gaps, us, j + 1);
    PointIsInPlace(gaps, us, j, k + 1);
    if j < k {
      GapIsInPlace(gaps, us, j + 1, k);
      SliceAfter(first, rest, Place(gaps, j + 1, k) + 1, Place(gaps, j + 1, k + 1));
    } else {
      SliceAfter(first, rest, 0, |GapAt(gaps, k + 1).pushes|);
    }
  }

  /**
   However other producers' pushes fall, a request's points are queued in
   request order, and between two points that follow each other in the request
   lies exactly what was pushed in between.
   */
  lemma RequestOrderIsKept(gaps: seq<Gap>, us: seq<PointUpdate>, k: nat)
    requires k < |us|
    ensures Place(gaps, 0, k) < |Woven(gaps, us, 0)| && Woven(gaps, us, 0)[Place(gaps, 0, k)] == us[k]
    ensures k + 1 < |us| ==>
      && Place(gaps, 0, k) < Place(gaps, 0, k + 1) < |Woven(gaps, us, 0)|
      && Woven(gaps, us, 0)[Place(gaps, 0, k) + 1..Place(gaps, 0, k + 1)]
         == if k + 1 < |gaps| then gaps[k + 1].pushes else []
  {
    PointIsInPlace(gaps, us, 0, k);
    if k + 1 < |us| {
      GapIsInPlace(gaps, us, 0, k);
    }
  }

  /**
   One push per point, each a lock section of its own, with other threads at
   the queue in between. What the flush thread took meanwhile, and what is
   queued in the end, is what was queued before and then the request's points
   in order, woven into the other producers' pushes.
   */
  method UpdatePoints(bridge: Bridge.Bridge, analogs: seq<AnalogMessage>, binaries: seq<BinaryMessage>, gaps: seq<Gap>)
    returns (taken: seq<seq<PointUpdate>>)
    modifies bridge`queue
    ensures Bridge.Concat(taken) + bridge.queue
         == old(bridge.queue) + Woven(gaps, Updates(analogs, binaries), 0)
    ensures (forall k :: 0 <= k < |gaps| ==> !gaps[k].takes) ==> taken == []
  {
    ghost var us := Updates(analogs, binaries);
    ghost var all := bridge.queue + Woven(gaps, us, 0);
    taken := [];
    for k := 0 to |analogs|
      invariant Bridge.Concat(taken) + bridge.queue + Woven(gaps, us, k) == all
      invariant (forall j :: 0 <= j < |gaps| ==> !gaps[j].takes) ==> taken == []
    {
      ghost var before := Bridge.Concat(taken) + bridge.queue;
      taken := OthersBefore(bridge, GapAt(gaps, k), taken);
      ghost var seen := Bridge.Concat(taken) + bridge.queue;
      bridge.ApplyUpdate(AnalogUpdate(Narrow(analogs[k].index), analogs[k].value, ToQuality(analogs[k].quality)));
      assert us[k] == AnalogUpdates(analogs)[k];
      assert Bridge.Concat(taken) + bridge.queue == seen + [us[k]];
      WovenOneMore(before, seen, gaps, us, k);
    }
    for k := 0 to |binaries|
      invariant Bridge.Concat(taken) + bridge.queue + Woven(gaps, us, |analogs| + k) == all
      invariant (forall j :: 0 <= j < |gaps| ==> !gaps[j].takes) ==> taken == []
    {
      ghost var before := Bridge.Concat(taken) + bridge.queue;
      taken := OthersBefore(bridge, GapAt(gaps, |analogs| + k), taken);
      ghost var seen := Bridge.Concat(taken) + bridge.queue;
      bridge.ApplyUpdate(BinaryUpdate(Narrow(binaries[k].index), binaries[k].value, ToQuality(binaries[k].quality)));
      assert us[|analogs| + k] == BinaryUpdates(binaries)[k];
      assert Bridge.Concat(taken) + bridge.queue == seen + [us[|analogs| + k]];
      WovenOneMore(before, seen, gaps, us, |analogs| + k);
    }
  }

  /** Other threads get to the queue. */
  method OthersBefore(bridge: Bridge.Bridge, gap: Gap, taken: seq<seq<PointUpdate>>)
    returns (taken': seq<seq<PointUpdate>>)
    modifies bridge`queue
    ensures Bridge.Concat(taken') + bridge.queue == Bridge.Concat(taken) + old(bridge.queue) + gap.pushes
    ensures !gap.takes ==> taken' == taken
  {
    bridge.queue := bridge.queue + gap.pushes;
    taken' := taken;
    if gap.takes {
      Bridge.ConcatOneMore(taken, bridge.queue);
      taken' := taken + [bridge.queue];
      bridge.queue := [];
    }
  }

  /** `toCommandStatus`: the eleven `CommandResultStatus` values, anything else is UNDEFINED. */
  function ToCommandStatus(s: int): CommandStatus {
    match s
    case 0 => SUCCESS
    case 1 => TIMEOUT
    case 2 => NO_SELECT
    case 3 => FORMAT_ERROR
    case 4 => NOT_SUPPORTED
    case 5 => ALREADY_ACTIVE
    case 6 => HARDWARE_ERROR
    case 7 => LOCAL
    case 8 => TOO_MANY_OPS
    case 9 => NOT_AUTHORIZED
    case 10 => DOWNSTREAM_FAIL
    case _ => UNDEFINED
  }

  /** The wire code a `CommandResultStatus` number stands for. */
  function ResultCode(s: int): nat {
    if 0 <= s <= 9 then s else if s == 10 then 18 else 127
  }

  /** The first ten results keep their number as status code, the eleventh is DOWNSTREAM_FAIL, any other UNDEFINED. */
  lemma ResultsKeepTheirCode(s: int)
    ensures StatusCode(ToCommandStatus(s)) == ResultCode(s)
    ensures ToCommandStatus(s) == DOWNSTREAM_FAIL <==> s == 10
    ensures ToCommandStatus(s) == UNDEFINED <==> s < 0 || s > 10
  {
  }

  /** No two defined results are confused, and none is taken for UNDEFINED. */
  lemma StatusesAreDistinct(s: int, r: int)
    requires 0 <= s <= 10
    ensures ToCommandStatus(s) == ToCommandStatus(r) <==> s == r
  {
  }

  /** Success is reported exactly when the id was pending, and only then is anything changed. */
  method RespondToCommand(dispatcher: CommandDispatcher.CommandDispatcher, commandId: nat, status: int)
    returns (success: bool)
    modifies dispatcher
    ensures success <==> commandId in old(dispatcher.pending)
    ensures dispatcher.View() == Resolve(old(dispatcher.View()), commandId, ToCommandStatus(status))
    ensures !success ==> dispatcher.View() == old(dispatcher.View())
    ensures success && SharedOf(old(dispatcher.View()), commandId) == Unset ==>
      && commandId !in dispatcher.pending && commandId in dispatcher.shared
      && dispatcher.shared[commandId].Value?
      && StatusCode(dispatcher.shared[commandId].status) == ResultCode(status)
  {
    ResultsKeepTheirCode(status);
    success := dispatcher.Fulfil(commandId, ToCommandStatus(status));
  }
}

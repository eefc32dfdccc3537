/**
 `OutstationManager` as the object it is: the deadband and state maps, updated
 in place from the flush thread, and the stream handed to `IOutstation::Apply`.
 */
module Outstation {
  import opened Measurements
  import opened EventFilter
  import opened FilterRuns
  import opened PointDatabase

  /** The deadband `updateAnalog` uses for index i after a start with cfg. */
  ghost function RuntimeDeadband(cfg: PointDatabaseConfig, defaults: Defaults, i: uint16): Double {
    if cfg.Empty() then
      if i <= 20 then defaults.analogInput.deadband else Finite(0.0)
    else
      if Covered(cfg.analogInput, i)
      then Overlaid(AnalogSetter(AnalogInputNames()), cfg.analogInput, i, defaults.analogInput).deadband
      else Finite(0.0)
  }

  /**
   The run-time deadband is the configured one: for a configured database, the
   value of the last entry that covers the index and gives a deadband; the
   default where covering entries give none; zero where nothing covers it.
   */
  lemma RuntimeDeadbandIsLastSet(cfg: PointDatabaseConfig, defaults: Defaults, i: uint16)
    requires cfg.binaryInput + cfg.binaryOutputStatus + cfg.analogInput + cfg.analogOutputStatus != []
    ensures forall k: nat :: LastSetter(SetsDeadband(), cfg.analogInput, i, k) ==>
      cfg.analogInput[k].deadband.Some? && RuntimeDeadband(cfg, defaults, i) == cfg.analogInput[k].deadband.value
    ensures NeverSet(SetsDeadband(), cfg.analogInput, i) ==>
      RuntimeDeadband(cfg, defaults, i)
      == if Covered(cfg.analogInput, i) then defaults.analogInput.deadband else Finite(0.0)
  {
    AnalogFieldsAreLastSet(AnalogInputNames(), cfg.analogInput, i, defaults.analogInput);
    forall k: nat | LastSetter(SetsDeadband(), cfg.analogInput, i, k)
      ensures Covered(cfg.analogInput, i)
    {
      assert Covers(cfg.analogInput[k], i);
    }
  }

  /** Of the built-in database, where no section has an entry: the default for the 21 analog inputs, else zero. */
  lemma BuiltInDeadbands(cfg: PointDatabaseConfig, defaults: Defaults, i: uint16)
    requires cfg.binaryInput == cfg.binaryOutputStatus == cfg.analogInput == cfg.analogOutputStatus == []
    ensures RuntimeDeadband(cfg, defaults, i) == if i < 21 then defaults.analogInput.deadband else Finite(0.0)
  {
  }

  class OutstationManager {
    var live: bool
    var analogDeadband: map<uint16, Double>
    var analogState: map<uint16, PointState<Double>>
    var binaryState: map<uint16, PointState<bool>>

    /** Every update the outstation has been asked to apply, oldest first. */
    var applied: seq<Applied>

    function Filter(): FilterState
      reads this
    {
      FilterState(live, analogDeadband, analogState, binaryState)
    }

    constructor ()
      ensures !live && applied == []
    {
      live, applied := false, [];
      analogDeadband, analogState, binaryState := map[], map[], map[];
    }

    /**
     `start`: build the point database, keep its analog deadbands, forget every
     point state and bring the outstation up.
     */
    method Start(cfg: PointDatabaseConfig, defaults: Defaults)
      modifies this
      ensures Started(Filter()) && applied == old(applied)
      ensures forall i :: DeadbandOf(Filter(), i) == RuntimeDeadband(cfg, defaults, i)
    {
      var db;
      if cfg.Empty() {
        db := ConfigureDefault(defaults);
      } else {
        db := ConfigureFromConfig(cfg, defaults);
      }
      analogDeadband := map[];
      analogState := map[];
      binaryState := map[];
      var remaining := db.analogInput.Keys;
      while remaining != {}
        invariant remaining <= db.analogInput.Keys
        invariant analogDeadband.Keys == db.analogInput.Keys - remaining
        invariant forall i :: i in analogDeadband ==> analogDeadband[i] == db.analogInput[i].deadband
        invariant analogState == map[] && binaryState == map[] && applied == old(applied)
        decreases remaining
      {
        var index :| index in remaining;
        analogDeadband := analogDeadband[index := db.analogInput[index].deadband];
        remaining := remaining - {index};
      }
      live := true;
    }

    /** `shutdown` drops the outstation; the maps stay as they are. */
    method Shutdown()
      modifies this`live
      ensures Filter() == old(Filter()).(live := false)
    {
      live := false;
    }

    method UpdateAnalog(index: uint16, value: Double, quality: Quality)
      modifies this`analogState, this`applied
      ensures Filter() == Step(old(Filter()), AnalogUpdate(index, value, quality))
      ensures applied == old(applied) + Output(old(Filter()), AnalogUpdate(index, value, quality))
      ensures |applied| == |old(applied)| + if live then 1 else 0
      ensures live ==> Delivers(AnalogUpdate(index, value, quality), applied[|applied| - 1])
    {
      if !live { return; }
      var flagBits := ToFlagBits(quality);
      var state := if index in analogState then analogState[index] else FRESH_ANALOG;
      var deadband := if index in analogDeadband then analogDeadband[index] else Finite(0.0);
      var isEvent :=
        || !state.seen
        || !value.Finite?
        || !state.lastEvented.Finite?
        || Exceeds(Abs(value.value - state.lastEvented.value), deadband);
      applied := applied + [AppliedAnalog(index, value, flagBits, if isEvent then Force else Suppress)];
      if isEvent {
        state := state.(lastEvented := value);
      }
      analogState := analogState[index := state.(seen := true)];
    }

    method UpdateBinary(index: uint16, value: bool, quality: Quality)
      modifies this`binaryState, this`applied
      ensures Filter() == Step(old(Filter()), BinaryUpdate(index, value, quality))
      ensures applied == old(applied) + Output(old(Filter()), BinaryUpdate(index, value, quality))
      ensures |applied| == |old(applied)| + if live then 1 else 0
      ensures live ==> Delivers(BinaryUpdate(index, value, quality), applied[|applied| - 1])
    {
      if !live { return; }
      var flagBits := ToFlagBits(quality);
      var state := if index in binaryState then binaryState[index] else FRESH_BINARY;
      var isEvent := !state.seen || value != state.lastEvented;
      applied := applied + [AppliedBinary(index, value, flagBits, if isEvent then Force else Suppress)];
      if isEvent {
        state := state.(lastEvented := value);
      }
      binaryState := binaryState[index := state.(seen := true)];
    }

    /** The dispatch on the update's kind that the flush thread does. */
    method Update(u: PointUpdate)
      modifies this`analogState, this`binaryState, this`applied
      ensures Filter() == Step(old(Filter()), u)
      ensures applied == old(applied) + Output(old(Filter()), u)
      ensures |applied| == |old(applied)| + if live then 1 else 0
      ensures live ==> Delivers(u, applied[|applied| - 1])
    {
      match u
      case AnalogUpdate(i, v, q) => UpdateAnalog(i, v, q);
      case BinaryUpdate(i, v, q) => UpdateBinary(i, v, q);
    }
  }
}

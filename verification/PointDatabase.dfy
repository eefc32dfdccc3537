/**
 The DNP3 point database: the names the DNP3 layer accepts, the overlay of
 configured index ranges onto a point map, and the validation that runs first.
 */
module PointDatabase {
  import opened Wrappers
  import opened Measurements

  newtype uint32 = x: int | 0 <= x < 0x1_0000_0000

  // -------------------------------------------------------------------------
  // Names
  // -------------------------------------------------------------------------

  datatype PointClass = Class0 | Class1 | Class2 | Class3

  datatype StaticAnalogVariation =
    | Group30Var1 | Group30Var2 | Group30Var3 | Group30Var4 | Group30Var5 | Group30Var6

  datatype EventAnalogVariation =
    | Group32Var1 | Group32Var2 | Group32Var3 | Group32Var4
    | Group32Var5 | Group32Var6 | Group32Var7 | Group32Var8

  datatype StaticAnalogOutputStatusVariation = Group40Var1 | Group40Var2 | Group40Var3 | Group40Var4

  datatype EventAnalogOutputStatusVariation =
    | Group42Var1 | Group42Var2 | Group42Var3 | Group42Var4
    | Group42Var5 | Group42Var6 | Group42Var7 | Group42Var8

  function ClassNames(): map<string, PointClass> {
    map["class0" := Class0, "class1" := Class1, "class2" := Class2, "class3" := Class3]
  }

  function StaticInputNames(): map<string, StaticAnalogVariation> {
    map["Group30Var1" := Group30Var1, "Group30Var2" := Group30Var2, "Group30Var3" := Group30Var3,
        "Group30Var4" := Group30Var4, "Group30Var5" := Group30Var5, "Group30Var6" := Group30Var6]
  }

  function EventInputNames(): map<string, EventAnalogVariation> {
    map["Group32Var1" := Group32Var1, "Group32Var2" := Group32Var2, "Group32Var3" := Group32Var3,
        "Group32Var4" := Group32Var4, "Group32Var5" := Group32Var5, "Group32Var6" := Group32Var6,
        "Group32Var7" := Group32Var7, "Group32Var8" := Group32Var8]
  }

  function StaticOutputNames(): map<string, StaticAnalogOutputStatusVariation> {
    map["Group40Var1" := Group40Var1, "Group40Var2" := Group40Var2,
        "Group40Var3" := Group40Var3, "Group40Var4" := Group40Var4]
  }

  function EventOutputNames(): map<string, EventAnalogOutputStatusVariation> {
    map["Group42Var1" := Group42Var1, "Group42Var2" := Group42Var2, "Group42Var3" := Group42Var3,
        "Group42Var4" := Group42Var4, "Group42Var5" := Group42Var5, "Group42Var6" := Group42Var6,
        "Group42Var7" := Group42Var7, "Group42Var8" := Group42Var8]
  }

  function ToEnum<E>(names: map<string, E>, s: string, fallback: E): E {
    if s in names then names[s] else fallback
  }

  // What the names say, read off their spelling: a prefix and one digit.

  /** The number n, first <= n <= last, of the name prefix followed by the digit n. */
  function NumberIn(s: string, prefix: string, first: nat, last: nat): Option<nat> {
    if |s| == |prefix| + 1 && prefix <= s && '0' as int + first <= s[|prefix|] as int <= '0' as int + last
    then Some(s[|prefix|] as int - '0' as int) else None
  }

  function ClassNumber(c: PointClass): nat {
    match c case Class0 => 0 case Class1 => 1 case Class2 => 2 case Class3 => 3
  }

  function StaticInputNumber(v: StaticAnalogVariation): nat {
    match v
    case Group30Var1 => 1 case Group30Var2 => 2 case Group30Var3 => 3
    case Group30Var4 => 4 case Group30Var5 => 5 case Group30Var6 => 6
  }

  function EventInputNumber(v: EventAnalogVariation): nat {
    match v
    case Group32Var1 => 1 case Group32Var2 => 2 case Group32Var3 => 3 case Group32Var4 => 4
    case Group32Var5 => 5 case Group32Var6 => 6 case Group32Var7 => 7 case Group32Var8 => 8
  }

  function StaticOutputNumber(v: StaticAnalogOutputStatusVariation): nat {
    match v case Group40Var1 => 1 case Group40Var2 => 2 case Group40Var3 => 3 case Group40Var4 => 4
  }

  function EventOutputNumber(v: EventAnalogOutputStatusVariation): nat {
    match v
    case Group42Var1 => 1 case Group42Var2 => 2 case Group42Var3 => 3 case Group42Var4 => 4
    case Group42Var5 => 5 case Group42Var6 => 6 case Group42Var7 => 7 case Group42Var8 => 8
  }

  /** The table holds exactly the names prefix1 (or prefix0) to the last one, each for the value of its number. */
  ghost predicate Numbered<E(!new)>(
      names: map<string, E>, number: E -> nat, prefix: string, first: nat, last: nat)
  {
    forall s :: if s in names then NumberIn(s, prefix, first, last) == Some(number(names[s]))
                else NumberIn(s, prefix, first, last) == None
  }

  lemma ClassNamesAreNumbered()
    ensures Numbered(ClassNames(), ClassNumber, "class", 0, 3)
  {
    forall s | NumberIn(s, "class", 0, 3).Some? ensures s in ClassNames() {
      assert s == "class0" || s == "class1" || s == "class2" || s == "class3";
    }
  }

  lemma StaticInputNamesAreNumbered()
    ensures Numbered(StaticInputNames(), StaticInputNumber, "Group30Var", 1, 6)
  {
    forall s | NumberIn(s, "Group30Var", 1, 6).Some? ensures s in StaticInputNames() {
      assert s == "Group30Var1" || s == "Group30Var2" || s == "Group30Var3" || s == "Group30Var4"
          || s == "Group30Var5" || s == "Group30Var6";
    }
  }

  lemma EventInputNamesAreNumbered()
    ensures Numbered(EventInputNames(), EventInputNumber, "Group32Var", 1, 8)
  {
    forall s | NumberIn(s, "Group32Var", 1, 8).Some? ensures s in EventInputNames() {
      assert s == "Group32Var1" || s == "Group32Var2" || s == "Group32Var3" || s == "Group32Var4"
          || s == "Group32Var5" || s == "Group32Var6" || s == "Group32Var7" || s == "Group32Var8";
    }
  }

  lemma StaticOutputNamesAreNumbered()
    ensures Numbered(StaticOutputNames(), StaticOutputNumber, "Group40Var", 1, 4)
  {
    forall s | NumberIn(s, "Group40Var", 1, 4).Some? ensures s in StaticOutputNames() {
      assert s == "Group40Var1" || s == "Group40Var2" || s == "Group40Var3" || s == "Group40Var4";
    }
  }

  lemma EventOutputNamesAreNumbered()
    ensures Numbered(EventOutputNames(), EventOutputNumber, "Group42Var", 1, 8)
  {
    forall s | NumberIn(s, "Group42Var", 1, 8).Some? ensures s in EventOutputNames() {
      assert s == "Group42Var1" || s == "Group42Var2" || s == "Group42Var3" || s == "Group42Var4"
          || s == "Group42Var5" || s == "Group42Var6" || s == "Group42Var7" || s == "Group42Var8";
    }
  }

  // -------------------------------------------------------------------------
  // Configuration and point maps
  // -------------------------------------------------------------------------

  /** One entry: an inclusive index range and the settings it overlays; "" and None set nothing. */
  datatype PointConfig = PointConfig(
    start: uint16, end: uint16,
    eventClass: string, deadband: Option<Double>, staticVariation: string, eventVariation: string)

  datatype PointDatabaseConfig = PointDatabaseConfig(
    binaryInput: seq<PointConfig>, binaryOutputStatus: seq<PointConfig>,
    analogInput: seq<PointConfig>, analogOutputStatus: seq<PointConfig>)
  {
    predicate Empty() {
      binaryInput == [] && binaryOutputStatus == [] && analogInput == [] && analogOutputStatus == []
    }
  }

  datatype BinaryPointConfig = BinaryPointConfig(clazz: PointClass)

  datatype AnalogPointConfig<S, E> =
    AnalogPointConfig(clazz: PointClass, deadband: Double, svariation: S, evariation: E)

  type AnalogInputConfig = AnalogPointConfig<StaticAnalogVariation, EventAnalogVariation>
  type AnalogOutputConfig = AnalogPointConfig<StaticAnalogOutputStatusVariation, EventAnalogOutputStatusVariation>

  datatype DatabaseConfig = DatabaseConfig(
    binaryInput: map<uint16, BinaryPointConfig>, binaryOutputStatus: map<uint16, BinaryPointConfig>,
    analogInput: map<uint16, AnalogInputConfig>, analogOutputStatus: map<uint16, AnalogOutputConfig>)

  /** The values opendnp3 gives a point that nothing has been set on. */
  datatype Defaults = Defaults(
    binary: BinaryPointConfig, analogInput: AnalogInputConfig, analogOutput: AnalogOutputConfig)

  /** Name tables and fallbacks of one analog section. */
  datatype AnalogNames<S, E> =
    AnalogNames(statics: map<string, S>, events: map<string, E>, staticFallback: S, eventFallback: E)

  function AnalogInputNames(): AnalogNames<StaticAnalogVariation, EventAnalogVariation> {
    AnalogNames(StaticInputNames(), EventInputNames(), Group30Var1, Group32Var1)
  }

  function AnalogOutputNames(): AnalogNames<StaticAnalogOutputStatusVariation, EventAnalogOutputStatusVariation> {
    AnalogNames(StaticOutputNames(), EventOutputNames(), Group40Var1, Group42Var1)
  }

  // -------------------------------------------------------------------------
  // The overlay of entries onto a point map
  // -------------------------------------------------------------------------

  predicate Covers(pc: PointConfig, i: uint16) {
    pc.start <= i <= pc.end
  }

  predicate Covered(entries: seq<PointConfig>, i: uint16) {
    exists k :: 0 <= k < |entries| && Covers(entries[k], i)
  }

  function SetBinary(classFallback: PointClass, pc: PointConfig, pt: BinaryPointConfig): BinaryPointConfig {
    if pc.eventClass == "" then pt else pt.(clazz := ToEnum(ClassNames(), pc.eventClass, classFallback))
  }

  function SetAnalog<S, E>(classFallback: PointClass, names: AnalogNames<S, E>,
                           pc: PointConfig, pt: AnalogPointConfig<S, E>): AnalogPointConfig<S, E>
  {
    AnalogPointConfig(
      if pc.eventClass == "" then pt.clazz else ToEnum(ClassNames(), pc.eventClass, classFallback),
      if pc.deadband.None? then pt.deadband else pc.deadband.value,
      if pc.staticVariation == "" then pt.svariation
      else ToEnum(names.statics, pc.staticVariation, names.staticFallback),
      if pc.eventVariation == "" then pt.evariation
      else ToEnum(names.events, pc.eventVariation, names.eventFallback))
  }

  /** Point i after all entries: those covering it, folded in order onto the default. */
  function Overlaid<P>(put: (PointConfig, P) -> P, entries: seq<PointConfig>, i: uint16, default: P): P {
    if entries == [] then default
    else
      var last := entries[|entries| - 1];
      var before := Overlaid(put, entries[..|entries| - 1], i, default);
      if Covers(last, i) then put(last, before) else before
  }

  lemma {:induction false} UncoveredIsDefault<P>(
      put: (PointConfig, P) -> P, entries: seq<PointConfig>, i: uint16, default: P)
    requires !Covered(entries, i)
    ensures Overlaid(put, entries, i, default) == default
  {
    if entries != [] {
      var n := |entries| - 1;
      assert !Covers(entries[n], i);
      forall k | 0 <= k < n ensures !Covers(entries[..n][k], i) {
        assert entries[..n][k] == entries[k];
      }
      UncoveredIsDefault(put, entries[..n], i, default);
    }
  }

  lemma CoveredByOneMore(entries: seq<PointConfig>, n: nat, i: uint16)
    requires n < |entries|
    ensures Covered(entries[..n + 1], i) <==> Covered(entries[..n], i) || Covers(entries[n], i)
  {
    assert entries[..n + 1] == entries[..n] + [entries[n]];
    if Covered(entries[..n], i) {
      var k :| 0 <= k < n && Covers(entries[..n][k], i);
      assert Covers(entries[..n + 1][k], i);
    }
    if Covers(entries[n], i) {
      assert Covers(entries[..n + 1][n], i);
    }
  }

  /** What one entry's range loop does to the map. */
  ghost predicate RangeSet<P(!new)>(put: (PointConfig, P) -> P, pc: PointConfig, upTo: int, default: P,
                              before: map<uint16, P>, after: map<uint16, P>)
  {
    && (forall j: uint16 :: j in after <==> j in before || pc.start as int <= j as int < upTo)
    && (forall j: uint16 :: j in after ==>
          after[j] == if pc.start as int <= j as int < upTo
                      then put(pc, if j in before then before[j] else default)
                      else before[j])
  }

  /**
   The nested loop of one section. The counter is 32 bits wide, so a range that
   ends at 65535 leaves the loop: the increment never wraps.
   */
  method Overlay<P(!new)>(put: (PointConfig, P) -> P, entries: seq<PointConfig>, default: P)
    returns (points: map<uint16, P>)
    ensures forall i :: i in points <==> Covered(entries, i)
    ensures forall i :: i in points <==> exists k :: 0 <= k < |entries| && entries[k].start <= i <= entries[k].end
    ensures forall i :: i in points ==> points[i] == Overlaid(put, entries, i, default)
  {
    points := map[];
    for n := 0 to |entries|
      invariant forall i :: i in points <==> Covered(entries[..n], i)
      invariant forall i :: i in points ==> points[i] == Overlaid(put, entries[..n], i, default)
    {
      var pc := entries[n];
      ghost var before := points;
      var i: uint32 := pc.start as uint32;
      while i <= pc.end as uint32
        invariant pc.start as int <= i as int
        invariant if pc.start <= pc.end then i as int <= pc.end as int + 1 else i as int == pc.start as int
        invariant RangeSet(put, pc, i as int, default, before, points)
      {
        var key := i as uint16;
        var pt := if key in points then points[key] else default;
        points := points[key := put(pc, pt)];
        i := i + 1;
      }
      OverlayStep(put, entries, n, default, before, points, i as int);
    }
    assert entries[..|entries|] == entries;
  }

  lemma OverlayStep<P(!new)>(put: (PointConfig, P) -> P, entries: seq<PointConfig>, n: nat, default: P,
                             before: map<uint16, P>, after: map<uint16, P>, upTo: int)
    requires n < |entries|
    requires forall i :: i in before <==> Covered(entries[..n], i)
    requires forall i :: i in before ==> before[i] == Overlaid(put, entries[..n], i, default)
    requires RangeSet(put, entries[n], upTo, default, before, after)
    requires upTo == if entries[n].start <= entries[n].end then entries[n].end as int + 1 else entries[n].start as int
    ensures forall i :: i in after <==> Covered(entries[..n + 1], i)
    ensures forall i :: i in after ==> after[i] == Overlaid(put, entries[..n + 1], i, default)
  {
    forall i: uint16
      ensures i in after <==> Covered(entries[..n + 1], i)
      ensures i in after ==> after[i] == Overlaid(put, entries[..n + 1], i, default)
    {
      CoveredByOneMore(entries, n, i);
      assert entries[..n + 1][..n] == entries[..n];
      if i !in before {
        UncoveredIsDefault(put, entries[..n], i, default);
      }
    }
  }

  // -------------------------------------------------------------------------
  // The last setter wins, field by field
  // -------------------------------------------------------------------------

  predicate SetsAt(sets: PointConfig -> bool, pc: PointConfig, i: uint16) {
    Covers(pc, i) && sets(pc)
  }

  /** k is the last entry that covers i and sets the field. */
  predicate LastSetter(sets: PointConfig -> bool, entries: seq<PointConfig>, i: uint16, k: nat) {
    && k < |entries|
    && SetsAt(sets, entries[k], i)
    && forall m :: k < m < |entries| ==> !SetsAt(sets, entries[m], i)
  }

  predicate NeverSet(sets: PointConfig -> bool, entries: seq<PointConfig>, i: uint16) {
    forall m :: 0 <= m < |entries| ==> !SetsAt(sets, entries[m], i)
  }

  /** `get` is a field that an entry overwrites with `value` when it `sets` it and leaves alone otherwise. */
  ghost predicate IsField<P(!new), T>(
      put: (PointConfig, P) -> P, get: P -> T, sets: PointConfig -> bool, value: PointConfig -> T)
  {
    forall pc, p :: get(put(pc, p)) == if sets(pc) then value(pc) else get(p)
  }

  lemma {:induction false} LastSetterWins<P(!new), T>(
      put: (PointConfig, P) -> P, get: P -> T, sets: PointConfig -> bool, value: PointConfig -> T,
      entries: seq<PointConfig>, i: uint16, default: P)
    requires IsField(put, get, sets, value)
    ensures forall k: nat :: LastSetter(sets, entries, i, k) ==>
      get(Overlaid(put, entries, i, default)) == value(entries[k])
    ensures NeverSet(sets, entries, i) ==> get(Overlaid(put, entries, i, default)) == get(default)
    ensures NeverSet(sets, entries, i) || exists k: nat :: LastSetter(sets, entries, i, k)
    decreases entries
  {
    if entries != [] {
      var n := |entries| - 1;
      LastSetterWins(put, get, sets, value, entries[..n], i, default);
      if SetsAt(sets, entries[n], i) {
        assert LastSetter(sets, entries, i, n);
        assert forall k: nat :: LastSetter(sets, entries, i, k) ==> k == n;
      } else {
        forall k: nat ensures LastSetter(sets, entries, i, k) <==> LastSetter(sets, entries[..n], i, k) {
          assert forall m :: 0 <= m < n ==> entries[..n][m] == entries[m];
        }
      }
    }
  }

  /** The fields an analog entry can set. */
  function SetsClass(): PointConfig -> bool { (pc: PointConfig) => pc.eventClass != "" }
  function SetsDeadband(): PointConfig -> bool { (pc: PointConfig) => pc.deadband.Some? }
  function SetsStatic(): PointConfig -> bool { (pc: PointConfig) => pc.staticVariation != "" }
  function SetsEvent(): PointConfig -> bool { (pc: PointConfig) => pc.eventVariation != "" }

  function AnalogSetter<S, E>(names: AnalogNames<S, E>)
    : (PointConfig, AnalogPointConfig<S, E>) -> AnalogPointConfig<S, E>
  {
    (pc, pt) => SetAnalog(Class1, names, pc, pt)
  }

  function BinarySetter(): (PointConfig, BinaryPointConfig) -> BinaryPointConfig {
    (pc, pt) => SetBinary(Class1, pc, pt)
  }

  /**
   Range overlay, analog sections: each of the four fields at each index is
   independently the value from the last covering entry that sets that field,
   else the default.
   */
  lemma {:induction false} AnalogFieldsAreLastSet<S(!new), E(!new)>(
      names: AnalogNames<S, E>, entries: seq<PointConfig>, i: uint16, default: AnalogPointConfig<S, E>)
    ensures var pt := Overlaid(AnalogSetter(names), entries, i, default);
      && (forall k: nat :: LastSetter(SetsClass(), entries, i, k) ==>
            pt.clazz == ToEnum(ClassNames(), entries[k].eventClass, Class1))
      && (NeverSet(SetsClass(), entries, i) ==> pt.clazz == default.clazz)
      && (forall k: nat :: LastSetter(SetsDeadband(), entries, i, k) ==> Some(pt.deadband) == entries[k].deadband)
      && (NeverSet(SetsDeadband(), entries, i) ==> pt.deadband == default.deadband)
      && (forall k: nat :: LastSetter(SetsStatic(), entries, i, k) ==>
            pt.svariation == ToEnum(names.statics, entries[k].staticVariation, names.staticFallback))
      && (NeverSet(SetsStatic(), entries, i) ==> pt.svariation == default.svariation)
      && (forall k: nat :: LastSetter(SetsEvent(), entries, i, k) ==>
            pt.evariation == ToEnum(names.events, entries[k].eventVariation, names.eventFallback))
      && (NeverSet(SetsEvent(), entries, i) ==> pt.evariation == default.evariation)
  {
    var put := AnalogSetter(names);
    LastSetterWins(put, (p: AnalogPointConfig<S, E>) => p.clazz, SetsClass(),
                   (pc: PointConfig) => ToEnum(ClassNames(), pc.eventClass, Class1), entries, i, default);
    LastSetterWins(put, (p: AnalogPointConfig<S, E>) => Some(p.deadband), SetsDeadband(),
                   (pc: PointConfig) => pc.deadband, entries, i, default);
    LastSetterWins(put, (p: AnalogPointConfig<S, E>) => p.svariation, SetsStatic(),
                   (pc: PointConfig) => ToEnum(names.statics, pc.staticVariation, names.staticFallback),
                   entries, i, default);
    LastSetterWins(put, (p: AnalogPointConfig<S, E>) => p.evariation, SetsEvent(),
                   (pc: PointConfig) => ToEnum(names.events, pc.eventVariation, names.eventFallback),
                   entries, i, default);
  }

  lemma {:induction false} BinaryClassIsLastSet(entries: seq<PointConfig>, i: uint16, default: BinaryPointConfig)
    ensures var pt := Overlaid(BinarySetter(), entries, i, default);
      && (forall k: nat :: LastSetter(SetsClass(), entries, i, k) ==>
            pt.clazz == ToEnum(ClassNames(), entries[k].eventClass, Class1))
      && (NeverSet(SetsClass(), entries, i) ==> pt.clazz == default.clazz)
  {
    LastSetterWins(BinarySetter(), (p: BinaryPointConfig) => p.clazz, SetsClass(),
                   (pc: PointConfig) => ToEnum(ClassNames(), pc.eventClass, Class1), entries, i, default);
  }

  /** The number a name says, or the fallback for a name that says none. */
  function NumberOr(s: string, prefix: string, first: nat, last: nat, fallback: nat): nat {
    match NumberIn(s, prefix, first, last) case Some(n) => n case None => fallback
  }

  lemma LookupReadsNumber<E(!new)>(
      names: map<string, E>, number: E -> nat, prefix: string, first: nat, last: nat, s: string, fallback: E)
    requires Numbered(names, number, prefix, first, last)
    ensures number(ToEnum(names, s, fallback)) == NumberOr(s, prefix, first, last, number(fallback))
  {
  }

  /** The class of a point is the one spelled in the last entry that sets it; a bad name gives class 1. */
  ghost predicate ClassAsSpelled(c: PointClass, entries: seq<PointConfig>, i: uint16, default: PointClass) {
    && (forall k: nat :: LastSetter(SetsClass(), entries, i, k) ==>
          ClassNumber(c) == NumberOr(entries[k].eventClass, "class", 0, 3, 1))
    && (NeverSet(SetsClass(), entries, i) ==> c == default)
  }

  lemma ClassIsAsSpelled(c: PointClass, entries: seq<PointConfig>, i: uint16, default: PointClass)
    requires forall k: nat :: LastSetter(SetsClass(), entries, i, k) ==>
      c == ToEnum(ClassNames(), entries[k].eventClass, Class1)
    requires NeverSet(SetsClass(), entries, i) ==> c == default
    ensures ClassAsSpelled(c, entries, i, default)
  {
    ClassNamesAreNumbered();
    forall k: nat | LastSetter(SetsClass(), entries, i, k)
      ensures ClassNumber(c) == NumberOr(entries[k].eventClass, "class", 0, 3, 1)
    {
      LookupReadsNumber(ClassNames(), ClassNumber, "class", 0, 3, entries[k].eventClass, Class1);
    }
  }

  /** A binary point's class is the one spelled in the last covering entry that sets one. */
  lemma BinaryIsAsSpelled(entries: seq<PointConfig>, i: uint16, default: BinaryPointConfig)
    ensures ClassAsSpelled(Overlaid(BinarySetter(), entries, i, default).clazz, entries, i, default.clazz)
  {
    BinaryClassIsLastSet(entries, i, default);
    ClassIsAsSpelled(Overlaid(BinarySetter(), entries, i, default).clazz, entries, i, default.clazz);
  }

  /** So are an analog input's class and variations: those of groups 30 and 32, a bad name giving variation 1. */
  lemma AnalogInputIsAsSpelled(entries: seq<PointConfig>, i: uint16, default: AnalogInputConfig)
    ensures var pt := Overlaid(AnalogSetter(AnalogInputNames()), entries, i, default);
      && ClassAsSpelled(pt.clazz, entries, i, default.clazz)
      && (forall k: nat :: LastSetter(SetsStatic(), entries, i, k) ==>
            StaticInputNumber(pt.svariation) == NumberOr(entries[k].staticVariation, "Group30Var", 1, 6, 1))
      && (forall k: nat :: LastSetter(SetsEvent(), entries, i, k) ==>
            EventInputNumber(pt.evariation) == NumberOr(entries[k].eventVariation, "Group32Var", 1, 8, 1))
  {
    var names, pt := AnalogInputNames(), Overlaid(AnalogSetter(AnalogInputNames()), entries, i, default);
    AnalogFieldsAreLastSet(names, entries, i, default);
    ClassIsAsSpelled(pt.clazz, entries, i, default.clazz);
    StaticInputNamesAreNumbered();
    EventInputNamesAreNumbered();
    forall k: nat | LastSetter(SetsStatic(), entries, i, k)
      ensures StaticInputNumber(pt.svariation) == NumberOr(entries[k].staticVariation, "Group30Var", 1, 6, 1)
    {
      LookupReadsNumber(names.statics, StaticInputNumber, "Group30Var", 1, 6,
                        entries[k].staticVariation, names.staticFallback);
    }
    forall k: nat | LastSetter(SetsEvent(), entries, i, k)
      ensures EventInputNumber(pt.evariation) == NumberOr(entries[k].eventVariation, "Group32Var", 1, 8, 1)
    {
      LookupReadsNumber(names.events, EventInputNumber, "Group32Var", 1, 8,
                        entries[k].eventVariation, names.eventFallback);
    }
  }

  /** And an analog output's, of groups 40 and 42. */
  lemma AnalogOutputIsAsSpelled(entries: seq<PointConfig>, i: uint16, default: AnalogOutputConfig)
    ensures var pt := Overlaid(AnalogSetter(AnalogOutputNames()), entries, i, default);
      && ClassAsSpelled(pt.clazz, entries, i, default.clazz)
      && (forall k: nat :: LastSetter(SetsStatic(), entries, i, k) ==>
            StaticOutputNumber(pt.svariation) == NumberOr(entries[k].staticVariation, "Group40Var", 1, 4, 1))
      && (forall k: nat :: LastSetter(SetsEvent(), entries, i, k) ==>
            EventOutputNumber(pt.evariation) == NumberOr(entries[k].eventVariation, "Group42Var", 1, 8, 1))
  {
    var names, pt := AnalogOutputNames(), Overlaid(AnalogSetter(AnalogOutputNames()), entries, i, default);
    AnalogFieldsAreLastSet(names, entries, i, default);
    ClassIsAsSpelled(pt.clazz, entries, i, default.clazz);
    StaticOutputNamesAreNumbered();
    EventOutputNamesAreNumbered();
    forall k: nat | LastSetter(SetsStatic(), entries, i, k)
      ensures StaticOutputNumber(pt.svariation) == NumberOr(entries[k].staticVariation, "Group40Var", 1, 4, 1)
    {
      LookupReadsNumber(names.statics, StaticOutputNumber, "Group40Var", 1, 4,
                        entries[k].staticVariation, names.staticFallback);
    }
    forall k: nat | LastSetter(SetsEvent(), entries, i, k)
      ensures EventOutputNumber(pt.evariation) == NumberOr(entries[k].eventVariation, "Group42Var", 1, 8, 1)
    {
      LookupReadsNumber(names.events, EventOutputNumber, "Group42Var", 1, 8,
                        entries[k].eventVariation, names.eventFallback);
    }
  }

  // -------------------------------------------------------------------------
  // Building the database
  // -------------------------------------------------------------------------

  method ConfigureFromConfig(cfg: PointDatabaseConfig, defaults: Defaults) returns (db: DatabaseConfig)
    ensures forall i :: i in db.binaryInput <==> Covered(cfg.binaryInput, i)
    ensures forall i :: i in db.binaryInput ==>
      db.binaryInput[i] == Overlaid(BinarySetter(), cfg.binaryInput, i, defaults.binary)
    ensures forall i :: i in db.binaryOutputStatus <==> Covered(cfg.binaryOutputStatus, i)
    ensures forall i :: i in db.binaryOutputStatus ==>
      db.binaryOutputStatus[i] == Overlaid(BinarySetter(), cfg.binaryOutputStatus, i, defaults.binary)
    ensures forall i :: i in db.analogInput <==> Covered(cfg.analogInput, i)
    ensures forall i :: i in db.analogInput ==>
      db.analogInput[i] == Overlaid(AnalogSetter(AnalogInputNames()), cfg.analogInput, i, defaults.analogInput)
    ensures forall i :: i in db.analogOutputStatus <==> Covered(cfg.analogOutputStatus, i)
    ensures forall i :: i in db.analogOutputStatus ==>
      db.analogOutputStatus[i]
      == Overlaid(AnalogSetter(AnalogOutputNames()), cfg.analogOutputStatus, i, defaults.analogOutput)
  {
    var bi := Overlay(BinarySetter(), cfg.binaryInput, defaults.binary);
    var bo := Overlay(BinarySetter(), cfg.binaryOutputStatus, defaults.binary);
    var ai := Overlay(AnalogSetter(AnalogInputNames()), cfg.analogInput, defaults.analogInput);
    var ao := Overlay(AnalogSetter(AnalogOutputNames()), cfg.analogOutputStatus, defaults.analogOutput);
    db := DatabaseConfig(bi, bo, ai, ao);
  }

  /** One loop of `configureDefaultDatabase`: points 0..last, all configured alike. */
  method DefaultRange<P>(last: uint16, pt: P) returns (points: map<uint16, P>)
    requires last < 0xFFFF
    ensures forall i: uint16 :: i in points <==> i <= last
    ensures forall i :: i in points ==> points[i] == pt
  {
    points := map[];
    var i: uint16 := 0;
    while i <= last
      invariant i <= last + 1
      invariant forall j: uint16 :: j in points <==> j < i
      invariant forall j :: j in points ==> points[j] == pt
    {
      points := points[i := pt];
      i := i + 1;
    }
  }

  /** The built-in database leaves every deadband at its default. */
  method ConfigureDefault(defaults: Defaults) returns (db: DatabaseConfig)
    ensures forall i: uint16 :: i in db.binaryInput <==> i <= 10
    ensures forall i: uint16 :: i in db.binaryOutputStatus <==> i <= 19
    ensures forall i: uint16 :: i in db.analogInput <==> i <= 20
    ensures forall i: uint16 :: i in db.analogOutputStatus <==> i <= 4
    ensures forall i :: i in db.binaryInput ==> db.binaryInput[i].clazz == Class1
    ensures forall i :: i in db.binaryOutputStatus ==> db.binaryOutputStatus[i].clazz == Class0
    ensures forall i :: i in db.analogInput ==>
      db.analogInput[i] == AnalogPointConfig(Class2, defaults.analogInput.deadband, Group30Var2, Group32Var2)
    ensures forall i :: i in db.analogOutputStatus ==>
      db.analogOutputStatus[i] == AnalogPointConfig(Class2, defaults.analogOutput.deadband, Group40Var2, Group42Var2)
  {
    var bi := DefaultRange(10, BinaryPointConfig(Class1));
    var bo := DefaultRange(19, BinaryPointConfig(Class0));
    var ai := DefaultRange(20, AnalogPointConfig(Class2, defaults.analogInput.deadband, Group30Var2, Group32Var2));
    var ao := DefaultRange(4, AnalogPointConfig(Class2, defaults.analogOutput.deadband, Group40Var2, Group42Var2));
    db := DatabaseConfig(bi, bo, ai, ao);
  }
}

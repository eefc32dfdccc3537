/**
 `validatePointDatabase`: which configurations it accepts, what it reports, and
 why an accepted configuration never reaches a name-lookup fallback.
 */
module PointValidation {
  import opened Wrappers
  import opened Measurements
  import opened PointDatabase

  datatype Section = BinaryInput | BinaryOutputStatus | AnalogInput | AnalogOutputStatus

  datatype Field = Range | Class | StaticVariation | EventVariation

  /** The place an error message names, e.g. `point_database.analog_input[2].class`. */
  datatype Fault = Fault(section: Section, entry: nat, field: Field)

  function EntriesOf(db: PointDatabaseConfig, s: Section): seq<PointConfig> {
    match s
    case BinaryInput => db.binaryInput
    case BinaryOutputStatus => db.binaryOutputStatus
    case AnalogInput => db.analogInput
    case AnalogOutputStatus => db.analogOutputStatus
  }

  /** The names a section accepts for its variations; binary entries' variations are not applied. */
  function StaticNamesOf(s: Section): set<string> {
    match s
    case AnalogInput => StaticInputNames().Keys
    case AnalogOutputStatus => StaticOutputNames().Keys
    case _ => {}
  }

  function EventNamesOf(s: Section): set<string> {
    match s
    case AnalogInput => EventInputNames().Keys
    case AnalogOutputStatus => EventOutputNames().Keys
    case _ => {}
  }

  predicate IsAnalog(s: Section) {
    s == AnalogInput || s == AnalogOutputStatus
  }

  /** f names an entry whose field must not be accepted. */
  predicate Bad(db: PointDatabaseConfig, f: Fault) {
    && f.entry < |EntriesOf(db, f.section)|
    && var pc := EntriesOf(db, f.section)[f.entry];
       match f.field
       case Range => pc.start > pc.end
       case Class => pc.eventClass != "" && pc.eventClass !in ClassNames()
       case StaticVariation =>
         IsAnalog(f.section) && pc.staticVariation != "" && pc.staticVariation !in StaticNamesOf(f.section)
       case EventVariation =>
         IsAnalog(f.section) && pc.eventVariation != "" && pc.eventVariation !in EventNamesOf(f.section)
  }

  function SectionRank(s: Section): nat {
    match s case BinaryInput => 0 case BinaryOutputStatus => 1 case AnalogInput => 2 case AnalogOutputStatus => 3
  }

  function FieldRank(f: Field): nat {
    match f case Range => 0 case Class => 1 case StaticVariation => 2 case EventVariation => 3
  }

  /** Report order: section, then entry, then field. */
  predicate Before(f: Fault, g: Fault) {
    || SectionRank(f.section) < SectionRank(g.section)
    || (f.section == g.section && f.entry < g.entry)
    || (f.section == g.section && f.entry == g.entry && FieldRank(f.field) < FieldRank(g.field))
  }

  ghost predicate Valid(db: PointDatabaseConfig) {
    forall f: Fault :: !Bad(db, f)
  }

  ghost predicate FirstBad(db: PointDatabaseConfig, f: Fault) {
    Bad(db, f) && forall g: Fault :: Before(g, f) ==> !Bad(db, g)
  }

  predicate RangeOk(pc: PointConfig) {
    pc.start <= pc.end
  }

  predicate NameOk(names: set<string>, value: string) {
    value == "" || value in names
  }

  // -------------------------------------------------------------------------
  // What is accepted and what is reported, section by section
  // -------------------------------------------------------------------------

  /** s is unset, or the prefix followed by a number from first to last. */
  predicate Spelled(s: string, prefix: string, first: nat, last: nat) {
    s == "" || NumberIn(s, prefix, first, last).Some?
  }

  predicate BinaryEntryOk(pc: PointConfig) {
    pc.start <= pc.end && Spelled(pc.eventClass, "class", 0, 3)
  }

  predicate BinaryOk(entries: seq<PointConfig>) {
    forall k :: 0 <= k < |entries| ==> BinaryEntryOk(entries[k])
  }

  /** Every entry is in order, its variations being named after the section's two groups. */
  predicate AnalogOk(entries: seq<PointConfig>, statics: string, lastStatic: nat, events: string, lastEvent: nat) {
    forall k :: 0 <= k < |entries| ==>
      && BinaryEntryOk(entries[k])
      && Spelled(entries[k].staticVariation, statics, 1, lastStatic)
      && Spelled(entries[k].eventVariation, events, 1, lastEvent)
  }

  predicate EveryEntryOk(db: PointDatabaseConfig) {
    && BinaryOk(db.binaryInput) && BinaryOk(db.binaryOutputStatus)
    && AnalogOk(db.analogInput, "Group30Var", 6, "Group32Var", 8)
    && AnalogOk(db.analogOutputStatus, "Group40Var", 4, "Group42Var", 8)
  }

  /** This field of pc is wrong and those before it are not, given whether the variations are in order. */
  predicate FirstWrong(pc: PointConfig, field: Field, staticOk: bool, eventOk: bool) {
    match field
    case Range => pc.start > pc.end
    case Class => pc.start <= pc.end && !Spelled(pc.eventClass, "class", 0, 3)
    case StaticVariation => BinaryEntryOk(pc) && !staticOk
    case EventVariation => BinaryEntryOk(pc) && staticOk && !eventOk
  }

  /** f names the first wrong entry of a binary section and the first wrong field of it. */
  predicate FirstInBinary(entries: seq<PointConfig>, f: Fault) {
    f.entry < |entries| && BinaryOk(entries[..f.entry]) && FirstWrong(entries[f.entry], f.field, true, true)
  }

  predicate FirstInAnalog(entries: seq<PointConfig>, f: Fault,
                          statics: string, lastStatic: nat, events: string, lastEvent: nat)
  {
    && f.entry < |entries| && AnalogOk(entries[..f.entry], statics, lastStatic, events, lastEvent)
    && FirstWrong(entries[f.entry], f.field,
                  Spelled(entries[f.entry].staticVariation, statics, 1, lastStatic),
                  Spelled(entries[f.entry].eventVariation, events, 1, lastEvent))
  }

  /** f names the first wrong thing of its section, and the sections before that are in order. */
  predicate FirstWrongIn(db: PointDatabaseConfig, f: Fault) {
    match f.section
    case BinaryInput => FirstInBinary(db.binaryInput, f)
    case BinaryOutputStatus => BinaryOk(db.binaryInput) && FirstInBinary(db.binaryOutputStatus, f)
    case AnalogInput =>
      && BinaryOk(db.binaryInput) && BinaryOk(db.binaryOutputStatus)
      && FirstInAnalog(db.analogInput, f, "Group30Var", 6, "Group32Var", 8)
    case AnalogOutputStatus =>
      && BinaryOk(db.binaryInput) && BinaryOk(db.binaryOutputStatus)
      && AnalogOk(db.analogInput, "Group30Var", 6, "Group32Var", 8)
      && FirstInAnalog(db.analogOutputStatus, f, "Group40Var", 4, "Group42Var", 8)
  }

  /** names are just those spelled prefix1 to prefix-last. */
  ghost predicate NamesSpelled(names: set<string>, prefix: string, last: nat) {
    forall s :: s in names <==> NumberIn(s, prefix, 1, last).Some?
  }

  /** One binary section: reports its first wrong field, or that there is none. */
  method CheckBinarySection(entries: seq<PointConfig>, s: Section) returns (r: Option<Fault>)
    ensures r.None? <==> BinaryOk(entries)
    ensures r.Some? ==> r.value.section == s && FirstInBinary(entries, r.value)
  {
    ClassNamesAreNumbered();
    for i := 0 to |entries|
      invariant BinaryOk(entries[..i])
    {
      if !RangeOk(entries[i]) { return Some(Fault(s, i, Range)); }
      if !NameOk(ClassNames().Keys, entries[i].eventClass) { return Some(Fault(s, i, Class)); }
    }
    return None;
  }

  /** One analog section, which accepts these names of variations. */
  method CheckAnalogSection(entries: seq<PointConfig>, s: Section, statics: set<string>, events: set<string>)
    returns (r: Option<Fault>)
    ensures forall sp, sl: nat, ep, el: nat :: NamesSpelled(statics, sp, sl) && NamesSpelled(events, ep, el) ==>
      && (r.None? <==> AnalogOk(entries, sp, sl, ep, el))
      && (r.Some? ==> r.value.section == s && FirstInAnalog(entries, r.value, sp, sl, ep, el))
  {
    ClassNamesAreNumbered();
    for i := 0 to |entries|
      invariant forall sp, sl: nat, ep, el: nat :: NamesSpelled(statics, sp, sl) && NamesSpelled(events, ep, el) ==>
        AnalogOk(entries[..i], sp, sl, ep, el)
    {
      if !RangeOk(entries[i]) { return Some(Fault(s, i, Range)); }
      if !NameOk(ClassNames().Keys, entries[i].eventClass) { return Some(Fault(s, i, Class)); }
      if !NameOk(statics, entries[i].staticVariation) { return Some(Fault(s, i, StaticVariation)); }
      if !NameOk(events, entries[i].eventVariation) { return Some(Fault(s, i, EventVariation)); }
    }
    return None;
  }

  lemma TablesAreSpelled()
    ensures NamesSpelled(StaticInputNames().Keys, "Group30Var", 6)
    ensures NamesSpelled(EventInputNames().Keys, "Group32Var", 8)
    ensures NamesSpelled(StaticOutputNames().Keys, "Group40Var", 4)
    ensures NamesSpelled(EventOutputNames().Keys, "Group42Var", 8)
  {
    StaticInputNamesAreNumbered();
    EventInputNamesAreNumbered();
    StaticOutputNamesAreNumbered();
    EventOutputNamesAreNumbered();
  }

  /**
   Accepts exactly the databases in which every entry of every section is in
   order; a rejection names the first wrong entry and field in report order.
   */
  method ValidatePointDatabase(db: PointDatabaseConfig) returns (r: Option<Fault>)
    ensures r.None? <==> EveryEntryOk(db)
    ensures r.Some? ==> FirstWrongIn(db, r.value)
    ensures r.None? <==> Valid(db)
    ensures r.Some? ==> FirstBad(db, r.value)
  {
    TablesAreSpelled();
    ValidMeansEveryEntryOk(db);
    r := CheckBinarySection(db.binaryInput, BinaryInput);
    if r.Some? { FirstWrongIsFirstBad(db, r.value); return; }
    r := CheckBinarySection(db.binaryOutputStatus, BinaryOutputStatus);
    if r.Some? { FirstWrongIsFirstBad(db, r.value); return; }
    r := CheckAnalogSection(db.analogInput, AnalogInput, StaticInputNames().Keys, EventInputNames().Keys);
    if r.Some? { FirstWrongIsFirstBad(db, r.value); return; }
    r := CheckAnalogSection(db.analogOutputStatus, AnalogOutputStatus,
                            StaticOutputNames().Keys, EventOutputNames().Keys);
    if r.Some? { FirstWrongIsFirstBad(db, r.value); }
  }

  /** Which fields of an entry are bad, by section. */
  lemma BadFields(db: PointDatabaseConfig, s: Section, k: nat)
    requires k < |EntriesOf(db, s)|
    ensures var pc := EntriesOf(db, s)[k];
      && (Bad(db, Fault(s, k, Range)) <==> pc.start > pc.end)
      && (Bad(db, Fault(s, k, Class)) <==> !Spelled(pc.eventClass, "class", 0, 3))
      && (!IsAnalog(s) ==> !Bad(db, Fault(s, k, StaticVariation)) && !Bad(db, Fault(s, k, EventVariation)))
      && (s == AnalogInput ==>
            && (Bad(db, Fault(s, k, StaticVariation)) <==> !Spelled(pc.staticVariation, "Group30Var", 1, 6))
            && (Bad(db, Fault(s, k, EventVariation)) <==> !Spelled(pc.eventVariation, "Group32Var", 1, 8)))
      && (s == AnalogOutputStatus ==>
            && (Bad(db, Fault(s, k, StaticVariation)) <==> !Spelled(pc.staticVariation, "Group40Var", 1, 4))
            && (Bad(db, Fault(s, k, EventVariation)) <==> !Spelled(pc.eventVariation, "Group42Var", 1, 8)))
  {
    ClassNamesAreNumbered();
    TablesAreSpelled();
  }

  /** A database is valid exactly when every entry of the four sections is in order. */
  lemma ValidMeansEveryEntryOk(db: PointDatabaseConfig)
    ensures Valid(db) <==> EveryEntryOk(db)
  {
    forall f: Fault | EveryEntryOk(db) && f.entry < |EntriesOf(db, f.section)| ensures !Bad(db, f) {
      BadFields(db, f.section, f.entry);
    }
    forall s, k: nat | k < |EntriesOf(db, s)| && Valid(db)
      ensures BinaryEntryOk(EntriesOf(db, s)[k])
      ensures s == AnalogInput ==> Spelled(EntriesOf(db, s)[k].staticVariation, "Group30Var", 1, 6)
      ensures s == AnalogInput ==> Spelled(EntriesOf(db, s)[k].eventVariation, "Group32Var", 1, 8)
      ensures s == AnalogOutputStatus ==> Spelled(EntriesOf(db, s)[k].staticVariation, "Group40Var", 1, 4)
      ensures s == AnalogOutputStatus ==> Spelled(EntriesOf(db, s)[k].eventVariation, "Group42Var", 1, 8)
    {
      BadFields(db, s, k);
    }
    assert EntriesOf(db, BinaryInput) == db.binaryInput && EntriesOf(db, BinaryOutputStatus) == db.binaryOutputStatus;
    assert EntriesOf(db, AnalogInput) == db.analogInput && EntriesOf(db, AnalogOutputStatus) == db.analogOutputStatus;
  }

  /** What is found first, section by section, is the first in report order. */
  lemma FirstWrongIsFirstBad(db: PointDatabaseConfig, f: Fault)
    requires FirstWrongIn(db, f)
    ensures FirstBad(db, f)
  {
    BadFields(db, f.section, f.entry);
    forall g: Fault | Before(g, f) ensures !Bad(db, g) {
      if g.entry < |EntriesOf(db, g.section)| {
        BadFields(db, g.section, g.entry);
        if g.section == f.section && g.entry < f.entry {
          assert EntriesOf(db, f.section)[..f.entry][g.entry] == EntriesOf(db, f.section)[g.entry];
        }
      }
    }
  }

  lemma ReportOrderIsTotal(f: Fault, g: Fault)
    ensures f == g || Before(f, g) || Before(g, f)
  {
    assert SectionRank(f.section) == SectionRank(g.section) ==> f.section == g.section;
    assert FieldRank(f.field) == FieldRank(g.field) ==> f.field == g.field;
  }

  /** The report is determined: no two faults are both the first. */
  lemma FirstBadIsUnique(db: PointDatabaseConfig, f: Fault, g: Fault)
    requires FirstBad(db, f) && FirstBad(db, g)
    ensures f == g
  {
    ReportOrderIsTotal(f, g);
  }

  predicate ConfiguresAPoint(pc: PointConfig) {
    exists i: uint16 :: Covers(pc, i)
  }

  /** A range configures a point exactly when it is not reversed. */
  lemma RangeConfiguresAPoint(pc: PointConfig)
    ensures RangeOk(pc) <==> ConfiguresAPoint(pc)
  {
    if RangeOk(pc) {
      assert Covers(pc, pc.start);
    }
  }

  /**
   Validation is sufficient: in a valid database every entry of every section
   configures at least one point, and every name that is applied is in its table.
   */
  lemma ValidNeedsNoFallback(db: PointDatabaseConfig)
    requires Valid(db)
    ensures forall pc :: pc in db.binaryInput || pc in db.binaryOutputStatus || pc in db.analogInput
                         || pc in db.analogOutputStatus ==>
      ConfiguresAPoint(pc) && NameOk(ClassNames().Keys, pc.eventClass)
    ensures forall pc :: pc in db.analogInput ==>
      NameOk(StaticInputNames().Keys, pc.staticVariation) && NameOk(EventInputNames().Keys, pc.eventVariation)
    ensures forall pc :: pc in db.analogOutputStatus ==>
      NameOk(StaticOutputNames().Keys, pc.staticVariation) && NameOk(EventOutputNames().Keys, pc.eventVariation)
  {
    ValidMeansEveryEntryOk(db);
    ClassNamesAreNumbered();
    TablesAreSpelled();
    forall pc: PointConfig | pc.start <= pc.end ensures ConfiguresAPoint(pc) {
      RangeConfiguresAPoint(pc);
    }
  }

  /** Two setters that agree on all entries give the same overlay. */
  lemma {:induction false} SameOverlay<P(!new)>(put: (PointConfig, P) -> P, put': (PointConfig, P) -> P,
                                                entries: seq<PointConfig>, i: uint16, default: P)
    requires forall pc, p :: pc in entries ==> put(pc, p) == put'(pc, p)
    ensures Overlaid(put, entries, i, default) == Overlaid(put', entries, i, default)
  {
    if entries != [] {
      SameOverlay(put, put', entries[..|entries| - 1], i, default);
    }
  }

  /** The analog-input overlay of a valid database does not depend on the fallbacks. */
  lemma AnalogInputFallbackUnreachable(db: PointDatabaseConfig, i: uint16, default: AnalogInputConfig,
                                       c: PointClass, sv: StaticAnalogVariation, ev: EventAnalogVariation)
    requires Valid(db)
    ensures Overlaid(AnalogSetter(AnalogInputNames()), db.analogInput, i, default)
         == Overlaid((pc, pt) => SetAnalog(c, AnalogInputNames().(staticFallback := sv, eventFallback := ev), pc, pt),
                     db.analogInput, i, default)
  {
    ValidNeedsNoFallback(db);
    SameOverlay(AnalogSetter(AnalogInputNames()),
                (pc, pt) => SetAnalog(c, AnalogInputNames().(staticFallback := sv, eventFallback := ev), pc, pt),
                db.analogInput, i, default);
  }

  lemma AnalogOutputFallbackUnreachable(db: PointDatabaseConfig, i: uint16, default: AnalogOutputConfig, c: PointClass,
                                        sv: StaticAnalogOutputStatusVariation, ev: EventAnalogOutputStatusVariation)
    requires Valid(db)
    ensures Overlaid(AnalogSetter(AnalogOutputNames()), db.analogOutputStatus, i, default)
         == Overlaid((pc, pt) => SetAnalog(c, AnalogOutputNames().(staticFallback := sv, eventFallback := ev), pc, pt),
                     db.analogOutputStatus, i, default)
  {
    ValidNeedsNoFallback(db);
    SameOverlay(AnalogSetter(AnalogOutputNames()),
                (pc, pt) => SetAnalog(c, AnalogOutputNames().(staticFallback := sv, eventFallback := ev), pc, pt),
                db.analogOutputStatus, i, default);
  }

  lemma BinaryInputFallbackUnreachable(
      db: PointDatabaseConfig, i: uint16, default: BinaryPointConfig, c: PointClass)
    requires Valid(db)
    ensures Overlaid(BinarySetter(), db.binaryInput, i, default)
         == Overlaid((pc, pt) => SetBinary(c, pc, pt), db.binaryInput, i, default)
  {
    ValidNeedsNoFallback(db);
    SameOverlay(BinarySetter(), (pc, pt) => SetBinary(c, pc, pt), db.binaryInput, i, default);
  }

  lemma BinaryOutputFallbackUnreachable(
      db: PointDatabaseConfig, i: uint16, default: BinaryPointConfig, c: PointClass)
    requires Valid(db)
    ensures Overlaid(BinarySetter(), db.binaryOutputStatus, i, default)
         == Overlaid((pc, pt) => SetBinary(c, pc, pt), db.binaryOutputStatus, i, default)
  {
    ValidNeedsNoFallback(db);
    SameOverlay(BinarySetter(), (pc, pt) => SetBinary(c, pc, pt), db.binaryOutputStatus, i, default);
  }
}

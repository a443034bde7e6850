/** The object directory of one meter: the records the DLMS server exposes
    (registers, clock, invocation counter, load profile, security setup and
    two associations), the template it is built from, and the searches the
    server runs over it. */
module Directory {
  import opened Common
  import Meter

  /** The COSEM interface class of a directory entry. */
  datatype Kind = Register | Clock | Data | ProfileGeneric | SecuritySetup | AssociationLN

  /** Attribute access modes as the protocol engine knows them. */
  datatype AccessMode = NoAccess | Read | Write | ReadWrite

  /** Data types the directory declares for attributes. */
  datatype DataType = UInt32 | DateTime | Structure

  /** What has been declared about one attribute: an access mode set by
      SetAccess and a data type set by SetDataType, each possibly never set. */
  datatype Attribute = Attribute(access: Option<AccessMode>, dataType: Option<DataType>)

  datatype EnergyUnit = ActiveEnergy | ApparentEnergy

  /** Authentication mechanisms of the protocol engine. */
  datatype Authentication = NoAuthentication | Low | High | HighMd5 | HighSha1 | HighGmac | HighSha256 | HighEcdsa

  /** A capture-object column of a profile: the captured entry (as its index
      in the directory), its attribute index and its data index. */
  datatype Capture = Capture(target: nat, attributeIndex: int, dataIndex: int)

  /** One load-profile row: a day and the four energy readings of that day. */
  datatype Row = Row(day: int, importKwh: int, importKvah: int, exportKwh: int, exportKvah: int)

  /** Class-specific contents of an entry. Entries refer to each other by
      their index in the directory, never by owning each other. */
  datatype Details =
    | Plain
    | RegisterDetails(scaler: int, unit: EnergyUnit)
    | ProfileDetails(capturePeriod: int, profileEntries: int, captures: seq<Capture>,
                     sortObject: nat, sortAttribute: int, buffer: seq<Row>, entriesInUse: int)
    | AssociationDetails(mechanism: Authentication, clientSap: int, secret: Option<seq<Byte>>,
                         securitySetupRef: Option<string>, members: seq<nat>)

  /** One directory entry: class, logical name, short name, declared
      attributes, current value and class-specific contents. */
  datatype Entry = Entry(kind: Kind, ln: string, sn: int, attributes: map<int, Attribute>,
                         value: Option<Reading>, details: Details)

  const CumKwhLn: string := "1.0.1.8.0.255"
  const CumKvahLn: string := "1.0.9.8.0.255"
  const ExportKwhLn: string := "1.0.2.8.0.255"
  const ExportKvahLn: string := "1.0.10.8.0.255"
  const ClockLn: string := "0.0.1.0.0.255"
  const CounterLn: string := "0.0.43.1.3.255"
  /** The shadow invocation counter the request handlers look for. */
  const ShadowCounterLn: string := "0.0.43.1.0.255"
  const LoadProfileLn: string := "1.0.99.2.0.255"
  const SecuritySetupLn: string := "0.0.43.0.0.255"
  const PublicAssociationLn: string := "0.0.40.0.1.255"
  const PrivilegedAssociationLn: string := "0.0.40.0.0.255"

  /** Number of seeded load-profile rows and the step between two days' readings. */
  const SeededDays: nat := 10
  const DailyStep: int := 10

  // ---------------------------------------------------------------------
  // Attribute declarations

  function AttributeAt(e: Entry, index: int): Attribute
  {
    if index in e.attributes then e.attributes[index] else Attribute(None, None)
  }

  /** Declares the access mode of one attribute, keeping its data type. */
  function SetAccess(e: Entry, index: int, mode: AccessMode): Entry
  {
    e.(attributes := e.attributes[index := AttributeAt(e, index).(access := Some(mode))])
  }

  /** Declares the data type of one attribute, keeping its access mode. */
  function SetDataType(e: Entry, index: int, t: DataType): Entry
  {
    e.(attributes := e.attributes[index := AttributeAt(e, index).(dataType := Some(t))])
  }

  /** Declaring an access mode and then the mode an attribute already had
      leaves the entry as it was. */
  lemma SetAccessRestores(e: Entry, index: int, first: AccessMode, mode: AccessMode)
    requires AttributeAt(e, index).access == Some(mode)
    ensures SetAccess(SetAccess(e, index, first), index, mode) == e
  {
  }

  // ---------------------------------------------------------------------
  // The template

  /** A freshly created energy register: scaler 0 and value 1. */
  function NewRegister(ln: string, unit: EnergyUnit): Entry
  {
    Entry(Register, ln, 0, map[], Some(Number(1)), RegisterDetails(0, unit))
  }

  /** The references 0, 1, ..., n-1. */
  function Upto(n: nat): (r: seq<nat>)
    ensures |r| == n
    ensures forall i :: 0 <= i < n ==> r[i] == i
  {
    if n == 0 then [] else Upto(n - 1) + [n - 1]
  }

  /** Row `i` of the seeded load profile that starts on day `start`. */
  function SeedRow(start: int, i: int): Row
  {
    Row(start + i, 1000 + i * DailyStep, 2000 + i * DailyStep, 300 + i * DailyStep, 150 + i * DailyStep)
  }

  /** The seeded buffer: one row per day from `start` on. */
  function SeedRows(start: int): seq<Row>
  {
    seq(SeededDays, i => SeedRow(start, i))
  }

  /** The daily load profile over the given clock and four registers, seeded
      with the ten days before `today`. */
  function LoadProfile(clock: nat, cumKwh: nat, cumKvah: nat, exportKwh: nat, exportKvah: nat,
                       today: int): Entry
  {
    Entry(ProfileGeneric, LoadProfileLn, 0, map[2 := Attribute(Some(Read), Some(Structure))], None,
          ProfileDetails(86400, 10,
                         [Capture(clock, 2, 0), Capture(cumKwh, 2, 0), Capture(cumKvah, 2, 0),
                          Capture(exportKwh, 2, 0), Capture(exportKvah, 2, 0)],
                         clock, 2, SeedRows(today - SeededDays), SeededDays))
  }

  const ValueIsUInt32: map<int, Attribute> := map[2 := Attribute(None, Some(UInt32))]

  /** The invocation counter: logical name readable, value read-write and
      typed UInt32, initial value 1. */
  const CounterEntry: Entry :=
    Entry(Data, CounterLn, 0,
          map[1 := Attribute(Some(Read), None), 2 := Attribute(Some(ReadWrite), Some(UInt32))],
          Some(Number(1)), Plain)

  /** The public association: no authentication, client SAP 10, listing the
      eight entries before it and then itself. */
  const PublicAssociationEntry: Entry :=
    Entry(AssociationLN, PublicAssociationLn, 0, map[], None,
          AssociationDetails(NoAuthentication, 10, None, None, Upto(9)))

  /** The privileged association: high authentication, client SAP 30, secret
      sixteen 'A's, bound to the security setup, listing the nine entries
      before it and then itself. */
  const PrivilegedAssociationEntry: Entry :=
    Entry(AssociationLN, PrivilegedAssociationLn, 0, map[], None,
          AssociationDetails(High, 30, Some(Meter.SixteenA), Some(SecuritySetupLn), Upto(10)))

  /** The directory every server builds, in the order the builder appends
      the entries. `today` is the current UTC day. */
  function BuiltDirectory(today: int): seq<Entry>
  {
    [ Entry(Register, CumKwhLn, 0, ValueIsUInt32, Some(Number(1)), RegisterDetails(0, ActiveEnergy)),
      Entry(Register, CumKvahLn, 0, ValueIsUInt32, Some(Number(1)), RegisterDetails(0, ApparentEnergy)),
      Entry(Register, ExportKwhLn, 0, ValueIsUInt32, Some(Number(1)), RegisterDetails(0, ActiveEnergy)),
      Entry(Register, ExportKvahLn, 0, ValueIsUInt32, Some(Number(1)), RegisterDetails(0, ApparentEnergy)),
      Entry(Clock, ClockLn, 0, map[2 := Attribute(None, Some(DateTime))], None, Plain),
      CounterEntry,
      LoadProfile(4, 0, 1, 2, 3, today),
      Entry(SecuritySetup, SecuritySetupLn, 0, map[], None, Plain),
      PublicAssociationEntry,
      PrivilegedAssociationEntry
    ]
  }

  /** The first seven entries of the built directory: the typed registers,
      the clock, the counter and the load profile. */
  function BuiltHead(today: int): seq<Entry>
  {
    [ Entry(Register, CumKwhLn, 0, ValueIsUInt32, Some(Number(1)), RegisterDetails(0, ActiveEnergy)),
      Entry(Register, CumKvahLn, 0, ValueIsUInt32, Some(Number(1)), RegisterDetails(0, ApparentEnergy)),
      Entry(Register, ExportKwhLn, 0, ValueIsUInt32, Some(Number(1)), RegisterDetails(0, ActiveEnergy)),
      Entry(Register, ExportKvahLn, 0, ValueIsUInt32, Some(Number(1)), RegisterDetails(0, ApparentEnergy)),
      Entry(Clock, ClockLn, 0, map[2 := Attribute(None, Some(DateTime))], None, Plain),
      CounterEntry,
      LoadProfile(4, 0, 1, 2, 3, today) ]
  }

  /** The built directory is its head followed by the security setup and
      the two associations. */
  lemma BuiltPrefix(today: int)
    ensures BuiltDirectory(today) ==
      BuiltHead(today) + [Entry(SecuritySetup, SecuritySetupLn, 0, map[], None, Plain),
                          PublicAssociationEntry, PrivilegedAssociationEntry]
  {
  }

  // ---------------------------------------------------------------------
  // Searches

  predicate Named(e: Entry, kind: Kind, ln: string)
  {
    e.kind == kind && e.ln == ln
  }

  /** The first entry of `dir` with this class and logical name. */
  function FindByLn(dir: seq<Entry>, kind: Kind, ln: string): (r: Option<nat>)
    ensures r.Some? ==> r.value < |dir| && Named(dir[r.value], kind, ln)
    ensures r.Some? ==> forall i :: 0 <= i < r.value ==> !Named(dir[i], kind, ln)
    ensures r.None? <==> forall i :: 0 <= i < |dir| ==> !Named(dir[i], kind, ln)
  {
    if |dir| == 0 then None
    else if Named(dir[0], kind, ln) then Some(0)
    else match FindByLn(dir[1..], kind, ln)
      case None => None
      case Some(j) => Some(j + 1)
  }

  /** Two directories whose entries agree, position by position, on
      whether they carry this class and name give the same answer. */
  lemma FindByLnSameNames(a: seq<Entry>, b: seq<Entry>, kind: Kind, ln: string)
    requires |a| == |b|
    requires forall i :: 0 <= i < |a| ==> (Named(a[i], kind, ln) <==> Named(b[i], kind, ln))
    ensures FindByLn(a, kind, ln) == FindByLn(b, kind, ln)
  {
    var x := FindByLn(a, kind, ln);
    var y := FindByLn(b, kind, ln);
    if x.Some? && y.Some? {
      assert !(x.value < y.value) && !(y.value < x.value);
    }
  }

  /** The first entry of `dir` with this short name. */
  function FindBySn(dir: seq<Entry>, sn: int): (r: Option<nat>)
    ensures r.Some? ==> r.value < |dir| && dir[r.value].sn == sn
    ensures r.Some? ==> forall i :: 0 <= i < r.value ==> dir[i].sn != sn
    ensures r.None? <==> forall i :: 0 <= i < |dir| ==> dir[i].sn != sn
  {
    if |dir| == 0 then None
    else if dir[0].sn == sn then Some(0)
    else match FindBySn(dir[1..], sn)
      case None => None
      case Some(j) => Some(j + 1)
  }

  /** Whether reference `m` denotes an entry of `dir` with this class and
      logical name. */
  predicate MemberNamed(dir: seq<Entry>, m: nat, kind: Kind, ln: string)
  {
    m < |dir| && Named(dir[m], kind, ln)
  }

  /** The position of the first member of an association's object list
      (references into `dir`) whose entry has this class and logical name. */
  function FindMember(dir: seq<Entry>, members: seq<nat>, kind: Kind, ln: string): (r: Option<nat>)
    ensures r.Some? ==> r.value < |members| && MemberNamed(dir, members[r.value], kind, ln)
    ensures r.Some? ==> forall i :: 0 <= i < r.value ==> !MemberNamed(dir, members[i], kind, ln)
    ensures r.None? <==> forall i :: 0 <= i < |members| ==> !MemberNamed(dir, members[i], kind, ln)
  {
    if |members| == 0 then None
    else if MemberNamed(dir, members[0], kind, ln) then Some(0)
    else match FindMember(dir, members[1..], kind, ln)
      case None => None
      case Some(j) => Some(j + 1)
  }

  /** The server's FindObject: by logical name and class when a name is
      given (never falling back to the short name), otherwise by a non-zero
      short name, otherwise nothing. A null name is the empty string here. */
  function FindObject(dir: seq<Entry>, kind: Kind, sn: int, ln: string): (r: Option<Entry>)
    ensures ln != "" ==>
      (r.None? <==> forall i :: 0 <= i < |dir| ==> !Named(dir[i], kind, ln))
    ensures ln != "" && r.Some? ==>
      exists i :: 0 <= i < |dir| && dir[i] == r.value && Named(dir[i], kind, ln) &&
        forall j :: 0 <= j < i ==> !Named(dir[j], kind, ln)
    ensures ln == "" && sn != 0 ==>
      (r.None? <==> forall i :: 0 <= i < |dir| ==> dir[i].sn != sn)
    ensures ln == "" && sn != 0 && r.Some? ==>
      exists i :: 0 <= i < |dir| && dir[i] == r.value && dir[i].sn == sn &&
        forall j :: 0 <= j < i ==> dir[j].sn != sn
    ensures ln == "" && sn == 0 ==> r.None?
  {
    if ln != "" then
      match FindByLn(dir, kind, ln)
      case None => None
      case Some(i) => Some(dir[i])
    else if sn != 0 then
      match FindBySn(dir, sn)
      case None => None
      case Some(i) => Some(dir[i])
    else None
  }

  // ---------------------------------------------------------------------
  // Properties of the built directory

  /** The names of the built directory, in order. */
  function Names(dir: seq<Entry>): (names: seq<string>)
    ensures |names| == |dir|
    ensures forall i :: 0 <= i < |dir| ==> names[i] == dir[i].ln
  {
    seq(|dir|, i requires 0 <= i < |dir| => dir[i].ln)
  }

  /** The builder appends four registers, the clock, the invocation counter,
      the load profile, the security setup and the two associations, in that
      order, with the classes the source creates. */
  lemma BuiltDirectoryOrder(today: int)
    ensures Names(BuiltDirectory(today)) ==
      [CumKwhLn, CumKvahLn, ExportKwhLn, ExportKvahLn, ClockLn, CounterLn,
       LoadProfileLn, SecuritySetupLn, PublicAssociationLn, PrivilegedAssociationLn]
    ensures var d := BuiltDirectory(today);
      d[0].kind == d[1].kind == d[2].kind == d[3].kind == Register && d[4].kind == Clock &&
      d[5].kind == Data && d[6].kind == ProfileGeneric && d[7].kind == SecuritySetup &&
      d[8].kind == AssociationLN && d[9].kind == AssociationLN
  {
  }

  /** No two entries of the built directory share a logical name. */
  lemma BuiltNamesDistinct(today: int)
    ensures forall i, j :: 0 <= i < j < |BuiltDirectory(today)| ==>
      BuiltDirectory(today)[i].ln != BuiltDirectory(today)[j].ln
  {
  }

  /** Hence a lookup by name and class finds exactly the entry the builder
      created under that name, and at most one entry matches. */
  lemma BuiltLookupHitsOnce(today: int, i: nat)
    requires i < |BuiltDirectory(today)|
    ensures var d := BuiltDirectory(today);
      FindObject(d, d[i].kind, 0, d[i].ln) == Some(d[i]) &&
      forall j :: 0 <= j < |d| && Named(d[j], d[i].kind, d[i].ln) ==> j == i
  {
    var d := BuiltDirectory(today);
    BuiltNamesDistinct(today);
    assert d[i].ln != "";
    var r := FindByLn(d, d[i].kind, d[i].ln);
    assert r.Some?;
  }

  /** Every entry of the built directory has short name 0, so a lookup by a
      non-zero short name never finds anything. */
  lemma BuiltShortNameMisses(today: int, kind: Kind, sn: int)
    requires sn != 0
    ensures FindObject(BuiltDirectory(today), kind, sn, "") == None
  {
  }

  /** The shadow invocation counter is never created, so the searches for it
      come back empty. */
  lemma ShadowCounterAbsent(today: int)
    ensures FindByLn(BuiltDirectory(today), Data, ShadowCounterLn) == None
  {
  }

  /** The public association lists the first eight entries and then itself;
      the privileged one lists the first nine (the public association among
      them) and then itself. So every object the public association shows is
      shown by the privileged one. */
  lemma AssociationMembers(today: int)
    ensures var d := BuiltDirectory(today);
      var pub := d[8].details.members;
      var priv := d[9].details.members;
      && |pub| == 9 && pub[..8] == Upto(8) && pub[8] == 8 && d[8].ln == PublicAssociationLn
      && |priv| == 10 && priv[..9] == Upto(9) && priv[9] == 9 && d[9].ln == PrivilegedAssociationLn
      && (forall m :: m in pub ==> m in priv)
      && (forall m :: m in priv ==> m < |d|)
  {
    var d := BuiltDirectory(today);
    var pub := d[8].details.members;
    var priv := d[9].details.members;
    assert pub[..8] == Upto(8);
    assert priv[..9] == Upto(9);
    forall m | m in pub ensures m in priv {
      var i :| 0 <= i < |pub| && pub[i] == m;
      assert priv[i] == m;
    }
  }

  /** The seeded load profile holds ten rows, counts them all as in use, has
      strictly ascending days ending yesterday, follows the fixed linear
      pattern, and captures clock, import kWh, import kVAh, export kWh and
      export kVAh, sorted by the clock. */
  lemma LoadProfileSeeding(today: int)
    ensures var p := BuiltDirectory(today)[6].details;
      && |p.buffer| == 10 && p.entriesInUse == |p.buffer|
      && (forall i :: 0 <= i < |p.buffer| ==>
            p.buffer[i] == Row(today - 10 + i, 1000 + 10 * i, 2000 + 10 * i, 300 + 10 * i, 150 + 10 * i))
      && (forall i, j :: 0 <= i < j < |p.buffer| ==> p.buffer[i].day < p.buffer[j].day)
      && p.buffer[9].day == today - 1
      && [BuiltDirectory(today)[p.captures[0].target].ln, BuiltDirectory(today)[p.captures[1].target].ln,
          BuiltDirectory(today)[p.captures[2].target].ln, BuiltDirectory(today)[p.captures[3].target].ln,
          BuiltDirectory(today)[p.captures[4].target].ln]
         == [ClockLn, CumKwhLn, CumKvahLn, ExportKwhLn, ExportKvahLn]
      && |p.captures| == 5
      && BuiltDirectory(today)[p.sortObject].kind == Clock && p.sortAttribute == 2
  {
  }
}

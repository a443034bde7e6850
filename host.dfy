/** The DLMS server host of one meter: it builds the meter's object
    directory, answers the protocol engine's read and write batches from the
    meter's value store and the shadow invocation counter, and owns a
    listener that is either running or stopped. */
module Host {
  import opened Common
  import opened Directory
  import Meter
  import Policy

  /** One attribute request of a batch: the target's class and logical
      name, the attribute index, the value, and whether the server handled
      the request itself (so that the engine skips its default handling). */
  datatype Request = Request(kind: Kind, ln: string, index: int, value: Option<Reading>, handled: bool)

  /** A request for the value attribute of the invocation counter. Only the
      logical name and the index are compared, not the class. */
  predicate IsCounterValue(req: Request)
  {
    req.ln == CounterLn && req.index == 2
  }

  /** Where the shadow invocation counter sits in the engine's item list. */
  function ShadowIndex(items: seq<Entry>): Option<nat>
  {
    FindByLn(items, Data, ShadowCounterLn)
  }

  /** What PreRead makes of one request: first the counter special case,
      then the value store, whose answer wins whenever it is not null. */
  function ReadOne(req: Request, items: seq<Entry>, store: Meter.Store): Request
  {
    var fromShadow :=
      if IsCounterValue(req) && ShadowIndex(items).Some?
      then req.(value := items[ShadowIndex(items).value].value, handled := true)
      else req;
    if (req.kind == Register || req.kind == Data) && Meter.Lookup(store, req.ln).Some?
    then fromShadow.(value := Meter.Lookup(store, req.ln), handled := true)
    else fromShadow
  }

  /** What PreWrite makes of one request: a counter write is marked handled
      when the shadow exists; the request's value is left as it is. */
  function WriteOne(req: Request, hasShadow: bool): Request
  {
    if IsCounterValue(req) && hasShadow then req.(handled := true) else req
  }

  /** The shadow's value after a write batch: the value of the last counter
      write in the batch, or `current` when there is none. */
  function LastCounterWrite(reqs: seq<Request>, current: Option<Reading>): Option<Reading>
  {
    if reqs == [] then current
    else if IsCounterValue(reqs[|reqs| - 1]) then reqs[|reqs| - 1].value
    else LastCounterWrite(reqs[..|reqs| - 1], current)
  }

  /** The item list after a write batch: only the shadow's value changes. */
  function AfterWrites(items: seq<Entry>, reqs: seq<Request>): seq<Entry>
  {
    match ShadowIndex(items)
    case None => items
    case Some(j) => items[j := items[j].(value := LastCounterWrite(reqs, items[j].value))]
  }

  /** LastCounterWrite picks the value of the last counter write, and keeps
      the shadow's value when the batch has no counter write. */
  lemma {:induction false} LastCounterWriteIsLast(reqs: seq<Request>, current: Option<Reading>)
    ensures (forall i :: 0 <= i < |reqs| ==> !IsCounterValue(reqs[i])) ==>
              LastCounterWrite(reqs, current) == current
    ensures forall k :: (0 <= k < |reqs| && IsCounterValue(reqs[k]) &&
                         forall j :: k < j < |reqs| ==> !IsCounterValue(reqs[j])) ==>
              LastCounterWrite(reqs, current) == reqs[k].value
  {
    if reqs != [] {
      var n := |reqs| - 1;
      var init := reqs[..n];
      assert forall i :: 0 <= i < n ==> init[i] == reqs[i];
      if !IsCounterValue(reqs[n]) {
        assert LastCounterWrite(reqs, current) == LastCounterWrite(init, current);
        LastCounterWriteIsLast(init, current);
      }
    }
  }

  /** One more request extends the batch: a counter write replaces the
      shadow's pending value, anything else keeps it. */
  lemma LastCounterWriteStep(reqs: seq<Request>, i: nat, current: Option<Reading>)
    requires i < |reqs|
    ensures LastCounterWrite(reqs[..i + 1], current) ==
      if IsCounterValue(reqs[i]) then reqs[i].value else LastCounterWrite(reqs[..i], current)
  {
    assert reqs[..i + 1][..i] == reqs[..i];
  }

  /** The clock typed DateTime and the counter with its access modes and
      UInt32 type are the entries the directory lists. */
  lemma TypedClockAndCounter()
    ensures SetDataType(Entry(Clock, ClockLn, 0, map[], None, Plain), 2, DateTime) ==
      Entry(Clock, ClockLn, 0, map[2 := Attribute(None, Some(DateTime))], None, Plain)
    ensures SetDataType(SetAccess(SetAccess(Entry(Data, CounterLn, 0, map[], Some(Number(1)), Plain), 1, Read),
                                  2, ReadWrite), 2, UInt32) == CounterEntry
  {
    var c := SetAccess(SetAccess(Entry(Data, CounterLn, 0, map[], Some(Number(1)), Plain), 1, Read), 2, ReadWrite);
    assert SetDataType(c, 2, UInt32).attributes == CounterEntry.attributes;
  }

  /** Declaring the value attribute of a fresh register UInt32 gives the
      register as the directory lists it. */
  lemma TypedRegister(ln: string, unit: EnergyUnit)
    ensures SetDataType(NewRegister(ln, unit), 2, UInt32) ==
      Entry(Register, ln, 0, ValueIsUInt32, Some(Number(1)), RegisterDetails(0, unit))
  {
  }

  /** Changing the value of one entry does not move any search by class and
      logical name. */
  lemma {:induction false} FindByLnIgnoresValue(items: seq<Entry>, j: nat, v: Option<Reading>, kind: Kind, ln: string)
    requires j < |items|
    ensures FindByLn(items[j := items[j].(value := v)], kind, ln) == FindByLn(items, kind, ln)
  {
    var updated := items[j := items[j].(value := v)];
    forall i | 0 <= i < |items|
      ensures Named(updated[i], kind, ln) <==> Named(items[i], kind, ln)
    {
      assert updated[i].kind == items[i].kind && updated[i].ln == items[i].ln;
    }
    FindByLnSameNames(updated, items, kind, ln);
  }

  /** On a non-null store answer for a register or data object, PreRead
      serves that answer and marks the request handled, whatever the
      attribute index and even after the counter special case fired. */
  lemma StoreAnswerWins(req: Request, items: seq<Entry>, store: Meter.Store)
    requires req.kind == Register || req.kind == Data
    requires Meter.Lookup(store, req.ln).Some?
    ensures ReadOne(req, items, store) == req.(value := Meter.Lookup(store, req.ln), handled := true)
  {
  }

  /** PreRead never consults the access table: a register's scaler-unit
      attribute, which the table denies, is still served from the store. */
  lemma PreReadIgnoresAccessTable(req: Request, items: seq<Entry>, store: Meter.Store, view: Policy.AssociationView)
    requires req.kind == Register && req.index == 3
    requires Meter.Lookup(store, req.ln).Some?
    ensures Policy.GetAttributeAccess(Policy.AttributeQuery(req.kind, req.index, view)) == NoAccess
    ensures ReadOne(req, items, store).handled
    ensures ReadOne(req, items, store).value == Meter.Lookup(store, req.ln)
  {
  }

  /** On the directory the server actually builds, the counter special case
      never fires: PreRead serves exactly the non-null store answers for
      register and data targets and leaves every other request untouched,
      and PreWrite touches no request and no item. */
  lemma BuiltDirectoryHandlers(today: int, req: Request, store: Meter.Store, reqs: seq<Request>)
    ensures ReadOne(req, BuiltDirectory(today), store) ==
      if (req.kind == Register || req.kind == Data) && Meter.Lookup(store, req.ln).Some?
      then req.(value := Meter.Lookup(store, req.ln), handled := true)
      else req
    ensures WriteOne(req, ShadowIndex(BuiltDirectory(today)).Some?) == req
    ensures AfterWrites(BuiltDirectory(today), reqs) == BuiltDirectory(today)
  {
    ShadowCounterAbsent(today);
  }

  /** Where a shadow counter does exist, the mechanism works as designed: a
      counter write stores its value in the shadow, and a later read of the
      counter answers the shadow's value unless the store holds one. */
  lemma ShadowRoundTrip(items: seq<Entry>, write: Request, read: Request, store: Meter.Store)
    requires ShadowIndex(items).Some?
    requires IsCounterValue(write) && IsCounterValue(read)
    requires Meter.Lookup(store, read.ln).None?
    ensures WriteOne(write, true).handled
    ensures var after := AfterWrites(items, [write]);
      ReadOne(read, after, store) == read.(value := write.value, handled := true)
  {
    var j := ShadowIndex(items).value;
    FindByLnIgnoresValue(items, j, write.value, Data, ShadowCounterLn);
  }

  class DlmsServerHost {
    const meter: Meter.DlmsMeter
    const port: Int32
    /** Engine settings fixed by the constructor. */
    const useLogicalNameReferencing: bool := true
    const authentication: Authentication := High
    const maxPduSize: int := 65535

    /** The server's own object collection. */
    var objects: seq<Entry>
    /** The engine's item list; it holds the same objects. */
    var items: seq<Entry>
    /** Whether the listener is open. */
    var running: bool

    ghost predicate Valid()
      reads this
    {
      items == objects
    }

    constructor (meter: Meter.DlmsMeter, port: Int32, today: int)
      ensures this.meter == meter && this.port == port
      ensures Valid() && objects == BuiltDirectory(today) && !running
    {
      this.meter := meter;
      this.port := port;
      objects := [];
      items := [];
      running := false;
      new;
      InitializeObjects(today);
      InitializeSecuritySetup();
      InitializeAssociation();
      items := items + objects;
      BuiltPrefix(today);
    }

    /** Creates the four registers, the clock and the invocation counter,
        appends them, declares their data types and adds the load profile. */
    method InitializeObjects(today: int)
      requires objects == []
      modifies this`objects
      ensures objects == BuiltHead(today)
    {
      var clock := Entry(Clock, ClockLn, 0, map[], None, Plain);
      var cumKwh := NewRegister(CumKwhLn, ActiveEnergy);
      var cumKvah := NewRegister(CumKvahLn, ApparentEnergy);
      var exportKwh := NewRegister(ExportKwhLn, ActiveEnergy);
      var exportKvah := NewRegister(ExportKvahLn, ApparentEnergy);
      var counter := Entry(Data, CounterLn, 0, map[], Some(Number(1)), Plain);
      counter := SetAccess(counter, 1, Read);
      counter := SetAccess(counter, 2, ReadWrite);

      objects := objects + [cumKwh];
      objects := objects + [cumKvah];
      objects := objects + [exportKwh];
      objects := objects + [exportKvah];
      objects := objects + [clock];
      objects := objects + [counter];

      // The collection holds the objects themselves, so the data types are
      // declared on the appended entries.
      objects := objects[4 := SetDataType(objects[4], 2, DateTime)];
      objects := objects[0 := SetDataType(objects[0], 2, UInt32)];
      objects := objects[1 := SetDataType(objects[1], 2, UInt32)];
      objects := objects[2 := SetDataType(objects[2], 2, UInt32)];
      objects := objects[3 := SetDataType(objects[3], 2, UInt32)];
      objects := objects[5 := SetDataType(objects[5], 2, UInt32)];

      TypedRegister(CumKwhLn, ActiveEnergy);
      TypedRegister(CumKvahLn, ApparentEnergy);
      TypedRegister(ExportKwhLn, ActiveEnergy);
      TypedRegister(ExportKvahLn, ApparentEnergy);
      TypedClockAndCounter();
      AddDailyLoadProfile(4, 0, 1, 2, 3, today);
    }

    /** Builds the daily load profile over the given entries, seeds its
        buffer with one row for each of the ten days before `today`, and
        appends it. */
    method AddDailyLoadProfile(clock: nat, cumKwh: nat, cumKvah: nat, exportKwh: nat, exportKvah: nat,
                               today: int)
      modifies this`objects
      ensures objects == old(objects) + [LoadProfile(clock, cumKwh, cumKvah, exportKwh, exportKvah, today)]
    {
      var captures := [Capture(clock, 2, 0), Capture(cumKwh, 2, 0), Capture(cumKvah, 2, 0),
                       Capture(exportKwh, 2, 0), Capture(exportKvah, 2, 0)];
      var profile := Entry(ProfileGeneric, LoadProfileLn, 0, map[], None,
                           ProfileDetails(86400, 10, captures, 0, 0, [], 0));
      profile := SetAccess(profile, 2, Read);
      profile := profile.(details := profile.details.(sortObject := clock, sortAttribute := 2));

      var start := today - 10;
      var buffer: seq<Row> := [];
      for i := 0 to 10
        invariant |buffer| == i
        invariant forall k :: 0 <= k < i ==> buffer[k] == SeedRow(start, k)
      {
        buffer := buffer + [Row(start + i, 1000 + i * 10, 2000 + i * 10, 300 + i * 10, 150 + i * 10)];
      }
      assert buffer == SeedRows(start);

      profile := profile.(details := profile.details.(buffer := buffer, entriesInUse := |buffer|));
      profile := SetDataType(profile, 2, Structure);
      assert profile.attributes == map[2 := Attribute(Some(Read), Some(Structure))];
      assert profile.details == LoadProfile(clock, cumKwh, cumKvah, exportKwh, exportKvah, today).details;
      assert profile == LoadProfile(clock, cumKwh, cumKvah, exportKwh, exportKvah, today);
      objects := objects + [profile];
    }

    /** Appends the security setup object. */
    method InitializeSecuritySetup()
      modifies this`objects
      ensures objects == old(objects) + [Entry(SecuritySetup, SecuritySetupLn, 0, map[], None, Plain)]
    {
      var securitySetup := Entry(SecuritySetup, SecuritySetupLn, 0, map[], None, Plain);
      objects := objects + [securitySetup];
    }

    /** Appends the public association, whose object list is every entry so
        far and itself, then the privileged association, likewise. After each
        one it redeclares the invocation counter's value access through the
        new object list: Read, then ReadWrite, on the same shared entry, which
        therefore ends as it was. */
    method InitializeAssociation()
      requires |objects| == 8 && objects[5] == CounterEntry
      requires forall i :: 0 <= i < 5 ==> !Named(objects[i], Data, CounterLn)
      modifies this`objects
      ensures objects == old(objects) + [PublicAssociationEntry, PrivilegedAssociationEntry]
    {
      var publicMembers := Upto(|objects|) + [|objects|];
      var publicAssoc := Entry(AssociationLN, PublicAssociationLn, 0, map[], None,
                               AssociationDetails(NoAuthentication, 10, None, None, publicMembers));
      objects := objects + [publicAssoc];
      var icPublic := FindMember(objects, publicMembers, Data, CounterLn);
      assert publicMembers[5] == 5;
      assert icPublic == Some(5);
      if icPublic.Some? {
        var k := publicMembers[icPublic.value];
        objects := objects[k := SetAccess(objects[k], 2, Read)];
      }

      var privilegedMembers := Upto(|objects|) + [|objects|];
      var association := Entry(AssociationLN, PrivilegedAssociationLn, 0, map[], None,
                               AssociationDetails(High, 30, Some(Meter.SixteenA), Some(SecuritySetupLn),
                                                  privilegedMembers));
      objects := objects + [association];
      var ic := FindMember(objects, privilegedMembers, Data, CounterLn);
      assert privilegedMembers[5] == 5;
      assert ic == Some(5);
      if ic.Some? {
        var k := privilegedMembers[ic.value];
        objects := objects[k := SetAccess(objects[k], 2, ReadWrite)];
      }
      SetAccessRestores(CounterEntry, 2, Read, ReadWrite);
      assert publicMembers == Upto(9);
      assert privilegedMembers == Upto(10);
    }

    /** Resolves a read batch in order: each request becomes ReadOne of
        itself against the item list and the meter's store. */
    method PreRead(args: array<Request>)
      modifies args
      ensures forall i :: 0 <= i < args.Length ==> args[i] == ReadOne(old(args[i]), items, meter.values)
    {
      for i := 0 to args.Length
        invariant forall k :: 0 <= k < i ==> args[k] == ReadOne(old(args[k]), items, meter.values)
        invariant forall k :: i <= k < args.Length ==> args[k] == old(args[k])
      {
        var arg := args[i];
        if arg.ln == CounterLn && arg.index == 2 {
          var ic0 := FindByLn(items, Data, ShadowCounterLn);
          if ic0.Some? {
            arg := arg.(value := items[ic0.value].value, handled := true);
          }
        }
        var obis := arg.ln;
        if arg.kind == Register || arg.kind == Data {
          var value := meter.GetValue(obis);
          if value.Some? {
            arg := arg.(value := value, handled := true);
          }
        }
        args[i] := arg;
      }
    }

    /** Resolves a write batch in order: a counter write goes to the shadow
        counter and is marked handled when the shadow exists; nothing else
        is touched, and the meter's value store is never written. */
    method PreWrite(args: array<Request>)
      requires Valid()
      modifies this`objects, this`items, args
      ensures Valid()
      ensures forall i :: 0 <= i < args.Length ==>
        args[i] == WriteOne(old(args[i]), ShadowIndex(old(items)).Some?)
      ensures items == AfterWrites(old(items), old(args[..]))
      ensures meter.values == old(meter.values)
    {
      ghost var batch := args[..];
      ghost var shadow := ShadowIndex(items);
      for i := 0 to args.Length
        invariant Valid()
        invariant |items| == |old(items)|
        invariant ShadowIndex(items) == shadow
        invariant forall k :: 0 <= k < i ==> args[k] == WriteOne(batch[k], shadow.Some?)
        invariant forall k :: i <= k < args.Length ==> args[k] == batch[k]
        invariant shadow.None? ==> items == old(items)
        invariant shadow.Some? ==>
          items == old(items)[shadow.value := old(items)[shadow.value].(value :=
                     LastCounterWrite(batch[..i], old(items)[shadow.value].value))]
      {
        var arg := args[i];
        LastCounterWriteStep(batch, i, if shadow.Some? then old(items)[shadow.value].value else None);
        if arg.ln == CounterLn && arg.index == 2 {
          var ic0 := FindByLn(items, Data, ShadowCounterLn);
          if ic0.Some? {
            FindByLnIgnoresValue(items, ic0.value, arg.value, Data, ShadowCounterLn);
            items := items[ic0.value := items[ic0.value].(value := arg.value)];
            objects := items;
            args[i] := arg.(handled := true);
          }
        }
      }
      assert batch[..args.Length] == batch;
    }

    /** Opens the listener. Opening throws when the port cannot be bound;
        `portFree` says whether it can. */
    method Start(portFree: bool) returns (ok: bool)
      modifies this`running
      ensures ok == portFree
      ensures running == (old(running) || portFree)
    {
      if !portFree {
        ok := false;
        return;
      }
      running := true;
      ok := true;
    }

    /** Closes the listener; closing a closed listener changes nothing. */
    method Stop()
      modifies this`running
      ensures !running
    {
      running := false;
    }
  }
}

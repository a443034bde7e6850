# Meter simulator: a Dafny model of the DLMS meter core

The meter simulator runs a fleet of simulated DLMS/COSEM electricity meters. Each meter listens on its own TCP port. The wire protocol belongs to an external DLMS engine. This project models the simulator's own logic:

- **Value store** (`Meter`, file `meter.dfy`). Class `DlmsMeter` keeps a meter's identity, its fixed credentials and a `map` from OBIS code to a nullable reading. Writes overwrite in place. A read returns null both for a missing key and for a stored null.
- **Object directory** (`Directory`, `directory.dfy`). Each entry is a record: class, logical name, short name, declared attributes, value and class-specific contents. It also holds:
  - `BuiltDirectory`, the ten-entry template every server builds;
  - the first-match searches (`FindByLn`, `FindBySn`, `FindMember`, `FindObject`);
  - the facts about the template: order, distinct names, association member lists, load-profile seeding.
- **Access answers** (`Policy`, `policy.dfy`). This is the attribute access table, the constant method-access and target answers, and the authentication check.
- **Server host** (`Host`, `host.dfy`). Class `DlmsServerHost` builds its directory step by step, the same way the source's constructor does. `PreRead` and `PreWrite` process a batch (an `array` of requests) in place. A flag records whether the listener is running.
- **Fleet manager** (`Fleet`, `fleet.dfy`). Class `MeterManager` appends one meter and one server per configured slot. `StartAll` and `StopAll` run over the server list in order. This module also has the `MTR00001` meter-number format and its round trip.

Association object lists refer to directory entries by their index, never by owning them. The engine's item list and the host's object collection hold the same objects. The host keeps both sequences and requires them to be equal (`Valid`). A write to the shadow counter updates both.

C# `int` additions (`BasePort + i`, `ServerAddressStart + i`) are unchecked. The model wraps them into 32 bits (`Common.AddInt32`). "Today" (`DateTime.UtcNow.Date`) is an integer day passed in. Whether a port can be bound is a parameter of `Start`. In `StartAll` a port cannot be bound when it is outside the TCP range 1..65535 (the configuration is never checked, so `BasePort + i` can leave it), when another server of the list listens on it, or when something outside the list holds it; the last case is a parameter.

The model follows the code where one might expect otherwise:

- The access table ignores the association in use.
- `PreRead` never consults the access table.
- `PreWrite` never writes the value store.
- Under `Low`, authentication accepts the hard-coded sixteen `A`s and not the meter's `LlsPassword`.
- A stored null cannot be told apart from a missing key.
- The shadow counter `0.0.43.1.0.255` is never created.
- `StartAll` stops at the first start that fails.
- The seeded load profile ends yesterday, not today.

## Model

| member | source | states |
|---|---|---|
| Common.AddInt32 | Meter-Simulator/Simulation/MeterManager.cs:28-31 | unchecked 32-bit `int` addition: the exact sum when it fits, otherwise the sum shifted by 2^32 |
| Meter.SetThenGet | Meter-Simulator/DLMS/DLMSMeter.cs:46-55 | after a write of `v` to a key, a read of that key gives `v`, also when the key already held a value |
| Meter.SetLeavesOthers | Meter-Simulator/DLMS/DLMSMeter.cs:46-49 | a write leaves every other key's answer unchanged, its key set is the old one plus the written key, and it adds at most one entry |
| Meter.NullHidesAbsence | Meter-Simulator/DLMS/DLMSMeter.cs:51-55 | a read gives null exactly when the key was never written or was last written with null; removing a key and storing null under it read the same |
| Meter.DlmsMeter.constructor | Meter-Simulator/DLMS/DLMSMeter.cs:9-44 | number, logical name, client and server address are stored unchanged; the system title is "SIMULATR", both keys are sixteen 'A's, the LLS password is "12345678", and the store starts empty |
| Meter.DlmsMeter.SetValue | Meter-Simulator/DLMS/DLMSMeter.cs:46-49 | the new store is the old one with the key overwritten or inserted |
| Meter.DlmsMeter.GetValue | Meter-Simulator/DLMS/DLMSMeter.cs:51-55 | returns the stored reading, or null when the key is missing or holds null; the store is unchanged |
| Meter.DlmsMeter.GetAllValues | Meter-Simulator/DLMS/DLMSMeter.cs:57-58 | returns the current map: every key ever written with its last value |
| Directory.FindByLn | Meter-Simulator/DLMS/DLMSServerHost.cs:290-297 | returns the first entry with the given class and logical name, or nothing exactly when no entry has both |
| Directory.FindBySn | Meter-Simulator/DLMS/DLMSServerHost.cs:299-302 | returns the first entry with the given short name, or nothing exactly when none has it |
| Directory.FindMember | Meter-Simulator/DLMS/DLMSServerHost.cs:163-167 | returns the position of the first member of an association's object list whose entry has the given class and name, or nothing when no member has them |
| Directory.FindObject | Meter-Simulator/DLMS/DLMSServerHost.cs:288-305 | with a non-empty name: the first entry with that name and class, or null, never by short name; with an empty name and a non-zero short name: the first entry with that short name; otherwise null |
| Directory.SetAccessRestores | Meter-Simulator/DLMS/DLMSServerHost.cs:163-211 | declaring an access mode and then the mode the attribute already had leaves the entry unchanged, so the counter's Read-then-ReadWrite redeclaration ends at ReadWrite |
| Directory.BuiltDirectoryOrder | Meter-Simulator/DLMS/DLMSServerHost.cs:42-212 | the built directory is cumKwh, cumKvah, exportKwh, exportKvah, clock, invocation counter, load profile, security setup, public association and privileged association, in that order, with those classes |
| Directory.BuiltPrefix | Meter-Simulator/DLMS/DLMSServerHost.cs:42-45 | the built directory is the seven entries `InitializeObjects` creates (`BuiltHead`), then the security setup, then the two associations, in the constructor's call order |
| Directory.BuiltNamesDistinct | Meter-Simulator/DLMS/DLMSServerHost.cs:49-212 | the ten logical names of the built directory are pairwise distinct |
| Directory.BuiltLookupHitsOnce | Meter-Simulator/DLMS/DLMSServerHost.cs:288-297 | looking up any built entry by its class and name returns that entry, and no other entry matches |
| Directory.BuiltShortNameMisses | Meter-Simulator/DLMS/DLMSServerHost.cs:299-302 | all short names are 0, so a lookup by a non-zero short name with an empty name finds nothing |
| Directory.ShadowCounterAbsent | Meter-Simulator/DLMS/DLMSServerHost.cs:248-257 | the built directory has no Data object named 0.0.43.1.0.255 |
| Directory.AssociationMembers | Meter-Simulator/DLMS/DLMSServerHost.cs:159-205 | the public list is the first 8 entries plus the public association; the privileged list is the first 9 (the public association among them) plus itself; every public member is a privileged member, and all members are in range |
| Directory.LoadProfileSeeding | Meter-Simulator/DLMS/DLMSServerHost.cs:398-445 | the profile has 10 rows and 10 entries in use; row i is day today-10+i with 1000+10i, 2000+10i, 300+10i, 150+10i; days strictly ascend and end yesterday; the captures are clock, cumKwh, cumKvah, exportKwh and exportKvah, and the sort object is the clock's attribute 2 |
| Policy.GetAttributeAccess | Meter-Simulator/DLMS/DLMSServerHost.cs:315-333 | Read exactly for attribute 2 of Register, Clock and Association LN and for every attribute of a profile; ReadWrite exactly for attribute 2 of Data; NoAccess otherwise; never Write |
| Policy.AccessIgnoresAssociation | Meter-Simulator/DLMS/DLMSServerHost.cs:315-333 | the answer is the same on the public and the privileged association |
| Policy.TableVersusDeclared | Meter-Simulator/DLMS/DLMSServerHost.cs:93-94 | the table agrees with the declared access of attribute 2 wherever one is declared; it denies the counter's attribute 1, which the directory declares Read, and it denies every security-setup attribute |
| Policy.ConstantAnswers | Meter-Simulator/DLMS/DLMSServerHost.cs:309-348 | the four constant overrides: `Policy.GetAttributeAccess3` is always Read, `Policy.GetMethodAccess` and `Policy.GetMethodAccess3` always allow, and `Policy.IsTarget` accepts every server/client address pair |
| Policy.ValidateAuthentication | Meter-Simulator/DLMS/DLMSServerHost.cs:350-369 | accepted exactly when the mechanism is None, or the password is exactly ASCII "AAAAAAAAAAAAAAAA", or the mechanism is High; AuthenticationFailure otherwise, including a null password |
| Policy.LowUsesHardCodedPassword | Meter-Simulator/DLMS/DLMSServerHost.cs:358-359 | under Low, a null password and the meter's own "12345678" are both rejected, and only the sixteen 'A's pass; HighGmac is treated like Low |
| Host.LastCounterWriteIsLast | Meter-Simulator/DLMS/DLMSServerHost.cs:381-396 | after a write batch the shadow holds the value of the batch's last counter write, or its old value when there is none |
| Host.StoreAnswerWins | Meter-Simulator/DLMS/DLMSServerHost.cs:260-271 | for a Register or Data target with a non-null store answer, PreRead serves that answer and marks it handled, whatever the index and even after the counter case fired |
| Host.PreReadIgnoresAccessTable | Meter-Simulator/DLMS/DLMSServerHost.cs:237-273 | a register's attribute 3, which the table denies, is still served from the store |
| Host.BuiltDirectoryHandlers | Meter-Simulator/DLMS/DLMSServerHost.cs:248-257 | on the built directory the counter case never fires: PreRead changes exactly the Register/Data requests with a non-null store answer, and PreWrite changes no request and no item |
| Host.ShadowRoundTrip | Meter-Simulator/DLMS/DLMSServerHost.cs:381-396 | where a shadow exists, a counter write is handled and stored in the shadow, and a later counter read without a store answer returns the written value |
| Host.DlmsServerHost.constructor | Meter-Simulator/DLMS/DLMSServerHost.cs:20-47 | the server keeps its meter and port, builds exactly `BuiltDirectory(today)`, publishes the same objects as its item list, and is not running |
| Host.DlmsServerHost.InitializeObjects | Meter-Simulator/DLMS/DLMSServerHost.cs:49-111 | appending the registers, clock and counter, declaring their types in place and adding the load profile yields exactly `BuiltHead(today)`, the first seven template entries |
| Host.DlmsServerHost.AddDailyLoadProfile | Meter-Simulator/DLMS/DLMSServerHost.cs:398-445 | appends exactly the load profile over the given clock and registers, with its buffer seeded by the loop |
| Host.DlmsServerHost.InitializeSecuritySetup | Meter-Simulator/DLMS/DLMSServerHost.cs:112-126 | appends exactly the security setup entry |
| Host.DlmsServerHost.InitializeAssociation | Meter-Simulator/DLMS/DLMSServerHost.cs:127-212 | appends the public then the privileged association, each listing everything before it and itself; the counter's access is redeclared Read then ReadWrite and ends as it was |
| Host.DlmsServerHost.PreRead | Meter-Simulator/DLMS/DLMSServerHost.cs:237-273 | each request of the batch becomes `ReadOne` of itself against the item list and the meter's store |
| Host.DlmsServerHost.PreWrite | Meter-Simulator/DLMS/DLMSServerHost.cs:381-396 | counter writes are marked handled only when the shadow exists; the item list changes only in the shadow's value, to the last counter write; the value store is unchanged |
| Host.DlmsServerHost.Start | Meter-Simulator/DLMS/DLMSServerHost.cs:274-280 | the start succeeds exactly when the port can be bound, and the server then runs; a failed start leaves the state as it was |
| Host.DlmsServerHost.Stop | Meter-Simulator/DLMS/DLMSServerHost.cs:283-286 | the server is stopped afterwards, whatever its state before |
| Fleet.DecimalRoundTrip | Meter-Simulator/Simulation/MeterManager.cs:25 | the decimal digits of n are digits, at least one, and read back as n |
| Fleet.LeadingZerosIgnored | Meter-Simulator/Simulation/MeterManager.cs:25 | zero padding does not change the value a digit string denotes |
| Fleet.FormatD5RoundTrip | Meter-Simulator/Simulation/MeterManager.cs:25 | the D5 format has at least five characters and reads back as the number |
| Fleet.MeterNumbersDistinct | Meter-Simulator/Simulation/MeterManager.cs:25 | different slots get different meter numbers |
| Fleet.PortsDistinctAndContiguous | Meter-Simulator/Simulation/MeterManager.cs:22-31 | within one Initialize the ports are pairwise distinct, each is one more than the previous in 32-bit arithmetic, and without overflow port i is BasePort+i |
| Fleet.AddressesDistinctAndContiguous | Meter-Simulator/Simulation/MeterManager.cs:22-28 | the same for server addresses from ServerAddressStart |
| Fleet.DefaultLayout | Meter-Simulator/Config/MeterConfig.cs:9-13 | the default configuration creates 150 meters on ports 4059, 4060, 4061, ..., all of them TCP ports, starting at server address 1 |
| Fleet.MeterManager.constructor | Meter-Simulator/Simulation/MeterManager.cs:15-18 | keeps the configuration and starts with no servers |
| Fleet.MeterManager.Initialize | Meter-Simulator/Simulation/MeterManager.cs:20-36 | appends exactly max(MeterCount, 0) new servers and keeps the old ones, so it is not idempotent; new server k has port BasePort+k, server address ServerAddressStart+k, number MTR and k+1 in D5, the shared logical name and client address, an empty store, the built directory, and is stopped; no server appears twice |
| Fleet.PortHeld | Meter-Simulator/Simulation/MeterManager.cs:40-43 | when the loop reaches server i, its port cannot be bound exactly when it is not a TCP port (outside 1..65535, see `Fleet.BindablePort`), or something outside the list holds it, or another server of the list listens on it: any earlier one, since it has started, or a later one that was running before |
| Fleet.SharedPortBlocks | Meter-Simulator/Simulation/MeterManager.cs:22-43 | of two servers on one port, as a second Initialize call produces, the later one finds the port taken, so StartAll cannot start both |
| Fleet.StartsCompletely | Meter-Simulator/Simulation/MeterManager.cs:38-46 | every start succeeds exactly when the ports are TCP ports, pairwise distinct, and none is held from outside the list |
| Fleet.PortsInTcpRange | Meter-Simulator/Simulation/MeterManager.cs:22-31 | every port of a layout is a TCP port exactly when the layout is empty or the base port is at least 1 and BasePort + MeterCount - 1 is at most 65535; a layout past 65535, or one that wraps past the largest `int`, has a port no listener can bind |
| Fleet.MeterManager.StartAll | Meter-Simulator/Simulation/MeterManager.cs:38-46 | starts servers in list order; it returns None exactly when no server's port is taken, and then all run; otherwise it stops at the first server whose port is taken, after starting all before it, and leaves that server and all later ones as they were |
| Fleet.MeterManager.StopAll | Meter-Simulator/Simulation/MeterManager.cs:48-56 | afterwards no server is running, whatever state each was in, so a second call changes nothing |

## Left out

- Socket I/O and framing are not modelled: `OnDataReceived`, `HandleRequest`, `GXNet` open/close/send, attaching the receive handler, and the engine's `Initialize(true)` inside `Start`. They belong to the external DLMS engine. `Start` and `Stop` are a running flag.
- Host.DlmsServerHost.Start: whether the port can be bound is a parameter. Starting an already running server is not distinguished from a first start.
- Fleet.MeterManager.StartAll: a port held from outside the list (by another process, or refused by the operating system for another reason) is a parameter, a fixed function of the port number. A server's own port while that server is already running is not counted as taken.
- Fleet.PortHeld: port 0, which would ask the operating system for any free port, is treated as not bindable, like every other value outside 1..65535. Whether the engine would accept it is not modelled.
- Fleet.MeterManager.StartAll: the exception that escapes a failed start is returned as the failing server's position instead of being thrown to the caller.
- Ciphering settings, system title, block-cipher and authentication keys are not modelled. Nor are the security setup's policy, suite and keys, the associations' conformance bits, PDU sizes, versions and application context names. They are configuration handed to the engine and have no logic here. The host records only its logical-name referencing flag, its High authentication setting and its maximum PDU size as constants.
- The clock's time (`DateTime.Now`) and status are not modelled: the clock entry carries no value. The profile's FiFo sort method is not modelled either.
- Host.DlmsServerHost.constructor: "today" is a parameter. In one `Initialize` call every server gets the same day, whereas the source reads the clock once per server.
- Request targets are modelled by class and logical name, not by object identity. The engine's `FindByLN` is modelled as the first entry with that class and name.
- A null logical name in `FindObject` is modelled as the empty string. The source treats both alike.
- Meter.DlmsMeter.GetAllValues: the result is a snapshot of the store at the time of the call. The source hands out the dictionary itself as a read-only view, so later writes show through it; that aliasing is not modelled.
- Meter.DlmsMeter.SetValue and Meter.DlmsMeter.GetValue: a null OBIS key makes the source's dictionary throw `ArgumentNullException`. Dafny strings are never null, so that error path is not modelled.
- A nullable `object` value is modelled as an optional `Reading` (number, timestamp or raw bytes).
- Console logging, the `Connected`/`Disconnected` logging callbacks, the no-op association check inside `PreRead`, and the empty overrides (`PreAction`, `PostRead`, `PostWrite`, `PostAction`, `Execute`, `PreGet`, `PostGet`, `InvalidConnection`) are not modelled. They have no effect on state.
- Concurrency is not modelled. The code takes no locks, and nothing in it can be stated sequentially about that.
- The command-line bootstrap (`Program.cs`) is not part of this model. `MeterConfig` is modelled only as a datatype with its defaults.

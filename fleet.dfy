/** The meter manager: lays out a fleet of meters and their servers from
    the configuration, and starts or stops all of them in list order. */
module Fleet {
  import opened Common
  import opened Directory
  import Meter
  import Host

  /** The configuration the manager reads. */
  datatype MeterConfig = MeterConfig(meterCount: Int32, basePort: Int32, clientAddress: Int32,
                                     serverAddressStart: Int32, logicalName: string)

  /** The configuration's defaults. */
  const DefaultConfig: MeterConfig := MeterConfig(150, 4059, 16, 1, "1.0.0.0.0.255")

  /** How many meters one Initialize call creates: the count, or none when
      the count is not positive. */
  function MeterTotal(config: MeterConfig): nat
  {
    if config.meterCount < 0 then 0 else config.meterCount
  }

  // ---------------------------------------------------------------------
  // Meter numbers

  predicate IsDigit(c: char)
  {
    '0' <= c <= '9'
  }

  predicate AllDigits(s: string)
  {
    forall i :: 0 <= i < |s| ==> IsDigit(s[i])
  }

  function DigitChar(d: nat): char
    requires d < 10
  {
    ('0' as int + d) as char
  }

  /** The decimal digits of `n`, without leading zeros. */
  function Decimal(n: nat): string
  {
    if n < 10 then [DigitChar(n)] else Decimal(n / 10) + [DigitChar(n % 10)]
  }

  /** `k` zero characters. */
  function Zeros(k: nat): string
  {
    seq(k, _ => '0')
  }

  /** The "D5" format of a non-negative number: its decimal digits, padded
      on the left with zeros to at least five characters. */
  function FormatD5(n: nat): string
  {
    var digits := Decimal(n);
    if |digits| < 5 then Zeros(5 - |digits|) + digits else digits
  }

  /** The number of meter `i` (counting from 0): "MTR" and then i + 1 in D5. */
  function MeterNumber(i: nat): string
  {
    "MTR" + FormatD5(i + 1)
  }

  /** The number a string of digits denotes, leading zeros allowed. */
  function DecimalValue(s: string): int
  {
    if s == [] then 0
    else DecimalValue(s[..|s| - 1]) * 10 + (s[|s| - 1] as int - '0' as int)
  }

  /** Reading back the digits of `n` gives `n`. */
  lemma {:induction false} DecimalRoundTrip(n: nat)
    ensures AllDigits(Decimal(n)) && |Decimal(n)| >= 1
    ensures DecimalValue(Decimal(n)) == n
  {
    if n >= 10 {
      DecimalRoundTrip(n / 10);
      var s := Decimal(n);
      assert s[..|s| - 1] == Decimal(n / 10);
    }
  }

  /** Leading zeros do not change the value of a digit string. */
  lemma {:induction false} LeadingZerosIgnored(k: nat, s: string)
    ensures DecimalValue(Zeros(k) + s) == DecimalValue(s)
    decreases |s|, k
  {
    if s == [] {
      assert Zeros(k) + s == Zeros(k);
      if k > 0 {
        assert Zeros(k)[..k - 1] == Zeros(k - 1);
        LeadingZerosIgnored(k - 1, []);
        assert Zeros(k - 1) + [] == Zeros(k - 1);
      }
    } else {
      var n := |s| - 1;
      assert (Zeros(k) + s)[..|Zeros(k) + s| - 1] == Zeros(k) + s[..n];
      LeadingZerosIgnored(k, s[..n]);
    }
  }

  /** D5 loses nothing: the padded string reads back as the number, and it
      has at least five characters. */
  lemma FormatD5RoundTrip(n: nat)
    ensures |FormatD5(n)| >= 5
    ensures DecimalValue(FormatD5(n)) == n
  {
    DecimalRoundTrip(n);
    var digits := Decimal(n);
    if |digits| < 5 {
      LeadingZerosIgnored(5 - |digits|, digits);
    }
  }

  /** Distinct meters get distinct numbers. */
  lemma MeterNumbersDistinct(i: nat, j: nat)
    requires i != j
    ensures MeterNumber(i) != MeterNumber(j)
  {
    FormatD5RoundTrip(i + 1);
    FormatD5RoundTrip(j + 1);
    assert MeterNumber(i)[3..] == FormatD5(i + 1);
    assert MeterNumber(j)[3..] == FormatD5(j + 1);
  }

  // ---------------------------------------------------------------------
  // Layout

  /** The port of meter `i`: the base port plus `i`, in 32-bit arithmetic. */
  function PortOf(config: MeterConfig, i: nat): Int32
    requires i < MeterTotal(config)
  {
    AddInt32(config.basePort, i)
  }

  /** The server address of meter `i`: the start address plus `i`, in
      32-bit arithmetic. */
  function AddressOf(config: MeterConfig, i: nat): Int32
    requires i < MeterTotal(config)
  {
    AddInt32(config.serverAddressStart, i)
  }

  /** Within one Initialize call, ports are pairwise distinct and each is
      one more than the previous (in 32-bit arithmetic); when no port passes
      the largest `int`, port `i` is exactly the base port plus `i`. */
  lemma PortsDistinctAndContiguous(config: MeterConfig)
    ensures forall i, j :: 0 <= i < j < MeterTotal(config) ==> PortOf(config, i) != PortOf(config, j)
    ensures forall i :: 0 <= i < MeterTotal(config) - 1 ==>
              PortOf(config, i + 1) == AddInt32(PortOf(config, i), 1)
    ensures config.basePort + MeterTotal(config) - 1 <= MaxInt32 ==>
              forall i :: 0 <= i < MeterTotal(config) ==> PortOf(config, i) == config.basePort + i
  {
  }

  /** The same holds of server addresses. */
  lemma AddressesDistinctAndContiguous(config: MeterConfig)
    ensures forall i, j :: 0 <= i < j < MeterTotal(config) ==> AddressOf(config, i) != AddressOf(config, j)
    ensures forall i :: 0 <= i < MeterTotal(config) - 1 ==>
              AddressOf(config, i + 1) == AddInt32(AddressOf(config, i), 1)
    ensures config.serverAddressStart + MeterTotal(config) - 1 <= MaxInt32 ==>
              forall i :: 0 <= i < MeterTotal(config) ==> AddressOf(config, i) == config.serverAddressStart + i
  {
  }

  /** Every port of a layout is a TCP port exactly when the base port is at
      least 1 and the last port, computed without wrapping, is at most
      65535; a layout that passes 65535, or wraps past the largest `int`,
      has a port no listener can bind. */
  lemma PortsInTcpRange(config: MeterConfig)
    ensures (forall i :: 0 <= i < MeterTotal(config) ==> BindablePort(PortOf(config, i))) <==>
      (MeterTotal(config) == 0 || (1 <= config.basePort && config.basePort + MeterTotal(config) - 1 <= 65535))
  {
    var n := MeterTotal(config);
    if n > 0 && forall i :: 0 <= i < n ==> BindablePort(PortOf(config, i)) {
      assert BindablePort(PortOf(config, 0));
      assert BindablePort(PortOf(config, n - 1));
    }
  }

  /** The default fleet listens on 4059, 4060, 4061, ... */
  lemma DefaultLayout()
    ensures MeterTotal(DefaultConfig) == 150
    ensures PortOf(DefaultConfig, 0) == 4059 && PortOf(DefaultConfig, 1) == 4060 && PortOf(DefaultConfig, 2) == 4061
    ensures AddressOf(DefaultConfig, 0) == 1
    ensures forall i :: 0 <= i < MeterTotal(DefaultConfig) ==> BindablePort(PortOf(DefaultConfig, i))
  {
    PortsInTcpRange(DefaultConfig);
  }

  /** Server `s` is the one the manager creates for slot `i`. */
  ghost predicate Placed(s: Host.DlmsServerHost, config: MeterConfig, i: nat, today: int)
    reads s, s.meter
  {
    && i < MeterTotal(config)
    && s.port == PortOf(config, i)
    && s.meter.meterNo == MeterNumber(i)
    && s.meter.logicalName == config.logicalName
    && s.meter.clientAddress == config.clientAddress
    && s.meter.serverAddress == AddressOf(config, i)
    && s.meter.values == map[]
    && s.Valid() && s.objects == BuiltDirectory(today) && !s.running
  }

  /** The TCP ports a listener can bind to. The configuration is never
      checked, so `BasePort + i` can fall outside this range. */
  predicate BindablePort(port: int)
  {
    1 <= port <= 65535
  }

  /** Whether the port of server `i` cannot be bound when StartAll reaches
      it: it is not a TCP port, or something outside the list holds it
      (`heldElsewhere`), or another server of the list listens on it. Every
      server before `i` is listening by then (it started, or the loop would
      have stopped), and every server after `i` listens exactly when it did
      before the loop. */
  predicate PortHeld(ports: seq<Int32>, wasRunning: seq<bool>, heldElsewhere: int -> bool, i: nat)
    requires |ports| == |wasRunning| && i < |ports|
  {
    || !BindablePort(ports[i])
    || heldElsewhere(ports[i])
    || exists j :: 0 <= j < |ports| && j != i && (j < i || wasRunning[j]) && ports[j] == ports[i]
  }

  /** Two servers on one port never both start: the later one finds the
      port taken by the earlier, whether or not either was running. This is
      the fleet a second Initialize call produces. */
  lemma SharedPortBlocks(ports: seq<Int32>, wasRunning: seq<bool>, heldElsewhere: int -> bool, i: nat, j: nat)
    requires |ports| == |wasRunning| && i < j < |ports| && ports[i] == ports[j]
    ensures PortHeld(ports, wasRunning, heldElsewhere, j)
  {
    assert i != j && i < j && ports[i] == ports[j];
  }

  /** Every start succeeds exactly when the ports are TCP ports, pairwise
      distinct, and not held from outside the list, whatever was running
      before; an out-of-range port, a port held elsewhere, or one shared by
      two servers makes some start fail. */
  lemma StartsCompletely(ports: seq<Int32>, wasRunning: seq<bool>, heldElsewhere: int -> bool)
    requires |ports| == |wasRunning|
    ensures (forall i :: 0 <= i < |ports| ==> !PortHeld(ports, wasRunning, heldElsewhere, i)) <==>
      && (forall i :: 0 <= i < |ports| ==> BindablePort(ports[i]) && !heldElsewhere(ports[i]))
      && (forall i, j :: 0 <= i < j < |ports| ==> ports[i] != ports[j])
  {
    if forall i :: 0 <= i < |ports| ==> !PortHeld(ports, wasRunning, heldElsewhere, i) {
      forall i | 0 <= i < |ports|
        ensures BindablePort(ports[i]) && !heldElsewhere(ports[i])
      {
        assert !PortHeld(ports, wasRunning, heldElsewhere, i);
      }
      forall i, j | 0 <= i < j < |ports|
        ensures ports[i] != ports[j]
      {
        if ports[i] == ports[j] {
          SharedPortBlocks(ports, wasRunning, heldElsewhere, i, j);
        }
      }
    }
    if && (forall i :: 0 <= i < |ports| ==> BindablePort(ports[i]) && !heldElsewhere(ports[i]))
       && (forall i, j :: 0 <= i < j < |ports| ==> ports[i] != ports[j])
    {
      forall i | 0 <= i < |ports|
        ensures !PortHeld(ports, wasRunning, heldElsewhere, i)
      {
        assert forall j :: 0 <= j < |ports| && j != i ==> ports[j] != ports[i];
      }
    }
  }

  class MeterManager {
    const config: MeterConfig
    var servers: seq<Host.DlmsServerHost>

    /** No server appears twice in the list. */
    ghost predicate Valid()
      reads this
    {
      forall i, j :: 0 <= i < j < |servers| ==> servers[i] != servers[j]
    }

    constructor (config: MeterConfig)
      ensures this.config == config && servers == [] && Valid()
    {
      this.config := config;
      servers := [];
    }

    /** Creates one meter and one server per slot and appends them to the
        list, keeping the servers already there. */
    method Initialize(today: int)
      requires Valid()
      modifies this`servers
      ensures Valid()
      ensures |servers| == |old(servers)| + MeterTotal(config)
      ensures servers[..|old(servers)|] == old(servers)
      ensures forall k :: |old(servers)| <= k < |servers| ==>
        fresh(servers[k]) && fresh(servers[k].meter) && Placed(servers[k], config, k - |old(servers)|, today)
    {
      ghost var before := |servers|;
      var i: Int32 := 0;
      while i < config.meterCount
        invariant 0 <= i <= MeterTotal(config)
        invariant |servers| == |old(servers)| + i
        invariant servers[..|old(servers)|] == old(servers)
        invariant before == |old(servers)|
        invariant forall k :: before <= k < |servers| ==>
          fresh(servers[k]) && fresh(servers[k].meter) && Placed(servers[k], config, k - before, today)
        invariant Valid()
      {
        var meter := new Meter.DlmsMeter(MeterNumber(i), config.logicalName, config.clientAddress,
                                         AddInt32(config.serverAddressStart, i));
        var port := AddInt32(config.basePort, i);
        var server := new Host.DlmsServerHost(meter, port, today);
        servers := servers + [server];
        i := i + 1;
      }
    }

    /** The ports of the servers, in list order. */
    function Ports(): (ports: seq<Int32>)
      reads this
      ensures |ports| == |servers| && forall k :: 0 <= k < |servers| ==> ports[k] == servers[k].port
    {
      var ss := servers;
      seq(|ss|, k requires 0 <= k < |ss| => ss[k].port)
    }

    /** Which servers are listening, in list order. */
    function Running(): (flags: seq<bool>)
      reads this, servers
      ensures |flags| == |servers| && forall k :: 0 <= k < |servers| ==> flags[k] == servers[k].running
    {
      var ss := servers;
      seq(|ss|, k requires 0 <= k < |ss| reads ss => ss[k].running)
    }

    /** Starts the servers in list order. A server's port cannot be bound
        when it is not a TCP port, when something outside the list holds it
        (`heldElsewhere`), or when another server of the list listens on it:
        one this loop already started, or one that was running before.
        Nothing catches a failed start: the first server whose port cannot
        be bound ends the loop, and the servers after it are not started.
        The result is that server's position, or None when every server
        started. */
    method StartAll(heldElsewhere: int -> bool) returns (failedAt: Option<nat>)
      requires Valid()
      modifies servers`running
      ensures failedAt.None? <==>
        forall i :: 0 <= i < |servers| ==> !PortHeld(Ports(), old(Running()), heldElsewhere, i)
      ensures failedAt.None? ==> forall i :: 0 <= i < |servers| ==> servers[i].running
      ensures failedAt.Some? ==>
        && failedAt.value < |servers|
        && PortHeld(Ports(), old(Running()), heldElsewhere, failedAt.value)
        && (forall i :: 0 <= i < failedAt.value ==>
              !PortHeld(Ports(), old(Running()), heldElsewhere, i) && servers[i].running)
        && (forall i :: failedAt.value <= i < |servers| ==> servers[i].running == old(servers[i].running))
    {
      ghost var was := Running();
      ghost var ports := Ports();
      for i := 0 to |servers|
        invariant was == old(Running()) && ports == Ports()
        invariant forall k :: 0 <= k < i ==> !PortHeld(ports, was, heldElsewhere, k) && servers[k].running
        invariant forall k :: i <= k < |servers| ==> servers[k].running == old(servers[k].running)
      {
        var port := servers[i].port;
        var taken := !BindablePort(port) || heldElsewhere(port) ||
          exists j :: 0 <= j < |servers| && j != i && servers[j].running && servers[j].port == port;
        assert forall j :: 0 <= j < |servers| && j != i ==> servers[j].running == (j < i || was[j]);
        assert taken == PortHeld(ports, was, heldElsewhere, i);
        var ok := servers[i].Start(!taken);
        if !ok {
          assert PortHeld(Ports(), old(Running()), heldElsewhere, i);
          return Some(i);
        }
      }
      return None;
    }

    /** Stops every server in list order; afterwards none is running,
        whatever state each was in, so a second call changes nothing. */
    method StopAll()
      modifies servers`running
      ensures forall i :: 0 <= i < |servers| ==> !servers[i].running
    {
      for i := 0 to |servers|
        invariant forall k :: 0 <= k < i ==> !servers[k].running
      {
        servers[i].Stop();
      }
    }
  }
}

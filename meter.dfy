/** One simulated meter (DLMSMeter): its identity, its fixed credentials and
    the value store that maps an OBIS code to the reading served for it. */
module Meter {
  import opened Common

  /** ASCII "SIMULATR", the system title of every simulated meter. */
  const SystemTitleBytes: seq<Byte> := [0x53, 0x49, 0x4D, 0x55, 0x4C, 0x41, 0x54, 0x52]

  /** ASCII "AAAAAAAAAAAAAAAA": sixteen 0x41 bytes. It is the meter's
      authentication key and its block-cipher key. */
  const SixteenA: seq<Byte> := [0x41, 0x41, 0x41, 0x41, 0x41, 0x41, 0x41, 0x41,
                                0x41, 0x41, 0x41, 0x41, 0x41, 0x41, 0x41, 0x41]

  /** The low-level password the meter advertises. */
  const DefaultLlsPassword: string := "12345678"

  /** A store as the meter keeps it: a key may be absent, present with a
      reading, or present with null. */
  type Store = map<string, Option<Reading>>

  /** What a read of the store answers for `obis`: TryGetValue leaves the
      out-variable at null when the key is missing, so a missing key and a
      key that holds null give the same answer. */
  function Lookup(values: Store, obis: string): Option<Reading>
  {
    if obis in values then values[obis] else None
  }

  /** A write followed by a read of the same key answers the value written,
      whether or not the key held something before. */
  lemma SetThenGet(values: Store, obis: string, value: Option<Reading>)
    ensures Lookup(values[obis := value], obis) == value
  {
  }

  /** A write touches no other key and adds at most the one key written. */
  lemma SetLeavesOthers(values: Store, obis: string, value: Option<Reading>)
    ensures forall k :: k != obis ==> Lookup(values[obis := value], k) == Lookup(values, k)
    ensures values[obis := value].Keys == values.Keys + {obis}
    ensures |values[obis := value]| <= |values| + 1
  {
  }

  /** A read answers null exactly when the key was never written or was last
      written with null, and a reader cannot tell those two apart. */
  lemma NullHidesAbsence(values: Store, obis: string)
    ensures Lookup(values, obis) == None <==> (obis !in values || values[obis] == None)
    ensures Lookup(values - {obis}, obis) == Lookup(values[obis := None], obis)
  {
  }

  class DlmsMeter {
    const meterNo: string
    const logicalName: string
    const clientAddress: Int32
    const serverAddress: Int32
    const systemTitle: seq<Byte> := SystemTitleBytes
    const authenticationKey: seq<Byte> := SixteenA
    const blockCipherKey: seq<Byte> := SixteenA
    const llsPassword: string := DefaultLlsPassword

    /** The value store, keyed by OBIS code. */
    var values: Store

    constructor (meterNo: string, logicalName: string, clientAddress: Int32, serverAddress: Int32)
      ensures this.meterNo == meterNo && this.logicalName == logicalName
      ensures this.clientAddress == clientAddress && this.serverAddress == serverAddress
      ensures systemTitle == SystemTitleBytes && authenticationKey == SixteenA && blockCipherKey == SixteenA
      ensures llsPassword == DefaultLlsPassword
      ensures values == map[]
    {
      this.meterNo := meterNo;
      this.logicalName := logicalName;
      this.clientAddress := clientAddress;
      this.serverAddress := serverAddress;
      values := map[];
    }

    /** Inserts or overwrites unconditionally. */
    method SetValue(obis: string, value: Option<Reading>)
      modifies this
      ensures values == old(values)[obis := value]
    {
      values := values[obis := value];
    }

    /** Reads the store without changing it. */
    method GetValue(obis: string) returns (value: Option<Reading>)
      ensures value == Lookup(values, obis)
      ensures value.Some? ==> obis in values && values[obis] == value
    {
      if obis in values {
        value := values[obis];
      } else {
        value := None;
      }
    }

    /** A snapshot of the store: every key ever written, with its last value. */
    method GetAllValues() returns (all: Store)
      ensures all == values
    {
      all := values;
    }
  }
}

/**
 * The Bluetooth printer settings screen: the list of devices paired with the phone,
 * the list found by a scan, and the printer bound to the app. The driver events and
 * promise outcomes arrive here as parameters; a payload that is absent, `null` or not
 * parseable JSON is `None`.
 */
module Printer {
  import opened Options

  /** `BluetoothDevice`: an optional name and an address. */
  datatype Device = Device(name: Option<string>, address: string)

  /** `found.find(x => x.address === a)` finds something. */
  predicate HasAddress(ds: seq<Device>, a: string) {
    exists i :: 0 <= i < |ds| && ds[i].address == a
  }

  /** No two devices of the list share an address. */
  predicate UniqueAddresses(ds: seq<Device>) {
    forall i, j :: 0 <= i < j < |ds| ==> ds[i].address != ds[j].address
  }

  /** `deviceFoundEvent`'s update: the device goes to the end unless its address is already listed. */
  function WithFound(found: seq<Device>, d: Device): (r: seq<Device>)
    ensures !HasAddress(found, d.address) ==> r == found + [d]
    ensures HasAddress(found, d.address) ==> r == found
  {
    if HasAddress(found, d.address) then found else found + [d]
  }

  /** Adding found devices keeps the addresses of the found list unique, and every address ends up listed. */
  lemma WithFoundKeepsUnique(found: seq<Device>, d: Device)
    requires UniqueAddresses(found)
    ensures UniqueAddresses(WithFound(found, d))
    ensures HasAddress(WithFound(found, d), d.address)
    ensures forall x :: x in found ==> x in WithFound(found, d)
  {
    var r := WithFound(found, d);
    if !HasAddress(found, d.address) {
      forall i, j | 0 <= i < j < |r|
        ensures r[i].address != r[j].address
      {
        if j == |found| {
          assert r[i] == found[i];
        }
      }
      assert r[|found|] == d;
    }
  }

  /** A sequence of found events starting from an empty list never lists one address twice. */
  function FoundAfter(events: seq<Device>): (r: seq<Device>)
    ensures UniqueAddresses(r)
    ensures |r| <= |events|
  {
    if events == [] then []
    else
      var before := FoundAfter(events[..|events| - 1]);
      WithFoundKeepsUnique(before, events[|events| - 1]);
      WithFound(before, events[|events| - 1])
  }

  /** `deviceAlreadPaired`'s update: a non-empty payload fills the paired list, but only an empty one. */
  function WithPaired(paired: seq<Device>, payload: Option<seq<Device>>): (r: seq<Device>)
    ensures paired == [] && payload.Some? && payload.value != [] ==> r == payload.value
    ensures paired != [] || payload.None? || payload.value == [] ==> r == paired
  {
    if payload.Some? && |payload.value| > 0 && |paired| < 1 then paired + payload.value else paired
  }

  /** The paired list is filled at most once: a second non-empty payload changes nothing. */
  lemma WithPairedOnce(paired: seq<Device>, p: Option<seq<Device>>, q: Option<seq<Device>>)
    requires p.Some? && p.value != []
    ensures WithPaired(WithPaired(paired, p), q) == WithPaired(paired, p)
  {
    var once := WithPaired(paired, p);
    assert once != [] by {
      if paired == [] {
        assert once == p.value;
      }
    }
  }

  /** `scanDevices`' update: the scan's found list replaces the current one unless it is empty or unparsable. */
  function WithScan(found: seq<Device>, result: Option<seq<Device>>): (r: seq<Device>)
    ensures result.Some? && result.value != [] ==> r == result.value
    ensures result.None? || result.value == [] ==> r == found
  {
    if result.Some? && |result.value| > 0 then result.value else found
  }

  /** `row.name || "UNKNOWN"`. */
  function BoundName(d: Device): (r: string)
    ensures r != ""
    ensures d.name.Some? && d.name.value != "" ==> r == d.name.value
    ensures d.name.None? || d.name.value == "" ==> r == "UNKNOWN"
  {
    if d.name.Some? && d.name.value != "" then d.name.value else "UNKNOWN"
  }

  /** A paired device is shown as connected exactly when its address is the bound one. */
  predicate ShownConnected(d: Device, boundAddress: string) {
    d.address == boundAddress
  }

  /** At most one paired device is shown as connected when the paired addresses are unique. */
  lemma AtMostOneConnected(paired: seq<Device>, boundAddress: string, i: int, j: int)
    requires UniqueAddresses(paired)
    requires 0 <= i < |paired| && 0 <= j < |paired|
    requires ShownConnected(paired[i], boundAddress) && ShownConnected(paired[j], boundAddress)
    ensures i == j
  {
    if i != j {
      assert false;
    }
  }

  /** The screen's state. */
  class PrinterScreen {
    var paired: seq<Device>
    var found: seq<Device>
    var bleOpen: bool
    var loading: bool
    var name: string
    var boundAddress: string

    /**
     * The found list does not list an address twice. Found events keep this; a scan
     * result replaces the list wholesale and is not checked for repeats.
     */
    predicate Valid()
      reads this
    {
      UniqueAddresses(found)
    }

    constructor ()
      ensures Valid()
      ensures paired == [] && found == [] && !bleOpen && loading && name == "" && boundAddress == ""
    {
      paired := [];
      found := [];
      bleOpen := false;
      loading := true;
      name := "";
      boundAddress := "";
    }

    /** The bound printer is shown exactly when an address is bound. */
    predicate ShowsBoundPrinter()
      reads this
    {
      |boundAddress| > 0
    }

    /** `EVENT_DEVICE_FOUND`. */
    method DeviceFound(d: Option<Device>)
      modifies this
      ensures old(Valid()) ==> Valid()
      ensures found == (if d.Some? then WithFound(old(found), d.value) else old(found))
      ensures paired == old(paired) && boundAddress == old(boundAddress) && name == old(name)
      ensures loading == old(loading) && bleOpen == old(bleOpen)
    {
      if d.Some? {
        if Valid() {
          WithFoundKeepsUnique(found, d.value);
        }
        var copy := found;
        if !HasAddress(copy, d.value.address) {
          copy := copy + [d.value];
          found := copy;
        }
      }
    }

    /** `EVENT_DEVICE_ALREADY_PAIRED`. */
    method DeviceAlreadyPaired(payload: Option<seq<Device>>)
      modifies this
      ensures paired == WithPaired(old(paired), payload)
      ensures found == old(found) && boundAddress == old(boundAddress) && name == old(name)
      ensures loading == old(loading) && bleOpen == old(bleOpen)
    {
      if payload.Some? && |payload.value| > 0 {
        var pared := paired;
        if |pared| < 1 {
          pared := pared + payload.value;
        }
        paired := pared;
      }
    }

    /**
     * `scanDevices`: the scan resolves with a found list (`Some`, possibly unparsable and
     * then `None` inside) or is rejected; either way loading ends.
     */
    method ScanFinished(result: Option<Option<seq<Device>>>)
      modifies this
      ensures found == (if result.Some? then WithScan(old(found), result.value) else old(found))
      ensures !loading
      ensures paired == old(paired) && boundAddress == old(boundAddress) && name == old(name) && bleOpen == old(bleOpen)
    {
      loading := true;
      if result.Some? && result.value.Some? && |result.value.value| > 0 {
        found := result.value.value;
      }
      loading := false;
    }

    /** `connect`: on success the device becomes the bound printer; a failure only ends loading. */
    method Connect(row: Device, ok: bool)
      modifies this
      ensures !loading
      ensures ok ==> boundAddress == row.address && name == BoundName(row)
      ensures !ok ==> boundAddress == old(boundAddress) && name == old(name)
      ensures paired == old(paired) && found == old(found) && bleOpen == old(bleOpen)
    {
      loading := true;
      if ok {
        loading := false;
        boundAddress := row.address;
        name := if row.name.Some? && row.name.value != "" then row.name.value else "UNKNOWN";
      } else {
        loading := false;
      }
    }

    /** `unPair`: on success no printer is bound any more; a failure only ends loading. */
    method Unpair(address: string, ok: bool)
      modifies this
      ensures !loading
      ensures ok ==> boundAddress == "" && name == ""
      ensures !ok ==> boundAddress == old(boundAddress) && name == old(name)
      ensures paired == old(paired) && found == old(found) && bleOpen == old(bleOpen)
    {
      loading := true;
      if ok {
        loading := false;
        boundAddress := "";
        name := "";
      } else {
        loading := false;
      }
    }

    /** `EVENT_CONNECTION_LOST`: the bound printer is forgotten. */
    method ConnectionLost()
      modifies this
      ensures boundAddress == "" && name == "" && !ShowsBoundPrinter()
      ensures paired == old(paired) && found == old(found) && loading == old(loading) && bleOpen == old(bleOpen)
    {
      name := "";
      boundAddress := "";
    }

    /** `isBluetoothEnabled` resolved. */
    method BluetoothState(enabled: bool)
      modifies this
      ensures bleOpen == enabled && !loading
      ensures paired == old(paired) && found == old(found) && boundAddress == old(boundAddress) && name == old(name)
    {
      bleOpen := enabled;
      loading := false;
    }

    /** The `connected` flags of the rendered paired list, one per paired device. */
    function ConnectedFlags(): (flags: seq<bool>)
      reads this
      ensures |flags| == |paired|
      ensures forall i :: 0 <= i < |paired| ==> (flags[i] <==> ShownConnected(paired[i], boundAddress))
    {
      seq(|paired|, i requires 0 <= i < |paired| reads this => paired[i].address == boundAddress)
    }
  }
}

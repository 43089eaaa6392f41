/** The advertisement filter of the gateway's BLE listener (gateway/internal/ble/listen.go):
    the scan callback's matching rule, hasPrefix, and the choice of Run's return value.
    The radio itself (adapter enable, scan, stop) is outside the model. */
module Scanner {
  import opened Wrappers
  import opened LittleEndian
  import opened Telemetry

  /** One manufacturer-specific data entry of an advertisement. */
  datatype ManufacturerEntry = ManufacturerEntry(companyId: u16, data: seq<byte>)

  /** What the callback sees of one scan result. */
  datatype Advertisement = Advertisement(
    address: string, rssi: int, localName: string, entries: seq<ManufacturerEntry>)

  /** Filter: an empty name, a company id of 0 and an empty prefix each switch that check off. */
  datatype Filter = Filter(localName: string, companyId: u16, prefix: seq<byte>)

  /** A single observation handed to onMatch; `data` is [] where the source leaves it nil. */
  datatype Match = Match(
    address: string, rssi: int, localName: string, companyId: u16, data: seq<byte>, seenAt: Instant)

  /** The index loop of hasPrefix from position i on, returning at the first mismatch. */
  function PrefixFrom(b: seq<byte>, pref: seq<byte>, i: nat): (r: bool)
    requires i <= |pref| <= |b|
    ensures r <==> forall j :: i <= j < |pref| ==> b[j] == pref[j]
    decreases |pref| - i
  {
    if i == |pref| then true
    else if b[i] != pref[i] then false
    else PrefixFrom(b, pref, i + 1)
  }

  /** hasPrefix: true iff pref is empty, or b is at least as long and agrees on every index of pref. */
  function HasPrefix(b: seq<byte>, pref: seq<byte>): (r: bool)
    ensures r <==> |pref| == 0 || (|b| >= |pref| && forall i :: 0 <= i < |pref| ==> b[i] == pref[i])
  {
    if |pref| == 0 then true
    else if |b| < |pref| then false
    else PrefixFrom(b, pref, 0)
  }

  /** hasPrefix agrees with the sequence-prefix relation. */
  lemma HasPrefixIsPrefix(b: seq<byte>, pref: seq<byte>)
    ensures HasPrefix(b, pref) <==> pref <= b
  {
    if HasPrefix(b, pref) && |pref| > 0 {
      assert b[..|pref|] == pref;
    }
  }

  /** The per-entry check: the company id (unless the filter's is 0), then the prefix. */
  predicate EntryPasses(f: Filter, e: ManufacturerEntry) {
    (f.companyId == 0 || e.companyId == f.companyId) && HasPrefix(e.data, f.prefix)
  }

  /** The index of the first entry at or after i that passes, or |es| if none does. */
  function FirstPassing(f: Filter, es: seq<ManufacturerEntry>, i: nat): (k: nat)
    requires i <= |es|
    ensures i <= k <= |es|
    ensures k < |es| ==> EntryPasses(f, es[k])
    ensures forall j :: i <= j < k ==> !EntryPasses(f, es[j])
    decreases |es| - i
  {
    if i == |es| then i
    else if EntryPasses(f, es[i]) then i
    else FirstPassing(f, es, i + 1)
  }

  predicate NameRejected(f: Filter, ad: Advertisement) {
    f.localName != "" && ad.localName != f.localName
  }

  predicate NoDataFilter(f: Filter) {
    |f.prefix| == 0 && f.companyId == 0
  }

  /** The decision the callback makes for one advertisement: the match it delivers, if any. */
  function Decide(f: Filter, ad: Advertisement, now: Instant): Option<Match> {
    if NameRejected(f, ad) then None
    else if NoDataFilter(f) then Some(Match(ad.address, ad.rssi, ad.localName, 0, [], now))
    else
      var k := FirstPassing(f, ad.entries, 0);
      if k == |ad.entries| then None
      else Some(Match(ad.address, ad.rssi, ad.localName, ad.entries[k].companyId, ad.entries[k].data, now))
  }

  /** The scan callback: returns what it hands to onMatch (None when it calls nothing).
      `hasHandler` is false for a nil onMatch; `now` is time.Now(). */
  method OnScanResult(f: Filter, ad: Advertisement, now: Instant, hasHandler: bool)
    returns (delivered: Option<Match>)
    ensures delivered == if hasHandler then Decide(f, ad, now) else None
  {
    var obs := Match(ad.address, ad.rssi, ad.localName, 0, [], now);
    delivered := None;
    if f.localName != "" && obs.localName != f.localName {
      return;
    }
    if |f.prefix| == 0 && f.companyId == 0 {
      if hasHandler {
        delivered := Some(obs);
      }
      return;
    }
    var matched := false;
    var i := 0;
    while i < |ad.entries|
      invariant 0 <= i <= |ad.entries|
      invariant forall j :: 0 <= j < i ==> !EntryPasses(f, ad.entries[j])
    {
      var md := ad.entries[i];
      if f.companyId != 0 && md.companyId != f.companyId {
        i := i + 1;
        continue;
      }
      if !HasPrefix(md.data, f.prefix) {
        i := i + 1;
        continue;
      }
      obs := obs.(companyId := md.companyId, data := md.data);
      if hasHandler {
        delivered := Some(obs);
      }
      matched := true;
      return;
    }
  }

  /** With a name filter set, an advertisement under another name never matches. */
  lemma NameFilterBlocks(f: Filter, ad: Advertisement, now: Instant)
    requires f.localName != "" && ad.localName != f.localName
    ensures Decide(f, ad, now) == None
  {
  }

  /** Without a data filter, a name-accepted advertisement is delivered with company 0 and no data. */
  lemma NoDataFilterMatchesAll(f: Filter, ad: Advertisement, now: Instant)
    requires !NameRejected(f, ad) && NoDataFilter(f)
    ensures Decide(f, ad, now) == Some(Match(ad.address, ad.rssi, ad.localName, 0, [], now))
  {
  }

  /** A delivered match comes from the first passing entry, whose id and data it carries; and a
      match is delivered whenever some entry passes. */
  lemma DecideFirstEntryWins(f: Filter, ad: Advertisement, now: Instant)
    requires !NameRejected(f, ad) && !NoDataFilter(f)
    ensures Decide(f, ad, now).Some? <==> exists j :: 0 <= j < |ad.entries| && EntryPasses(f, ad.entries[j])
    ensures Decide(f, ad, now).Some? ==>
      exists k :: 0 <= k < |ad.entries| && EntryPasses(f, ad.entries[k])
        && (forall j :: 0 <= j < k ==> !EntryPasses(f, ad.entries[j]))
        && Decide(f, ad, now).value.companyId == ad.entries[k].companyId
        && Decide(f, ad, now).value.data == ad.entries[k].data
  {
    var k := FirstPassing(f, ad.entries, 0);
    if exists j :: 0 <= j < |ad.entries| && EntryPasses(f, ad.entries[j]) {
      var j :| 0 <= j < |ad.entries| && EntryPasses(f, ad.entries[j]);
      assert k <= j;
    }
  }

  /** A filter company id of 0 accepts every company; otherwise only exactly that id passes. */
  lemma CompanyZeroIsWildcard(f: Filter, e: ManufacturerEntry)
    ensures f.companyId == 0 ==> (EntryPasses(f, e) <==> f.prefix <= e.data)
    ensures f.companyId != 0 && e.companyId != f.companyId ==> !EntryPasses(f, e)
  {
    HasPrefixIsPrefix(e.data, f.prefix);
  }

  /** Run's value once the adapter has been enabled (or not) and Scan has returned. */
  function RunResult(adapter: string, enableErr: Option<string>, scanErr: Option<string>, cancelled: bool)
    : (r: Option<string>)
    ensures enableErr.Some? ==> r == Some("ble enable (" + adapter + "): " + enableErr.value)
    ensures enableErr.None? && cancelled ==> r == None
    ensures enableErr.None? && !cancelled ==> r == if scanErr.Some? then Some("ble scan: " + scanErr.value) else None
  {
    if enableErr.Some? then Some("ble enable (" + adapter + "): " + enableErr.value)
    else if cancelled then None
    else if scanErr.Some? then Some("ble scan: " + scanErr.value)
    else None
  }

  /** NewListener's adapter choice: "hci0" when none is configured. */
  function AdapterName(configured: string): (name: string)
    ensures name != ""
    ensures configured != "" ==> name == configured
  {
    if configured == "" then "hci0" else configured
  }
}

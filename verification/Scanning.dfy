/** main.c: reading a name out of an advertisement, and the table of scanned devices. */
module Scanning {
  import opened Common
  import opened AtCommands

  const NAME_MAX: nat := 31          // BLE_HOST_NAME_MAX_LEN, less the terminator
  const MAX_DEVICES: nat := 32
  const NAME_SHORTENED: char := 8 as char
  const NAME_COMPLETE: char := 9 as char

  // ---------- advertisements ----------

  predicate IsName(kind: char) {
    kind == NAME_COMPLETE || kind == NAME_SHORTENED
  }

  /** parse_device_name on what is left of the buffer. */
  function ParseName(ad: string): string
    decreases |ad|
  {
    if |ad| <= 1 then ""
    else
      var len := ad[0] as int;
      if len == 0 || len > |ad| - 1 then ""
      else if IsName(ad[1]) then Fitting(ad[2..1 + len], NAME_MAX)
      else ParseName(ad[1 + len..])
  }

  /** struct net_buf_simple: the data, and how much of it has been pulled. */
  class NetBuf {
    const bytes: string
    var pulled: nat

    constructor (bytes: string)
      ensures this.bytes == bytes && pulled == 0
    {
      this.bytes := bytes;
      pulled := 0;
    }

    ghost predicate Valid()
      reads this
    {
      pulled <= |bytes|
    }

    method PullByte() returns (b: char)
      requires Valid() && pulled < |bytes|
      modifies this
      ensures Valid() && pulled == old(pulled) + 1 && b == bytes[old(pulled)]
    {
      b := bytes[pulled];
      pulled := pulled + 1;
    }

    method Pull(n: nat)
      requires Valid() && pulled + n <= |bytes|
      modifies this
      ensures Valid() && pulled == old(pulled) + n
    {
      pulled := pulled + n;
    }

    /** The name, and the buffer as it was. */
    method ParseDeviceName() returns (name: string)
      requires Valid()
      modifies this
      ensures Valid() && pulled == old(pulled)
      ensures name == ParseName(bytes[pulled..])
    {
      var saved := pulled;
      while |bytes| - pulled > 1
        invariant Valid() && saved <= pulled
        invariant ParseName(bytes[saved..]) == ParseName(bytes[pulled..])
        decreases |bytes| - pulled
      {
        ghost var ad := bytes[pulled..];
        var c := PullByte();
        var len := c as int;
        if len == 0 || len > |bytes| - pulled {
          pulled := saved;
          return "";
        }
        var kind := PullByte();
        if IsName(kind) {
          name := bytes[pulled..pulled + Min(len - 1, NAME_MAX)];
          assert ad[2..1 + len] == bytes[pulled..pulled + len - 1];
          assert name == bytes[pulled..pulled + len - 1][..Min(len - 1, NAME_MAX)];
          pulled := saved;
          return;
        }
        Pull(len - 1);
        assert bytes[pulled..] == ad[1 + len..];
      }
      pulled := saved;
      name := "";
    }
  }

  /** One AD structure (Bluetooth Core, Vol 3 Part C, section 11). */
  datatype Field = Field(kind: char, value: string)

  function Serialised(fields: seq<Field>): string
    requires forall i | 0 <= i < |fields| :: |fields[i].value| <= 254
  {
    if fields == [] then ""
    else [(|fields[0].value| + 1) as char, fields[0].kind] + fields[0].value + Serialised(fields[1..])
  }

  function FirstName(fields: seq<Field>): string {
    if fields == [] then ""
    else if fields[0].kind as int == 8 || fields[0].kind as int == 9 then Fitting(fields[0].value, 31)
    else FirstName(fields[1..])
  }

  /** What does not begin with a whole structure: nothing, one byte, zeros, or one cut short. */
  predicate Broken(rest: string) {
    |rest| <= 1 || rest[0] == NUL || rest[0] as int > |rest| - 1
  }

  /** For any list of well-formed structures, followed by anything that does not begin with one, the parsed name
      is the value of the first name structure, cut to what the name array holds. */
  lemma {:induction false} ParsesFirstName(fields: seq<Field>, padding: string)
    requires forall i | 0 <= i < |fields| :: |fields[i].value| <= 254
    requires Broken(padding)
    ensures ParseName(Serialised(fields) + padding) == FirstName(fields)
    decreases |fields|
  {
    if fields == [] {
      assert Serialised(fields) + padding == padding;
    } else {
      hide Broken, FirstName;
      var f := fields[0];
      var rest := Serialised(fields[1..]) + padding;
      assert Serialised(fields) + padding == [(|f.value| + 1) as char, f.kind] + f.value + rest;
      FieldParsed(f, rest);
      ParsesFirstName(fields[1..], padding);
      NextName(fields);
    }
  }

  lemma FieldParsed(f: Field, rest: string)
    requires |f.value| <= 254
    ensures ParseName([(|f.value| + 1) as char, f.kind] + f.value + rest) ==
            if IsName(f.kind) then Fitting(f.value, NAME_MAX) else ParseName(rest)
  {
    var ad := [(|f.value| + 1) as char, f.kind] + f.value + rest;
    assert ad[0] as int == |f.value| + 1 && ad[1] == f.kind;
    assert ad[2..1 + (|f.value| + 1)] == f.value;
    assert ad[1 + (|f.value| + 1)..] == rest;
  }

  lemma NextName(fields: seq<Field>)
    requires fields != []
    ensures FirstName(fields) ==
            if IsName(fields[0].kind) then Fitting(fields[0].value, NAME_MAX) else FirstName(fields[1..])
  {
  }

  // ---------- the table of scanned devices ----------

  datatype Entry = Entry(valid: bool, index: nat, addr: nat, name: string, rssi: int)

  const BLANK := Entry(false, 0, 0, "", 0)

  datatype AdvType = AdvInd | AdvDirectInd | AdvScanInd | AdvNonconnInd | ScanRsp | ExtAdv

  predicate Reported(kind: AdvType) {
    kind == AdvInd || kind == AdvDirectInd || kind == ScanRsp || kind == ExtAdv
  }

  datatype Report = Report(addr: nat, name: string, rssi: int)

  predicate MatchesFilter(filter: string, name: string) {
    filter <= name
  }

  function IndexOf(table: seq<Entry>, addr: nat): (i: nat)
    ensures i <= |table| && (i < |table| ==> table[i].addr == addr)
    ensures forall j | 0 <= j < i :: table[j].addr != addr
  {
    if table == [] || table[0].addr == addr then 0 else 1 + IndexOf(table[1..], addr)
  }

  /** What device_found does to the list of known devices, and what it announces. */
  function Found(table: seq<Entry>, filter: string, r: Report): (seq<Entry>, seq<nat>) {
    if !MatchesFilter(filter, r.name) then (table, [])
    else
      var i := IndexOf(table, r.addr);
      if i < |table| then (table[i := table[i].(rssi := r.rssi)], [])
      else if |table| >= MAX_DEVICES then (table, [])
      else (table + [Entry(true, |table|, r.addr, r.name, r.rssi)], [r.addr])
  }

  class ScanTable {
    const devices: array<Entry>
    var nextIndex: nat
    var filter: string

    /** The valid entries form a prefix, an entry's index is its position, addresses are distinct. */
    ghost predicate Valid()
      reads this, devices
    {
      && devices.Length == MAX_DEVICES && nextIndex <= MAX_DEVICES
      && (forall i | 0 <= i < MAX_DEVICES :: devices[i].valid <==> i < nextIndex)
      && (forall i | 0 <= i < nextIndex :: devices[i].index == i)
      && (forall i, j | 0 <= i < j < nextIndex :: devices[i].addr != devices[j].addr)
    }

    ghost function Table(): seq<Entry>
      requires Valid()
      reads this, devices
    {
      devices[..nextIndex]
    }

    constructor ()
      ensures Valid() && Table() == [] && filter == "" && fresh(devices)
    {
      devices := new Entry[MAX_DEVICES](_ => BLANK);
      nextIndex, filter := 0, "";
    }

    // clear_scan_cache, with the filter of the new scan.
    method Clear(newFilter: string)
      requires Valid()
      modifies this, devices
      ensures Valid() && Table() == [] && filter == newFilter
    {
      for i := 0 to MAX_DEVICES
        invariant devices.Length == MAX_DEVICES
        invariant forall j | 0 <= j < i :: !devices[j].valid
      {
        devices[i] := BLANK;
      }
      nextIndex := 0;
      filter := newFilter;
    }

    // find_scan_entry: all slots are searched, valid ones compared.
    method FindEntry(addr: nat) returns (at: nat)
      requires Valid()
      ensures at == if IndexOf(Table(), addr) < nextIndex then IndexOf(Table(), addr) else MAX_DEVICES
    {
      at := 0;
      while at < MAX_DEVICES
        invariant at <= MAX_DEVICES
        invariant forall j | 0 <= j < at && j < nextIndex :: devices[j].addr != addr
      {
        if devices[at].valid && devices[at].addr == addr {
          IndexIs(Table(), addr, at);
          return;
        }
        at := at + 1;
      }
      IndexIs(Table(), addr, nextIndex);
    }

    method FreeSlot() returns (at: nat)
      requires Valid()
      ensures at == nextIndex
    {
      at := 0;
      while at < MAX_DEVICES && devices[at].valid
        invariant at <= nextIndex
        decreases MAX_DEVICES - at
      {
        at := at + 1;
      }
    }

    // The table's part of device_found.
    method Record(r: Report) returns (announced: seq<nat>)
      requires Valid()
      modifies this, devices
      ensures Valid() && filter == old(filter)
      ensures (Table(), announced) == Found(old(Table()), filter, r)
    {
      announced := [];
      if !MatchesFilter(filter, r.name) {
        return;
      }
      var at := FindEntry(r.addr);
      if at < MAX_DEVICES {
        devices[at] := devices[at].(rssi := r.rssi);
        return;
      }
      var slot := FreeSlot();
      if slot >= MAX_DEVICES {
        return;
      }
      ghost var before := Table();
      devices[slot] := Entry(true, nextIndex, r.addr, r.name, r.rssi);
      nextIndex := nextIndex + 1;
      announced := [r.addr];
      assert devices[..nextIndex] == before + [devices[slot]];
    }

    /** device_found: nothing outside a scan or for another kind of report; otherwise the advertised name, as a
        C string, decides. */
    method DeviceFound(scanning: bool, kind: AdvType, addr: nat, rssi: int, ad: NetBuf) returns (announced: seq<nat>)
      requires Valid() && ad.Valid()
      modifies this, devices, ad
      ensures Valid() && filter == old(filter) && ad.pulled == old(ad.pulled)
      ensures if scanning && kind in {AdvInd, AdvDirectInd, ScanRsp, ExtAdv}
              then (Table(), announced) ==
                   Found(old(Table()), filter, Report(addr, CStr(ParseName(old(ad.bytes[ad.pulled..]))), rssi))
              else Table() == old(Table()) && announced == []
    {
      announced := [];
      if !scanning || !Reported(kind) {
        return;
      }
      var name := ad.ParseDeviceName();
      announced := Record(Report(addr, CStr(name), rssi));
    }
  }

  lemma IndexIs(table: seq<Entry>, addr: nat, i: nat)
    requires i <= |table| && (i < |table| ==> table[i].addr == addr)
    requires forall j | 0 <= j < i :: table[j].addr != addr
    ensures IndexOf(table, addr) == i
  {
  }

  /** A scan: the table and everything announced. */
  function Scan(filter: string, reports: seq<Report>): (seq<Entry>, seq<nat>) {
    if reports == [] then ([], [])
    else
      var (table, announced) := Scan(filter, reports[..|reports| - 1]);
      var (table', more) := Found(table, filter, reports[|reports| - 1]);
      (table', announced + more)
  }

  predicate Distinct(s: seq<nat>) {
    forall i, j | 0 <= i < j < |s| :: s[i] != s[j]
  }

  function Addrs(table: seq<Entry>): seq<nat> {
    seq(|table|, i requires 0 <= i < |table| => table[i].addr)
  }

  /** The index of an entry is its position, and its name passes the filter. */
  predicate Numbered(filter: string, table: seq<Entry>) {
    forall i | 0 <= i < |table| :: table[i].index == i && table[i].valid && filter <= table[i].name
  }

  /** Every report that passes the filter is of one of these devices. */
  predicate Covers(filter: string, reports: seq<Report>, addrs: seq<nat>) {
    forall i | 0 <= i < |reports| && filter <= reports[i].name :: reports[i].addr in addrs
  }

  /** Over any run of reports: the announced addresses are those of the table, in order and each once, and
      a matching report's device is in the table unless the table is full. */
  lemma {:induction false} AnnouncedOnce(filter: string, reports: seq<Report>)
    ensures var (table, announced) := Scan(filter, reports);
            && |table| <= 32 && announced == Addrs(table) && Distinct(announced)
            && Numbered(filter, table) && (|table| < 32 ==> Covers(filter, reports, announced))
    decreases |reports|
  {
    hide Numbered, Covers, Distinct, Found, Addrs;
    if reports == [] {
      NothingFound(filter);
    } else {
      var n := |reports| - 1;
      AnnouncedOnce(filter, reports[..n]);
      var (table, announced) := Scan(filter, reports[..n]);
      FoundKeeps(filter, table, reports[n]);
      FoundCovers(filter, table, reports[..n], reports[n]);
      assert reports == reports[..n] + [reports[n]];
    }
  }

  lemma NothingFound(filter: string)
    ensures Addrs([]) == [] && Distinct([]) && Numbered(filter, []) && Covers(filter, [], [])
  {
  }

  lemma FoundCovers(filter: string, table: seq<Entry>, reports: seq<Report>, r: Report)
    requires |table| < 32 ==> Covers(filter, reports, Addrs(table))
    ensures var table' := Found(table, filter, r).0; |table'| < 32 ==> Covers(filter, reports + [r], Addrs(table'))
  {
    var i := IndexOf(table, r.addr);
    var table' := Found(table, filter, r).0;
    assert forall j | 0 <= j < |table| :: Addrs(table')[j] == Addrs(table)[j];
    if |table'| < 32 && filter <= r.name {
      assert Addrs(table')[i] == r.addr;
    }
  }

  lemma FoundKeeps(filter: string, table: seq<Entry>, r: Report)
    requires Distinct(Addrs(table)) && |table| <= MAX_DEVICES && Numbered(filter, table)
    ensures var (table', more) := Found(table, filter, r);
            && |table| <= |table'| <= MAX_DEVICES
            && Addrs(table') == Addrs(table) + more && Distinct(Addrs(table')) && Numbered(filter, table')
  {
    var i := IndexOf(table, r.addr);
    var (table', more) := Found(table, filter, r);
    assert forall j | 0 <= j < |table| :: Addrs(table)[j] == table[j].addr;
    assert Addrs(table') == Addrs(table) + more;
    assert forall j | 0 <= j < |table| :: Addrs(table')[j] == Addrs(table)[j];
  }

  // ---------- what the table says of a device ----------

  /** The report is of that device, and passes the filter. */
  predicate Hit(filter: string, r: Report, addr: nat) {
    r.addr == addr && filter <= r.name
  }

  predicate FirstHit(filter: string, reports: seq<Report>, addr: nat, i: int) {
    0 <= i < |reports| && Hit(filter, reports[i], addr) && forall j | 0 <= j < i :: !Hit(filter, reports[j], addr)
  }

  predicate LastHit(filter: string, reports: seq<Report>, addr: nat, i: int) {
    0 <= i < |reports| && Hit(filter, reports[i], addr) &&
    forall j | i < j < |reports| :: !Hit(filter, reports[j], addr)
  }

  // The name is that of the first report, the strength that of the last.
  ghost predicate Known(filter: string, reports: seq<Report>, e: Entry) {
    (exists i :: FirstHit(filter, reports, e.addr, i) && e.name == reports[i].name) &&
    (exists i :: LastHit(filter, reports, e.addr, i) && e.rssi == reports[i].rssi)
  }

  lemma StillKnown(filter: string, reports: seq<Report>, r: Report, e: Entry)
    requires Known(filter, reports, e)
    ensures Known(filter, reports + [r], if Hit(filter, r, e.addr) then e.(rssi := r.rssi) else e)
  {
    var all := reports + [r];
    var i :| FirstHit(filter, reports, e.addr, i) && e.name == reports[i].name;
    assert FirstHit(filter, all, e.addr, i);
    if Hit(filter, r, e.addr) {
      assert LastHit(filter, all, e.addr, |reports|);
    } else {
      var l :| LastHit(filter, reports, e.addr, l) && e.rssi == reports[l].rssi;
      assert LastHit(filter, all, e.addr, l);
    }
  }

  lemma NewlyKnown(filter: string, reports: seq<Report>, r: Report, e: Entry)
    requires filter <= r.name && e.addr == r.addr && e.name == r.name && e.rssi == r.rssi
    requires forall j | 0 <= j < |reports| :: !Hit(filter, reports[j], r.addr)
    ensures Known(filter, reports + [r], e)
  {
    var all := reports + [r];
    assert FirstHit(filter, all, r.addr, |reports|) && LastHit(filter, all, r.addr, |reports|);
  }

  /** Over any run of reports: every known device has the name it was first reported with and the signal strength
      it was last reported with, among the reports that pass the filter. */
  lemma {:induction false} TableKnows(filter: string, reports: seq<Report>)
    ensures forall e | e in Scan(filter, reports).0 :: Known(filter, reports, e)
    decreases |reports|
  {
    hide Known;
    if reports != [] {
      var n := |reports| - 1;
      var front, r := reports[..n], reports[n];
      assert reports == front + [r];
      TableKnows(filter, front);
      AnnouncedOnce(filter, front);
      var table := Scan(filter, front).0;
      forall e | e in Found(table, filter, r).0
        ensures Known(filter, reports, e)
      {
        EntryKnown(filter, front, table, r, e);
      }
    }
  }

  lemma EntryKnown(filter: string, front: seq<Report>, table: seq<Entry>, r: Report, e: Entry)
    requires (table, Addrs(table)) == Scan(filter, front) && Distinct(Addrs(table)) && |table| <= MAX_DEVICES
    requires |table| < MAX_DEVICES ==> Covers(filter, front, Addrs(table))
    requires forall d | d in table :: Known(filter, front, d)
    requires e in Found(table, filter, r).0
    ensures Known(filter, front + [r], e)
  {
    hide Known, Scan;
    var i := IndexOf(table, r.addr);
    var k :| 0 <= k < |Found(table, filter, r).0| && Found(table, filter, r).0[k] == e;
    if k < |table| {
      assert table[k] in table;
      assert Addrs(table)[k] == table[k].addr && (i < |table| ==> Addrs(table)[i] == table[i].addr);
      StillKnown(filter, front, r, table[k]);
    } else {
      NewlyKnown(filter, front, r, e);
    }
  }
}

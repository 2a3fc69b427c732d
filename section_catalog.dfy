/** The supported-sections catalog: from the parameter ids a device lists and
    its DEVICE_INFO reply, the sections of the control panel that apply to it,
    sorted by name. */
module SectionCatalog {
  import opened Support
  import opened Rdm
  import opened Replies
  import opened ResponseCheck

  const BOOT_SOFTWARE_ENTRY: SectionInfo := SectionInfo(BootSoftware, "Boot Software Version", "")
  const DMX_ADDRESS_ENTRY: SectionInfo := SectionInfo(DmxAddress, "DMX Start Address", "")

  // ---------------------------------------------------------------------
  // Collecting the sections
  // ---------------------------------------------------------------------

  /** The hint of the device-info and identify sections: "m" asks the
      device-info page to fetch the model description too. */
  function ModelHint(pids: seq<nat>): string {
    if PID_DEVICE_MODEL_DESCRIPTION in pids then "m" else ""
  }

  const DEVICE_HOURS_ENTRY: SectionInfo := SectionInfo(DeviceHours, "Device Hours", "")
  /** The lamp-hours entry as the pass adds it: named "Lamp Hours" but filed
      under the device-hours section id. */
  const LAMP_HOURS_FILED_ENTRY: SectionInfo := SectionInfo(DeviceHours, "Lamp Hours", "")
  /** The entry the lamp-hours page needs to be offered. */
  const LAMP_HOURS_ENTRY: SectionInfo := SectionInfo(LampHours, "Lamp Hours", "")

  /** What one entry of the pid list adds; the two boot-software pids only
      raise a flag. Lamp hours is filed under the device-hours id, so its
      entry opens the device-hours page. */
  function PidSection(pid: nat): seq<SectionInfo> {
    if pid == PID_MANUFACTURER_LABEL then [SectionInfo(ManufacturerLabel, "Manufacturer Label", "")]
    else if pid == PID_DEVICE_LABEL then [SectionInfo(DeviceLabel, "Device Label", "")]
    else if pid == PID_LANGUAGE then [SectionInfo(Language, "Language", "")]
    else if pid == PID_DMX_START_ADDRESS then [DMX_ADDRESS_ENTRY]
    else if pid == PID_DEVICE_HOURS then [DEVICE_HOURS_ENTRY]
    else if pid == PID_LAMP_HOURS then [LAMP_HOURS_FILED_ENTRY]
    else if pid == PID_PRODUCT_DETAIL_ID_LIST then [SectionInfo(ProductDetail, "Product Details", "")]
    else []
  }

  /** The entry as intended: lamp hours gets the lamp-hours page. */
  function PidSectionCorrected(pid: nat): seq<SectionInfo> {
    if pid == PID_LAMP_HOURS then [LAMP_HOURS_ENTRY] else PidSection(pid)
  }

  /** The pass over the pid list, in list order (a repeated pid adds its
      section again). */
  function PidSections(pids: seq<nat>): seq<SectionInfo> {
    if pids == [] then [] else PidSections(pids[..|pids| - 1]) + PidSection(pids[|pids| - 1])
  }

  /** The pass over the pid list with the intended lamp-hours entry. */
  function PidSectionsCorrected(pids: seq<nat>): seq<SectionInfo> {
    if pids == [] then []
    else PidSectionsCorrected(pids[..|pids| - 1]) + PidSectionCorrected(pids[|pids| - 1])
  }

  /** How many times `pid` is listed. */
  function Occurrences(pids: seq<nat>, pid: nat): nat {
    if pids == [] then 0
    else Occurrences(pids[..|pids| - 1], pid) + (if pids[|pids| - 1] == pid then 1 else 0)
  }

  /** The ids the pid pass can add. */
  predicate PidPassId(id: SectionId) {
    id.ManufacturerLabel? || id.DeviceLabel? || id.Language? || id.DmxAddress? || id.DeviceHours? || id.LampHours?
    || id.ProductDetail?
  }

  predicate BootListed(pids: seq<nat>) {
    PID_BOOT_SOFTWARE_VERSION_ID in pids || PID_BOOT_SOFTWARE_VERSION_LABEL in pids
  }

  predicate SensorsListed(pids: seq<nat>) {
    PID_SENSOR_DEFINITION in pids && PID_SENSOR_VALUE in pids
  }

  /** One section per sensor; sensors are numbered from 1 in the name, and
      the hint carries the sensor index. */
  function SensorSections(count: nat): (r: seq<SectionInfo>)
    ensures |r| == count
    ensures forall i :: 0 <= i < count ==> r[i] == SensorEntry(i)
  {
    if count == 0 then [] else SensorSections(count - 1) + [SensorEntry(count - 1)]
  }

  function SensorEntry(i: nat): SectionInfo {
    SectionInfo(Sensor, "Sensor " + NatToString(i + 1), NatToString(i))
  }

  /** The two sections every device gets. */
  function FixedPart(pids: seq<nat>): seq<SectionInfo> {
    [SectionInfo(DeviceInfo, "Device Info", ModelHint(pids)),
     SectionInfo(Identify, "Identify Mode", ModelHint(pids))]
  }

  function BootPart(pids: seq<nat>): seq<SectionInfo> {
    if BootListed(pids) then [BOOT_SOFTWARE_ENTRY] else []
  }

  /** The start-address section a DMX footprint implies, unless the pid
      pass already added one. */
  function FootprintPart(pids: seq<nat>, ok: bool, device: DeviceDescriptor): seq<SectionInfo> {
    if ok && device.dmxFootprint != 0 && PID_DMX_START_ADDRESS !in pids then [DMX_ADDRESS_ENTRY] else []
  }

  function SensorPart(pids: seq<nat>, ok: bool, device: DeviceDescriptor): seq<SectionInfo> {
    if ok && device.sensorCount != 0 && SensorsListed(pids) then SensorSections(device.sensorCount) else []
  }

  /** The sections in the order they are added, before sorting. `ok` is
      whether the DEVICE_INFO request succeeded; only then are the
      footprint and the sensor count trusted. */
  function CollectedSections(pids: seq<nat>, ok: bool, device: DeviceDescriptor): seq<SectionInfo> {
    FixedPart(pids) + PidSections(pids) + BootPart(pids) + FootprintPart(pids, ok, device) + SensorPart(pids, ok, device)
  }

  /** The catalog as intended: the same parts, with the intended lamp-hours
      entry in the pid pass. */
  function CorrectedSections(pids: seq<nat>, ok: bool, device: DeviceDescriptor): seq<SectionInfo> {
    FixedPart(pids) + PidSectionsCorrected(pids) + BootPart(pids) + FootprintPart(pids, ok, device)
    + SensorPart(pids, ok, device)
  }

  // ---------------------------------------------------------------------
  // Sorting by name
  // ---------------------------------------------------------------------

  /** Sorted for the comparator: no later section's name is less than an
      earlier one's. */
  predicate SortedByName(s: seq<SectionInfo>) {
    forall i, j :: 0 <= i < j < |s| ==> !StringLess(s[j].name, s[i].name)
  }

  lemma NotLessTransitive(a: string, b: string, c: string)
    requires !StringLess(b, a) && !StringLess(c, b)
    ensures !StringLess(c, a)
  {
    if a != b && StringLess(c, a) {
      StringLessTotal(a, b);
      StringLessTransitive(c, a, b);
    }
  }

  function Insert(x: SectionInfo, s: seq<SectionInfo>): (r: seq<SectionInfo>)
    requires SortedByName(s)
    ensures SortedByName(r)
    ensures multiset(r) == multiset(s) + multiset{x}
  {
    if s == [] || !StringLess(s[0].name, x.name) then
      assert forall j :: 0 <= j < |s| ==> !StringLess(s[j].name, x.name) by {
        forall j | 0 <= j < |s| ensures !StringLess(s[j].name, x.name) {
          if j > 0 {
            NotLessTransitive(x.name, s[0].name, s[j].name);
          }
        }
      }
      [x] + s
    else
      assert s == [s[0]] + s[1..];
      var rest := Insert(x, s[1..]);
      assert forall k :: 0 <= k < |rest| ==> !StringLess(rest[k].name, s[0].name) by {
        forall k | 0 <= k < |rest| ensures !StringLess(rest[k].name, s[0].name) {
          assert rest[k] in multiset(rest);
          if rest[k] == x {
            if StringLess(x.name, s[0].name) {
              StringLessTransitive(x.name, s[0].name, x.name);
              StringLessIrreflexive(x.name);
            }
          } else {
            assert rest[k] in s[1..];
          }
        }
      }
      [s[0]] + rest
  }

  /** Insertion sort by name. */
  function SortByName(s: seq<SectionInfo>): (r: seq<SectionInfo>)
    ensures SortedByName(r)
    ensures multiset(r) == multiset(s)
  {
    if s == [] then []
    else
      assert s == s[..|s| - 1] + [s[|s| - 1]];
      Insert(s[|s| - 1], SortByName(s[..|s| - 1]))
  }

  // ---------------------------------------------------------------------
  // The two handlers
  // ---------------------------------------------------------------------

  /** The first stage: the SUPPORTED_PARAMETERS reply. A NACK is tolerated (a
      device need not support that pid) and the DEVICE_INFO request goes out
      regardless; any other failure is served as an error. `apiError` is what
      the RDM API reports when it refuses the DEVICE_INFO request. `None`:
      the request is in flight and the second stage will answer. */
  function SupportedSectionsHandler(status: ResponseStatus, names: Names, apiError: string): (reply: Option<HttpReply>)
    ensures !CheckForRDMSuccess(status, names) && !status.responseType.RequestNacked? ==>
              reply == Some(ServerError(BACKEND_DISCONNECTED_ERROR))
    ensures CheckForRDMSuccess(status, names) || status.responseType.RequestNacked? ==>
              (reply.None? <==> apiError == "")
              && (apiError != "" ==> reply == Some(ServerError(BACKEND_DISCONNECTED_ERROR + apiError)))
  {
    if !CheckForRDMSuccess(status, names) && !status.responseType.RequestNacked? then
      // the stage's own error string, appended here, is still empty
      Some(ServerError(BACKEND_DISCONNECTED_ERROR))
    else if apiError != "" then Some(ServerError(BACKEND_DISCONNECTED_ERROR + apiError))
    else None
  }

  /** One more entry of the pid pass: its section, and the two flags. */
  lemma PidPassStep(pids: seq<nat>, i: nat)
    requires i < |pids|
    ensures PidSections(pids[..i + 1]) == PidSections(pids[..i]) + PidSection(pids[i])
    ensures PID_DMX_START_ADDRESS in pids[..i + 1] <==> PID_DMX_START_ADDRESS in pids[..i] || pids[i] == PID_DMX_START_ADDRESS
    ensures BootListed(pids[..i + 1]) <==>
              BootListed(pids[..i]) || pids[i] == PID_BOOT_SOFTWARE_VERSION_ID || pids[i] == PID_BOOT_SOFTWARE_VERSION_LABEL
  {
    assert pids[..i + 1] == pids[..i] + [pids[i]];
    assert pids[..i + 1][..i] == pids[..i];
  }

  /** The pass over the pid list: appends each pid's section to `sections`,
      and reports whether a start address was added and whether a
      boot-software pid was seen. */
  method PidPass(pids: seq<nat>, sections: seq<SectionInfo>)
    returns (added: seq<SectionInfo>, dmxAddressAdded: bool, includeSoftwareVersion: bool)
    ensures added == sections + PidSections(pids)
    ensures dmxAddressAdded <==> PID_DMX_START_ADDRESS in pids
    ensures includeSoftwareVersion <==> BootListed(pids)
  {
    added, dmxAddressAdded, includeSoftwareVersion := sections, false, false;
    var i := 0;
    while i < |pids|
      invariant 0 <= i <= |pids|
      invariant added == sections + PidSections(pids[..i])
      invariant dmxAddressAdded <==> PID_DMX_START_ADDRESS in pids[..i]
      invariant includeSoftwareVersion <==> BootListed(pids[..i])
    {
      var pid := pids[i];
      added := added + PidSection(pid);
      if pid == PID_BOOT_SOFTWARE_VERSION_ID || pid == PID_BOOT_SOFTWARE_VERSION_LABEL {
        includeSoftwareVersion := true;
      } else if pid == PID_DMX_START_ADDRESS {
        dmxAddressAdded := true;
      }
      PidPassStep(pids, i);
      i := i + 1;
    }
    assert pids[..i] == pids;
  }

  /** Appends one section per sensor, numbered from 1. */
  method AddSensorSections(sections: seq<SectionInfo>, count: nat) returns (added: seq<SectionInfo>)
    ensures added == sections + SensorSections(count)
  {
    added := sections;
    var k := 0;
    while k < count
      invariant 0 <= k <= count
      invariant added == sections + SensorSections(k)
    {
      added := added + [SensorEntry(k)];
      k := k + 1;
    }
  }

  /** The second stage: the catalog, collected in the order the source adds
      its sections, then sorted by name. */
  method SupportedSectionsDeviceInfoHandler(pids: seq<nat>, status: ResponseStatus, names: Names,
                                            device: DeviceDescriptor)
    returns (reply: HttpReply)
    ensures reply.SectionList?
    ensures SortedByName(reply.sections)
    ensures multiset(reply.sections) == multiset(CollectedSections(pids, CheckForRDMSuccess(status, names), device))
  {
    var hint := if PID_DEVICE_MODEL_DESCRIPTION in pids then "m" else "";
    var sections := [SectionInfo(DeviceInfo, "Device Info", hint), SectionInfo(Identify, "Identify Mode", hint)];
    var dmxAddressAdded, includeSoftwareVersion;
    sections, dmxAddressAdded, includeSoftwareVersion := PidPass(pids, sections);
    if includeSoftwareVersion {
      sections := sections + [BOOT_SOFTWARE_ENTRY];
    }
    ghost var head := sections;
    ghost var ok := CheckForRDMSuccess(status, names);
    if CheckForRDMSuccess(status, names) {
      if device.dmxFootprint != 0 && !dmxAddressAdded {
        sections := sections + [DMX_ADDRESS_ENTRY];
      }
      if device.sensorCount != 0 && PID_SENSOR_DEFINITION in pids && PID_SENSOR_VALUE in pids {
        sections := AddSensorSections(sections, device.sensorCount);
      }
    }
    assert head == FixedPart(pids) + PidSections(pids) + BootPart(pids);
    assert sections == head + FootprintPart(pids, ok, device) + SensorPart(pids, ok, device);
    assert sections == CollectedSections(pids, ok, device);
    var sorted := SortByName(sections);
    reply := SectionList(sorted);
  }

  // ---------------------------------------------------------------------
  // What the catalog holds
  // ---------------------------------------------------------------------

  /** The sections with a given id, in order. */
  function WithId(s: seq<SectionInfo>, id: SectionId): seq<SectionInfo> {
    if s == [] then []
    else WithId(s[..|s| - 1], id) + (if s[|s| - 1].id == id then [s[|s| - 1]] else [])
  }

  lemma {:induction false} WithIdConcat(a: seq<SectionInfo>, b: seq<SectionInfo>, id: SectionId)
    ensures WithId(a + b, id) == WithId(a, id) + WithId(b, id)
    decreases |b|
  {
    if b != [] {
      assert (a + b)[..|a + b| - 1] == a + b[..|b| - 1];
      WithIdConcat(a, b[..|b| - 1], id);
    } else {
      assert a + b == a;
    }
  }

  /** Only these ids come from the pid list. */
  lemma {:induction false} PidSectionIds(pids: seq<nat>)
    ensures forall x :: x in PidSections(pids) ==> PidPassId(x.id)
  {
    if pids != [] {
      PidSectionIds(pids[..|pids| - 1]);
    }
  }

  /** The pid pass adds at most one section per pid, under one of six ids;
      only PID_DMX_START_ADDRESS adds a start-address section. */
  lemma PidSectionShape(pid: nat)
    ensures |PidSection(pid)| <= 1
    ensures PidSection(pid) != [] ==>
              PidPassId(PidSection(pid)[0].id)
    ensures (PidSection(pid) != [] && PidSection(pid)[0].id == DmxAddress) <==> pid == PID_DMX_START_ADDRESS
    ensures pid == PID_DMX_START_ADDRESS ==> PidSection(pid) == [DMX_ADDRESS_ENTRY]
  {
  }

  lemma PidSectionDmx(pid: nat)
    ensures WithId(PidSection(pid), DmxAddress) == if pid == PID_DMX_START_ADDRESS then [DMX_ADDRESS_ENTRY] else []
  {
    PidSectionShape(pid);
    var p := PidSection(pid);
    if p != [] {
      WithIdSingleton(p[0], DmxAddress);
      assert p == [p[0]];
    }
  }

  lemma WithIdSingleton(x: SectionInfo, id: SectionId)
    ensures WithId([x], id) == if x.id == id then [x] else []
  {
    assert [x][..0] == [];
  }

  /** The DMX start-address sections of the pid pass: one per listed
      PID_DMX_START_ADDRESS. */
  lemma {:induction false} PidDmxSections(pids: seq<nat>)
    ensures |WithId(PidSections(pids), DmxAddress)| == Occurrences(pids, PID_DMX_START_ADDRESS)
    ensures forall x :: x in WithId(PidSections(pids), DmxAddress) ==> x == DMX_ADDRESS_ENTRY
  {
    if pids != [] {
      var init := pids[..|pids| - 1];
      var last := pids[|pids| - 1];
      assert pids == init + [last];
      PidDmxSections(init);
      WithIdConcat(PidSections(init), PidSection(last), DmxAddress);
      PidSectionDmx(last);
    }
  }

  /** The hours entries of the pid pass as written: each is offered
      exactly when its pid is listed, both under the device-hours id, and
      nothing is filed under the lamp-hours id. */
  lemma {:induction false} PidHoursSections(pids: seq<nat>)
    ensures DEVICE_HOURS_ENTRY in PidSections(pids) <==> PID_DEVICE_HOURS in pids
    ensures LAMP_HOURS_FILED_ENTRY in PidSections(pids) <==> PID_LAMP_HOURS in pids
    ensures forall x :: x in PidSections(pids) && x.id == DeviceHours ==>
              x == DEVICE_HOURS_ENTRY || x == LAMP_HOURS_FILED_ENTRY
    ensures forall x :: x in PidSections(pids) ==> x.id != LampHours
  {
    if pids != [] {
      var init := pids[..|pids| - 1];
      assert pids == init + [pids[|pids| - 1]];
      PidHoursSections(init);
    }
  }

  /** The hours entries of the intended pid pass: each is offered exactly
      when its pid is listed, and an entry under either hours id is that
      page's own. */
  lemma {:induction false} PidHoursSectionsCorrected(pids: seq<nat>)
    ensures DEVICE_HOURS_ENTRY in PidSectionsCorrected(pids) <==> PID_DEVICE_HOURS in pids
    ensures LAMP_HOURS_ENTRY in PidSectionsCorrected(pids) <==> PID_LAMP_HOURS in pids
    ensures forall x :: x in PidSectionsCorrected(pids) && x.id == DeviceHours ==> x == DEVICE_HOURS_ENTRY
    ensures forall x :: x in PidSectionsCorrected(pids) && x.id == LampHours ==> x == LAMP_HOURS_ENTRY
  {
    if pids != [] {
      var init := pids[..|pids| - 1];
      assert pids == init + [pids[|pids| - 1]];
      PidHoursSectionsCorrected(init);
    }
  }

  lemma {:induction false} WithIdAbsent(s: seq<SectionInfo>, id: SectionId)
    requires forall x :: x in s ==> x.id != id
    ensures WithId(s, id) == []
  {
    if s != [] {
      assert s[|s| - 1] in s;
      WithIdAbsent(s[..|s| - 1], id);
    }
  }

  lemma {:induction false} WithIdAll(s: seq<SectionInfo>, id: SectionId)
    requires forall k :: 0 <= k < |s| ==> s[k].id == id
    ensures WithId(s, id) == s
  {
    if s != [] {
      WithIdAll(s[..|s| - 1], id);
    }
  }

  /** Only the sensor id comes from the sensor part. */
  lemma SensorPartIds(pids: seq<nat>, ok: bool, device: DeviceDescriptor, id: SectionId)
    ensures forall x :: x in SensorPart(pids, ok, device) ==> x.id == Sensor
    ensures WithId(SensorPart(pids, ok, device), Sensor) == SensorPart(pids, ok, device)
    ensures id != Sensor ==> WithId(SensorPart(pids, ok, device), id) == []
  {
    SensorIds(device.sensorCount);
    WithIdAll(SensorPart(pids, ok, device), Sensor);
    if id != Sensor {
      WithIdAbsent(SensorPart(pids, ok, device), id);
    }
  }

  lemma FixedPartIds(pids: seq<nat>, id: SectionId)
    ensures WithId(FixedPart(pids), id)
              == if id == DeviceInfo then [FixedPart(pids)[0]]
                 else if id == Identify then [FixedPart(pids)[1]]
                 else []
  {
    var fixed := FixedPart(pids);
    assert fixed == [fixed[0]] + [fixed[1]];
    WithIdConcat([fixed[0]], [fixed[1]], id);
    WithIdSingleton(fixed[0], id);
    WithIdSingleton(fixed[1], id);
  }

  lemma BootPartIds(pids: seq<nat>, id: SectionId)
    ensures WithId(BootPart(pids), id) == if id == BootSoftware then BootPart(pids) else []
  {
    if BootPart(pids) != [] {
      WithIdSingleton(BOOT_SOFTWARE_ENTRY, id);
    }
  }

  lemma FootprintPartIds(pids: seq<nat>, ok: bool, device: DeviceDescriptor, id: SectionId)
    ensures WithId(FootprintPart(pids, ok, device), id) == if id == DmxAddress then FootprintPart(pids, ok, device) else []
  {
    if FootprintPart(pids, ok, device) != [] {
      WithIdSingleton(DMX_ADDRESS_ENTRY, id);
    }
  }

  /** Only the pid-pass ids come from the pid pass. */
  lemma PidSectionsAbsent(pids: seq<nat>, id: SectionId)
    requires !PidPassId(id)
    ensures WithId(PidSections(pids), id) == []
  {
    PidSectionIds(pids);
    WithIdAbsent(PidSections(pids), id);
  }

  lemma SensorIds(count: nat)
    ensures forall x :: x in SensorSections(count) ==> x.id == Sensor
    ensures WithId(SensorSections(count), Sensor) == SensorSections(count)
  {
    WithIdAll(SensorSections(count), Sensor);
  }

  /** Filtering a catalog filters each of its parts. */
  lemma CollectedParts(pids: seq<nat>, ok: bool, device: DeviceDescriptor, id: SectionId)
    ensures WithId(CollectedSections(pids, ok, device), id)
              == WithId(FixedPart(pids), id) + WithId(PidSections(pids), id) + WithId(BootPart(pids), id)
                 + WithId(FootprintPart(pids, ok, device), id) + WithId(SensorPart(pids, ok, device), id)
  {
    var a := FixedPart(pids);
    var b := a + PidSections(pids);
    var c := b + BootPart(pids);
    var d := c + FootprintPart(pids, ok, device);
    WithIdConcat(a, PidSections(pids), id);
    WithIdConcat(b, BootPart(pids), id);
    WithIdConcat(c, FootprintPart(pids, ok, device), id);
    WithIdConcat(d, SensorPart(pids, ok, device), id);
  }

  /** The ids no pid, footprint or sensor contributes are found in the fixed
      part and the boot part only. */
  lemma CollectedOutsidePids(pids: seq<nat>, ok: bool, device: DeviceDescriptor, id: SectionId)
    requires !PidPassId(id) && id != Sensor
    ensures WithId(CollectedSections(pids, ok, device), id) == WithId(FixedPart(pids), id) + WithId(BootPart(pids), id)
  {
    CollectedParts(pids, ok, device, id);
    PidSectionsAbsent(pids, id);
    FootprintPartIds(pids, ok, device, id);
    SensorPartIds(pids, ok, device, id);
  }

  /** Device info and identify are always offered, once each, both with the
      model hint "m" exactly when PID_DEVICE_MODEL_DESCRIPTION is listed. */
  lemma CatalogFixedSections(pids: seq<nat>, ok: bool, device: DeviceDescriptor)
    ensures var hint := if PID_DEVICE_MODEL_DESCRIPTION in pids then "m" else "";
            && WithId(CollectedSections(pids, ok, device), DeviceInfo)
                 == [SectionInfo(DeviceInfo, "Device Info", hint)]
            && WithId(CollectedSections(pids, ok, device), Identify)
                 == [SectionInfo(Identify, "Identify Mode", hint)]
  {
    var fixed := FixedPart(pids);
    CollectedOutsidePids(pids, ok, device, DeviceInfo);
    CollectedOutsidePids(pids, ok, device, Identify);
    BootPartIds(pids, DeviceInfo);
    BootPartIds(pids, Identify);
    assert fixed[..1] == [fixed[0]] && fixed[..0] == [];
  }

  /** Boot software is offered at most once, exactly when either boot pid is
      listed. */
  lemma CatalogBootSoftware(pids: seq<nat>, ok: bool, device: DeviceDescriptor)
    ensures WithId(CollectedSections(pids, ok, device), BootSoftware)
              == if PID_BOOT_SOFTWARE_VERSION_ID in pids || PID_BOOT_SOFTWARE_VERSION_LABEL in pids
                 then [BOOT_SOFTWARE_ENTRY] else []
  {
    CollectedOutsidePids(pids, ok, device, BootSoftware);
    FixedPartIds(pids, BootSoftware);
    BootPartIds(pids, BootSoftware);
  }

  lemma DropEmpty(x: seq<SectionInfo>, a: seq<SectionInfo>, b: seq<SectionInfo>, c: seq<SectionInfo>,
                  d: seq<SectionInfo>, e: seq<SectionInfo>)
    requires x == a + b + c + d + e
    requires a == [] && c == [] && e == []
    ensures x == b + d
  {
    assert a + b + c + d + e == b + d;
  }

  /** One DMX start-address section per listed PID_DMX_START_ADDRESS, plus
      one from the footprint only when DEVICE_INFO succeeded, the footprint
      is nonzero and the pid was not listed. */
  lemma CatalogDmxAddress(pids: seq<nat>, ok: bool, device: DeviceDescriptor)
    ensures |WithId(CollectedSections(pids, ok, device), DmxAddress)|
              == Occurrences(pids, PID_DMX_START_ADDRESS)
                 + (if ok && device.dmxFootprint != 0 && PID_DMX_START_ADDRESS !in pids then 1 else 0)
    ensures forall x :: x in WithId(CollectedSections(pids, ok, device), DmxAddress) ==> x == DMX_ADDRESS_ENTRY
  {
    CollectedDmx(pids, ok, device);
    PidDmxSections(pids);
  }

  /** The start-address sections come from the pid pass and the footprint. */
  lemma CollectedDmx(pids: seq<nat>, ok: bool, device: DeviceDescriptor)
    ensures WithId(CollectedSections(pids, ok, device), DmxAddress)
              == WithId(PidSections(pids), DmxAddress) + FootprintPart(pids, ok, device)
  {
    CollectedParts(pids, ok, device, DmxAddress);
    FixedPartIds(pids, DmxAddress);
    BootPartIds(pids, DmxAddress);
    FootprintPartIds(pids, ok, device, DmxAddress);
    SensorPartIds(pids, ok, device, DmxAddress);
    DropEmpty(WithId(CollectedSections(pids, ok, device), DmxAddress), WithId(FixedPart(pids), DmxAddress),
              WithId(PidSections(pids), DmxAddress), WithId(BootPart(pids), DmxAddress),
              FootprintPart(pids, ok, device), WithId(SensorPart(pids, ok, device), DmxAddress));
  }

  /** The sensor sections are those of `SensorSections`, present only when
      DEVICE_INFO succeeded and both sensor pids are listed. */
  lemma CatalogSensors(pids: seq<nat>, ok: bool, device: DeviceDescriptor)
    ensures WithId(CollectedSections(pids, ok, device), Sensor)
              == if ok && PID_SENSOR_DEFINITION in pids && PID_SENSOR_VALUE in pids
                 then SensorSections(device.sensorCount) else []
  {
    CollectedParts(pids, ok, device, Sensor);
    FixedPartIds(pids, Sensor);
    PidSectionsAbsent(pids, Sensor);
    BootPartIds(pids, Sensor);
    FootprintPartIds(pids, ok, device, Sensor);
    SensorPartIds(pids, ok, device, Sensor);
  }

  /** Sensor `i` is named "Sensor i+1" and its hint reads back as `i`, the
      index the sensor page parses; the names are pairwise distinct. */
  lemma SensorSectionsNumbered(count: nat, i: nat, j: nat)
    requires i < count <= UINT8_MAX + 1 && j < count
    ensures SensorSections(count)[i].name == "Sensor " + NatToString(i + 1)
    ensures ParseUInt(SensorSections(count)[i].hint, UINT8_MAX) == Some(i)
    ensures i != j ==> SensorSections(count)[i].name != SensorSections(count)[j].name
  {
    ParseUIntOfNatToString(i, UINT8_MAX);
    if i != j {
      NatToStringInjective(i + 1, j + 1);
      var a := SensorSections(count)[i].name;
      var b := SensorSections(count)[j].name;
      assert a[7..] == NatToString(i + 1) && b[7..] == NatToString(j + 1);
    }
  }

  /** As written, a listed PID_LAMP_HOURS puts a "Lamp Hours" entry
      under the device-hours id into the catalog, and the catalog never
      holds a lamp-hours entry: the lamp-hours page is never offered. */
  lemma CatalogHoursAsWritten(pids: seq<nat>, ok: bool, device: DeviceDescriptor)
    ensures LAMP_HOURS_FILED_ENTRY in CollectedSections(pids, ok, device) <==> PID_LAMP_HOURS in pids
    ensures DEVICE_HOURS_ENTRY in CollectedSections(pids, ok, device) <==> PID_DEVICE_HOURS in pids
    ensures forall x :: x in CollectedSections(pids, ok, device) ==> x.id != LampHours
  {
    PidHoursSections(pids);
    forall x | x in CollectedSections(pids, ok, device) ensures x.id != LampHours {
      if x.id == LampHours {
        HoursInPidPart(pids, ok, device, PidSections(pids), x);
      }
    }
    HoursInPidPart(pids, ok, device, PidSections(pids), LAMP_HOURS_FILED_ENTRY);
    HoursInPidPart(pids, ok, device, PidSections(pids), DEVICE_HOURS_ENTRY);
  }

  /** In the intended catalog device hours and lamp hours each open their
      own page: the entry of each is offered exactly when its pid is listed,
      and every entry under either id is that page's entry. */
  lemma CatalogHours(pids: seq<nat>, ok: bool, device: DeviceDescriptor)
    ensures DEVICE_HOURS_ENTRY in CorrectedSections(pids, ok, device) <==> PID_DEVICE_HOURS in pids
    ensures LAMP_HOURS_ENTRY in CorrectedSections(pids, ok, device) <==> PID_LAMP_HOURS in pids
    ensures forall x :: x in CorrectedSections(pids, ok, device) && x.id == DeviceHours ==> x == DEVICE_HOURS_ENTRY
    ensures forall x :: x in CorrectedSections(pids, ok, device) && x.id == LampHours ==> x == LAMP_HOURS_ENTRY
  {
    PidHoursSectionsCorrected(pids);
    forall x: SectionInfo | x.id == DeviceHours || x.id == LampHours
      ensures x in CorrectedSections(pids, ok, device) <==> x in PidSectionsCorrected(pids)
    {
      HoursInPidPart(pids, ok, device, PidSectionsCorrected(pids), x);
    }
  }

  /** In either catalog an hours entry is in no part but the pid pass. */
  lemma HoursInPidPart(pids: seq<nat>, ok: bool, device: DeviceDescriptor, pass: seq<SectionInfo>, x: SectionInfo)
    requires x.id == DeviceHours || x.id == LampHours
    ensures x in FixedPart(pids) + pass + BootPart(pids) + FootprintPart(pids, ok, device) + SensorPart(pids, ok, device)
            <==> x in pass
  {
    var post := BootPart(pids) + FootprintPart(pids, ok, device) + SensorPart(pids, ok, device);
    HoursNotAfterPids(pids, ok, device, x);
    assert x !in FixedPart(pids);
    InMiddle(FixedPart(pids) + pass + BootPart(pids) + FootprintPart(pids, ok, device) + SensorPart(pids, ok, device),
             FixedPart(pids), pass, post, x);
  }

  /** Membership in `s == a + b + c` for an element of neither `a` nor `c`. */
  lemma InMiddle<T>(s: seq<T>, a: seq<T>, b: seq<T>, c: seq<T>, x: T)
    requires s == a + b + c
    requires x !in a && x !in c
    ensures x in s <==> x in b
  {
  }

  /** Nothing added after the pid pass is an hours entry. */
  lemma HoursNotAfterPids(pids: seq<nat>, ok: bool, device: DeviceDescriptor, x: SectionInfo)
    requires x.id == DeviceHours || x.id == LampHours
    ensures x !in BootPart(pids) + FootprintPart(pids, ok, device) + SensorPart(pids, ok, device)
  {
    SensorIds(device.sensorCount);
  }
}

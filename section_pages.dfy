/** The section pages of the control panel: how a request for a section, or
    a save of one, is validated and turned into an RDM transaction, and how
    the replies of each transaction chain are rendered as a section. */
module SectionPages {
  import opened Support
  import opened Rdm
  import opened Replies
  import opened ResponseCheck
  import opened SectionCatalog

  // ---------------------------------------------------------------------
  // Requests and the transactions they start

  /** A request's parameters; a missing one reads as the empty string. */
  function Param(params: map<string, string>, key: string): string {
    if key in params then params[key] else ""
  }

  /** The argument an RDM request carries. */
  datatype Value = NoValue | Number(n: nat) | Text(text: string) | Flag(on: bool)

  /** An RDM GET or SET to the root device of a responder. */
  datatype Op = Get(pid: nat, arg: Value) | Set(pid: nat, arg: Value)

  /** A transaction sent to a responder of a universe. */
  datatype Call = Call(universe: nat, uid: Uid, op: Op)

  /** What the first stage of a request does: answer at once, or send a
      transaction whose handler answers later. */
  datatype Outcome = Served(reply: HttpReply) | Sent(call: Call)

  /** What a section's own code decides before any transaction: the
      parameter it validates is rejected, or the request to send. */
  datatype Stage = Invalid(error: string) | Start(op: Op)

  /** The universe id of a request, an unsigned 32-bit number. */
  function CheckForInvalidId(params: map<string, string>): (universe: Option<nat>)
    ensures universe.Some? ==> universe.value <= UINT32_MAX
    ensures universe.Some? <==> ParseUInt(Param(params, ID_KEY), UINT32_MAX).Some?
  {
    ParseUInt(Param(params, ID_KEY), UINT32_MAX)
  }

  /** The UID of a request; `uidOf` stands for the UID parser of the RDM
      library, which is not part of this model. */
  function CheckForInvalidUid(params: map<string, string>, uidOf: string -> Option<Uid>): Option<Uid> {
    uidOf(Param(params, UID_KEY))
  }

  const INVALID_START_ADDRESS: string := "Invalid start address"
  const INVALID_SENSOR_HINT: string := "Invalid hint (sensor #)"
  const INVALID_DEVICE_HOURS: string := "Invalid device hours"

  /** A number parameter checked against the width of the value it is
      sent as; a parameter that does not parse is rejected with `error`. */
  function NumberStage(text: string, max: nat, error: string, make: nat -> Op): (stage: Stage)
    ensures stage.Invalid? <==> ParseUInt(text, max).None?
    ensures stage.Invalid? ==> stage.error == error
    ensures stage.Start? ==> stage.op == make(ParseUInt(text, max).value)
  {
    match ParseUInt(text, max)
    case None => Invalid(error)
    case Some(n) => Start(make(n))
  }

  /** The first request each section sends when it is displayed. Only the
      sensor section validates anything: its hint is the sensor number. */
  function GetStage(id: SectionId, params: map<string, string>): (stage: Stage)
    ensures stage.Invalid? <==> id == Sensor && ParseUInt(Param(params, HINT_KEY), UINT8_MAX).None?
    ensures stage.Invalid? ==> stage.error == INVALID_SENSOR_HINT
    ensures stage.Start? ==> stage.op.Get?
  {
    match id
    case DeviceInfo => Start(Get(PID_SOFTWARE_VERSION_LABEL, NoValue))
    case ProductDetail => Start(Get(PID_PRODUCT_DETAIL_ID_LIST, NoValue))
    case ManufacturerLabel => Start(Get(PID_MANUFACTURER_LABEL, NoValue))
    case DeviceLabel => Start(Get(PID_DEVICE_LABEL, NoValue))
    case Language => Start(Get(PID_LANGUAGE_CAPABILITIES, NoValue))
    case BootSoftware => Start(Get(PID_BOOT_SOFTWARE_VERSION_LABEL, NoValue))
    case DmxAddress => Start(Get(PID_DMX_START_ADDRESS, NoValue))
    case Sensor =>
      NumberStage(Param(params, HINT_KEY), UINT8_MAX, INVALID_SENSOR_HINT,
                  (n: nat) => Get(PID_SENSOR_DEFINITION, Number(n)))
    case DeviceHours => Start(Get(PID_DEVICE_HOURS, NoValue))
    case LampHours => Start(Get(PID_LAMP_HOURS, NoValue))
    case Identify => Start(Get(PID_IDENTIFY_DEVICE, NoValue))
  }

  /** The sections that can be saved. */
  predicate Writable(id: SectionId) {
    id in {DeviceLabel, Language, DmxAddress, Sensor, DeviceHours, LampHours, Identify}
  }

  /** The request a save sends, `None` for a section that cannot be saved.
      Numbers are checked against the width of the field they set: a start
      address is 16 bits, a sensor number 8 and an hour count 32; the
      identify flag is on exactly when its parameter is "1". */
  function SetStage(id: SectionId, params: map<string, string>): (stage: Option<Stage>)
    ensures stage.Some? <==> Writable(id)
    ensures stage.Some? && stage.value.Start? ==> stage.value.op.Set?
  {
    match id
    case DeviceLabel => Some(Start(Set(PID_DEVICE_LABEL, Text(Param(params, LABEL_FIELD)))))
    case Language => Some(Start(Set(PID_LANGUAGE, Text(Param(params, LANGUAGE_FIELD)))))
    case DmxAddress =>
      Some(NumberStage(Param(params, ADDRESS_FIELD), UINT16_MAX, INVALID_START_ADDRESS,
                       (n: nat) => Set(PID_DMX_START_ADDRESS, Number(n))))
    case Sensor =>
      Some(NumberStage(Param(params, HINT_KEY), UINT8_MAX, INVALID_SENSOR_HINT,
                       (n: nat) => Set(PID_RECORD_SENSORS, Number(n))))
    case DeviceHours =>
      Some(NumberStage(Param(params, HOURS_FIELD), UINT32_MAX, INVALID_DEVICE_HOURS,
                       (n: nat) => Set(PID_DEVICE_HOURS, Number(n))))
    case LampHours =>
      Some(NumberStage(Param(params, HOURS_FIELD), UINT32_MAX, INVALID_DEVICE_HOURS,
                       (n: nat) => Set(PID_LAMP_HOURS, Number(n))))
    case Identify => Some(Start(Set(PID_IDENTIFY_DEVICE, Flag(Param(params, IDENTIFY_FIELD) == "1"))))
    case _ => None
  }

  /** The request is addressed to a universe, a responder and a section the
      gateway knows. */
  predicate Addressed(params: map<string, string>, uidOf: string -> Option<Uid>) {
    && CheckForInvalidId(params).Some?
    && CheckForInvalidUid(params, uidOf).Some?
    && ParseSectionId(Param(params, SECTION_KEY)).Some?
  }

  /** Displaying a section. A bad universe id, UID or section id is not
      found. Otherwise the section's request is sent unless the section
      rejects its parameter or the RDM client cannot send (`apiError`, the
      text the client reports); either failure is a server error after the
      disconnected-backend message. */
  function JsonSectionInfo(params: map<string, string>, uidOf: string -> Option<Uid>, apiError: string)
    : (r: Outcome)
    ensures r == Served(NotFound) <==> !Addressed(params, uidOf)
    ensures r.Sent? <==>
              && Addressed(params, uidOf)
              && GetStage(ParseSectionId(Param(params, SECTION_KEY)).value, params).Start?
              && apiError == ""
    ensures r.Sent? ==>
              && r.call.universe == CheckForInvalidId(params).value
              && r.call.uid == CheckForInvalidUid(params, uidOf).value
              && Start(r.call.op) == GetStage(ParseSectionId(Param(params, SECTION_KEY)).value, params)
    ensures r.Served? && r.reply != NotFound ==> r.reply.ServerError?
  {
    var universe := CheckForInvalidId(params);
    var uid := CheckForInvalidUid(params, uidOf);
    var id := ParseSectionId(Param(params, SECTION_KEY));
    if universe.None? || uid.None? || id.None? then Served(NotFound)
    else match GetStage(id.value, params)
      case Invalid(error) => Served(ServerError(BACKEND_DISCONNECTED_ERROR + error))
      case Start(op) =>
        if apiError != "" then Served(ServerError(BACKEND_DISCONNECTED_ERROR + apiError))
        else Sent(Call(universe.value, uid.value, op))
  }

  /** Saving a section. A read-only section is not found like an unknown
      one; a rejected parameter or a send failure is answered with the
      message alone, as the error of a JSON reply. */
  function JsonSaveSectionInfo(params: map<string, string>, uidOf: string -> Option<Uid>, apiError: string)
    : (r: Outcome)
    ensures r == Served(NotFound) <==>
              !Addressed(params, uidOf) || !Writable(ParseSectionId(Param(params, SECTION_KEY)).value)
    ensures r.Sent? ==>
              && Addressed(params, uidOf)
              && apiError == ""
              && r.call.universe == CheckForInvalidId(params).value
              && r.call.uid == CheckForInvalidUid(params, uidOf).value
              && SetStage(ParseSectionId(Param(params, SECTION_KEY)).value, params) == Some(Start(r.call.op))
    ensures r.Served? && r.reply != NotFound ==> r.reply.ErrorJson? && r.reply.error != ""
  {
    var universe := CheckForInvalidId(params);
    var uid := CheckForInvalidUid(params, uidOf);
    var id := ParseSectionId(Param(params, SECTION_KEY));
    if universe.None? || uid.None? || id.None? then Served(NotFound)
    else match SetStage(id.value, params)
      case None => Served(NotFound)
      case Some(Invalid(error)) => Served(ErrorJson(error))
      case Some(Start(op)) =>
        if apiError != "" then Served(ErrorJson(apiError))
        else Sent(Call(universe.value, uid.value, op))
  }

  /** Asking for a responder's section list. A bad universe id or UID is
      not found; otherwise SUPPORTED_PARAMETERS is requested, and when the
      RDM client refuses the request (`accepted` false) the reply is a
      server error carrying the disconnected-backend message alone. */
  function JsonSupportedSections(params: map<string, string>, uidOf: string -> Option<Uid>, accepted: bool)
    : (r: Outcome)
    ensures r == Served(NotFound) <==> CheckForInvalidId(params).None? || CheckForInvalidUid(params, uidOf).None?
    ensures r.Sent? <==> r != Served(NotFound) && accepted
    ensures r.Served? && r.reply != NotFound ==> r.reply == ServerError(BACKEND_DISCONNECTED_ERROR)
    ensures r.Sent? ==>
              r.call == Call(CheckForInvalidId(params).value, CheckForInvalidUid(params, uidOf).value,
                             Get(PID_SUPPORTED_PARAMETERS, NoValue))
  {
    var universe := CheckForInvalidId(params);
    var uid := CheckForInvalidUid(params, uidOf);
    if universe.None? || uid.None? then Served(NotFound)
    else if !accepted then Served(ServerError(BACKEND_DISCONNECTED_ERROR))
    else Sent(Call(universe.value, uid.value, Get(PID_SUPPORTED_PARAMETERS, NoValue)))
  }

  /** A save whose value does not parse sends nothing, whatever the RDM
      client would have done: the validation message is the reply. */
  lemma {:induction false} SaveRejectsInvalidNumber(params: map<string, string>, uidOf: string -> Option<Uid>,
                                                   apiError: string, id: SectionId)
    requires Addressed(params, uidOf) && ParseSectionId(Param(params, SECTION_KEY)) == Some(id)
    requires id in {DmxAddress, Sensor, DeviceHours, LampHours}
    requires var text := Param(params, if id == DmxAddress then ADDRESS_FIELD else if id == Sensor then HINT_KEY else HOURS_FIELD);
             ParseUInt(text, if id == DmxAddress then UINT16_MAX else if id == Sensor then UINT8_MAX else UINT32_MAX).None?
    ensures JsonSaveSectionInfo(params, uidOf, apiError) ==
              Served(ErrorJson(if id == DmxAddress then INVALID_START_ADDRESS
                               else if id == Sensor then INVALID_SENSOR_HINT
                               else INVALID_DEVICE_HOURS))
  {
    assert SetStage(id, params).value.Invalid?;
  }

  /** A number shown by a page comes back through the page's field: saving
      its decimal text sets the same parameter the page read, to the same
      value. */
  lemma {:induction false} SaveNumberRoundTrip(params: map<string, string>, uidOf: string -> Option<Uid>,
                                              id: SectionId, n: nat)
    requires Addressed(params, uidOf) && ParseSectionId(Param(params, SECTION_KEY)) == Some(id)
    requires id in {DmxAddress, DeviceHours, LampHours}
    requires n <= if id == DmxAddress then UINT16_MAX else UINT32_MAX
    requires Param(params, if id == DmxAddress then ADDRESS_FIELD else HOURS_FIELD) == NatToString(n)
    ensures var r := JsonSaveSectionInfo(params, uidOf, "");
            && r.Sent?
            && r.call.op == Set(if id == DmxAddress then PID_DMX_START_ADDRESS
                                else if id == DeviceHours then PID_DEVICE_HOURS
                                else PID_LAMP_HOURS, Number(n))
            && Get(r.call.op.pid, NoValue) == GetStage(id, params).op
  {
    ParseUIntOfNatToString(n, if id == DmxAddress then UINT16_MAX else UINT32_MAX);
  }

  /** The sensor number a catalog hint carries is the one both displaying
      and recording that sensor address. */
  lemma {:induction false} SensorHintRoundTrip(params: map<string, string>, i: nat)
    requires i <= UINT8_MAX && Param(params, HINT_KEY) == NatToString(i)
    ensures GetStage(Sensor, params) == Start(Get(PID_SENSOR_DEFINITION, Number(i)))
    ensures SetStage(Sensor, params) == Some(Start(Set(PID_RECORD_SENSORS, Number(i))))
  {
    ParseUIntOfNatToString(i, UINT8_MAX);
  }

  // ---------------------------------------------------------------------
  // Transaction chains

  /** The next step of a chain: the reply that ends it early, or the state
      carried to the next request and that request. */
  datatype Continuation<T> = Abort(reply: HttpReply) | Continue(state: T, op: Op)

  /** Sends the next request of a chain unless the client reports `apiError`. */
  function Then<T>(state: T, op: Op, apiError: string): (c: Continuation<T>)
    ensures c.Continue? <==> apiError == ""
    ensures c.Continue? ==> c.state == state && c.op == op
    ensures c.Abort? ==> c.reply == ServerError(BACKEND_DISCONNECTED_ERROR + apiError)
  {
    if apiError != "" then Abort(ServerError(BACKEND_DISCONNECTED_ERROR + apiError))
    else Continue(state, op)
  }

  /** A text the responder reports beside the number the device info
      carries: the number alone when there is no text, else the text with
      the number in parentheses. Either way the number is shown, at the
      end. */
  function Composite(local: string, reported: string): string {
    if local == "" then reported else local + " (" + reported + ")"
  }

  /** How a composite text is laid out: the responder's text, " (", the
      number and ")"; or the number alone. */
  lemma CompositeLayout(local: string, reported: string)
    ensures var text := Composite(local, reported);
            && (local == "" ==> text == reported)
            && (local != "" ==> |text| == |local| + |reported| + 3)
            && (local != "" ==> text[..|local|] == local && text[|text| - 1] == ')')
            && (local != "" ==> text[|local|..|local| + 2] == " (")
            && text[|text| - |reported| - (if local == "" then 0 else 1)..|text| - (if local == "" then 0 else 1)]
               == reported
  {
  }

  /** What the device-info chain collects before DEVICE_INFO arrives. */
  datatype DeviceInfoState = DeviceInfoState(hint: string, softwareVersion: string, deviceModel: string)

  /** The software version label is kept when the responder gave one; the
      model description is asked for next only when the catalog's hint
      says the responder supports it. */
  function GetSoftwareVersionHandler(info: DeviceInfoState, status: ResponseStatus, names: Names,
                                     softwareVersion: string, apiError: string)
    : (c: Continuation<DeviceInfoState>)
    ensures c.Continue? <==> apiError == ""
    ensures c.Continue? ==>
              && c.op == Get(if 'm' in info.hint then PID_DEVICE_MODEL_DESCRIPTION else PID_DEVICE_INFO, NoValue)
              && c.state.hint == info.hint && c.state.deviceModel == info.deviceModel
              && c.state.softwareVersion ==
                   if CheckForRDMSuccess(status, names) then softwareVersion else info.softwareVersion
  {
    var next := if CheckForRDMSuccess(status, names) then info.(softwareVersion := softwareVersion) else info;
    Then(next, Get(if 'm' in info.hint then PID_DEVICE_MODEL_DESCRIPTION else PID_DEVICE_INFO, NoValue), apiError)
  }

  /** The model description is kept when the responder gave one; DEVICE_INFO
      is asked for next. */
  function GetDeviceModelHandler(info: DeviceInfoState, status: ResponseStatus, names: Names,
                                 deviceModel: string, apiError: string)
    : (c: Continuation<DeviceInfoState>)
    ensures c.Continue? <==> apiError == ""
    ensures c.Continue? ==>
              && c.op == Get(PID_DEVICE_INFO, NoValue)
              && c.state.hint == info.hint && c.state.softwareVersion == info.softwareVersion
              && c.state.deviceModel == if CheckForRDMSuccess(status, names) then deviceModel else info.deviceModel
  {
    var next := if CheckForRDMSuccess(status, names) then info.(deviceModel := deviceModel) else info;
    Then(next, Get(PID_DEVICE_INFO, NoValue), apiError)
  }

  /** The eight items of the device info page. */
  function DeviceInfoItems(info: DeviceInfoState, names: Names, device: DeviceDescriptor): (items: seq<Item>)
    ensures |items| == 8
    ensures items[1] == StringItem("Device Model", Composite(info.deviceModel, NatToString(device.deviceModel)), "")
    ensures items[3] == StringItem("Software Version", Composite(info.softwareVersion, NatToString(device.softwareVersion)), "")
  {
    [
        StringItem("Protocol Version",
                   NatToString(device.protocolVersionHigh) + "." + NatToString(device.protocolVersionLow), ""),
        StringItem("Device Model", Composite(info.deviceModel, NatToString(device.deviceModel)), ""),
        StringItem("Product Category", names.productCategory(device.productCategory), ""),
        StringItem("Software Version", Composite(info.softwareVersion, NatToString(device.softwareVersion)), ""),
        UIntItem("DMX Footprint", device.dmxFootprint, "", None, None),
        StringItem("Personality",
                   NatToString(device.currentPersonality) + " of " + NatToString(device.personalityCount), ""),
        UIntItem("Sub Devices", device.subDeviceCount, "", None, None),
        UIntItem("Sensors", device.sensorCount, "", None, None)
      ]
  }

  /** The device info page: eight items, the model and the software
      version each shown as the responder's text beside the number DEVICE_INFO
      carries. */
  function GetDeviceInfoHandler(info: DeviceInfoState, status: ResponseStatus, names: Names,
                                device: DeviceDescriptor)
    : (reply: HttpReply)
    ensures reply.SectionJson? <==> CheckForRDMSuccess(status, names)
    ensures !reply.SectionJson? ==> Some(reply) == CheckForRDMError(status, names)
    ensures reply.SectionJson? ==>
              && |reply.section.items| == 8
              && reply.section.items[1] ==
                   StringItem("Device Model", Composite(info.deviceModel, NatToString(device.deviceModel)), "")
              && reply.section.items[3] ==
                   StringItem("Software Version", Composite(info.softwareVersion, NatToString(device.softwareVersion)), "")
  {
    SectionOrError(status, names, DeviceInfoItems(info, names, device))
  }

  /** The whole device-info chain, every request sent: the model text is
      asked for, and shown, only with the hint's 'm'; a failed text request
      leaves the plain number. */
  lemma {:induction false} DeviceInfoChain(hint: string, names: Names,
                                           versionStatus: ResponseStatus, softwareVersion: string,
                                           modelStatus: ResponseStatus, deviceModel: string,
                                           status: ResponseStatus, device: DeviceDescriptor)
    requires CheckForRDMSuccess(status, names)
    ensures var c1 := GetSoftwareVersionHandler(DeviceInfoState(hint, "", ""), versionStatus, names, softwareVersion, "");
            var c2 := if 'm' in hint then GetDeviceModelHandler(c1.state, modelStatus, names, deviceModel, "") else c1;
            var reply := GetDeviceInfoHandler(c2.state, status, names, device);
            && c2.op == Get(PID_DEVICE_INFO, NoValue)
            && reply.SectionJson?
            && reply.section.items[1] ==
                 StringItem("Device Model",
                            Composite(if 'm' in hint && CheckForRDMSuccess(modelStatus, names) then deviceModel else "",
                                      NatToString(device.deviceModel)), "")
            && reply.section.items[3] ==
                 StringItem("Software Version",
                            Composite(if CheckForRDMSuccess(versionStatus, names) then softwareVersion else "",
                                      NatToString(device.softwareVersion)), "")
  {
    var c1 := GetSoftwareVersionHandler(DeviceInfoState(hint, "", ""), versionStatus, names, softwareVersion, "");
    assert c1.state.deviceModel == "";
    if 'm' in hint {
      var c2 := GetDeviceModelHandler(c1.state, modelStatus, names, deviceModel, "");
      assert c2.state.softwareVersion == c1.state.softwareVersion;
    }
  }

  /** The boot software label is passed on whatever its status; the
      version is asked for next. */
  function GetBootSoftwareLabelHandler(status: ResponseStatus, versionLabel: string, apiError: string)
    : (c: Continuation<string>)
    ensures c.Continue? <==> apiError == ""
    ensures c.Continue? ==> c.state == versionLabel && c.op == Get(PID_BOOT_SOFTWARE_VERSION_ID, NoValue)
  {
    Then(versionLabel, Get(PID_BOOT_SOFTWARE_VERSION_ID, NoValue), apiError)
  }

  /** The boot software page is never an error: the version is shown like
      the device info's texts, beside the label, when it arrived; otherwise
      the label alone. */
  function GetBootSoftwareVersionHandler(versionLabel: string, status: ResponseStatus, names: Names, version: nat)
    : (reply: HttpReply)
    ensures reply.SectionJson? && |reply.section.items| == 1
    ensures reply.section.items[0].StringItem?
    ensures CheckForRDMSuccess(status, names) ==>
              reply.section.items[0].text == Composite(versionLabel, NatToString(version))
    ensures !CheckForRDMSuccess(status, names) ==> reply.section.items[0].text == versionLabel
  {
    var text := versionLabel + if CheckForRDMSuccess(status, names)
                        then (if versionLabel != "" then " (" + NatToString(version) + ")" else NatToString(version))
                        else "";
    SectionJson(JsonSection([StringItem("Boot Software", text, "")], ""))
  }

  // ---------------------------------------------------------------------
  // Product detail ids

  /** The names of the product details a responder lists, in order,
      leaving out the ids without a name. */
  function ProductNames(ids: seq<nat>, names: Names): (parts: seq<string>)
    ensures forall k :: 0 <= k < |parts| ==> parts[k] != ""
    ensures |parts| <= |ids|
    ensures forall p :: p in parts <==> p != "" && exists k :: 0 <= k < |ids| && names.productDetail(ids[k]) == p
  {
    if ids == [] then []
    else
      var rest := ProductNames(ids[1..], names);
      if names.productDetail(ids[0]) == "" then rest else [names.productDetail(ids[0])] + rest
  }

  /** `sep` before each part. */
  function Prefixed(sep: string, parts: seq<string>): string {
    if parts == [] then "" else sep + parts[0] + Prefixed(sep, parts[1..])
  }

  /** The parts with `sep` between neighbours. */
  function Join(sep: string, parts: seq<string>): string {
    if parts == [] then "" else parts[0] + Prefixed(sep, parts[1..])
  }

  /** The product detail page: the named product details of the responder,
      comma separated, with nothing for an unnamed id and no stray comma. */
  method GetProductIdsHandler(status: ResponseStatus, names: Names, ids: seq<nat>) returns (reply: HttpReply)
    ensures reply.SectionJson? <==> CheckForRDMSuccess(status, names)
    ensures !reply.SectionJson? ==> Some(reply) == CheckForRDMError(status, names)
    ensures reply.SectionJson? ==>
              reply.section == JsonSection([StringItem("Product Detail IDs", Join(", ", ProductNames(ids, names)), "")], "")
  {
    var error := CheckForRDMError(status, names);
    if error.Some? {
      return error.value;
    }
    var first := true;
    var productIds := "";
    var i := 0;
    while i < |ids|
      invariant 0 <= i <= |ids|
      invariant first ==> productIds == ""
      invariant Join(", ", ProductNames(ids, names)) == productIds + Pending(first, ProductNames(ids[i..], names))
    {
      var productId := names.productDetail(ids[i]);
      ProductNamesStep(ids, names, i);
      if productId != "" {
        PendingStep(first, productId, ProductNames(ids[i + 1..], names), productIds);
        if first {
          first := false;
        } else {
          productIds := productIds + ", ";
        }
        productIds := productIds + productId;
      }
      i := i + 1;
    }
    assert ProductNames(ids[i..], names) == [];
    assert productIds + "" == productIds;
    reply := SectionJson(JsonSection([StringItem("Product Detail IDs", productIds, "")], ""));
  }

  /** The text still to come: the remaining names joined, after a separator
      once something has been written. */
  function Pending(first: bool, parts: seq<string>): string {
    if first then Join(", ", parts) else Prefixed(", ", parts)
  }

  /** Writing one more name, after a separator unless it is the first. */
  lemma PendingStep(first: bool, name: string, rest: seq<string>, written: string)
    ensures written + Pending(first, [name] + rest) ==
              written + (if first then "" else ", ") + name + Pending(false, rest)
  {
    assert ([name] + rest)[0] == name && ([name] + rest)[1..] == rest;
  }

  /** The names from position `i` on: the name of `ids[i]`, if it has one,
      before those from `i + 1`. */
  lemma ProductNamesStep(ids: seq<nat>, names: Names, i: nat)
    requires i < |ids|
    ensures ProductNames(ids[i..], names) ==
              (if names.productDetail(ids[i]) == "" then [] else [names.productDetail(ids[i])])
              + ProductNames(ids[i + 1..], names)
  {
    assert ids[i..][1..] == ids[i + 1..];
  }

  /** The names follow the order of the ids: the names of a list are
      those of its first part followed by those of the rest. */
  lemma {:induction false} ProductNamesConcat(a: seq<nat>, b: seq<nat>, names: Names)
    ensures ProductNames(a + b, names) == ProductNames(a, names) + ProductNames(b, names)
  {
    if a != [] {
      var rest := ProductNames(a[1..] + b, names);
      assert (a + b)[1..] == a[1..] + b;
      ProductNamesConcat(a[1..], b, names);
      assert rest == ProductNames(a[1..], names) + ProductNames(b, names);
    } else {
      assert a + b == b;
    }
  }

  /** One id gives its name, or nothing when it has none. */
  lemma ProductNamesSingle(id: nat, names: Names)
    ensures ProductNames([id], names) == if names.productDetail(id) == "" then [] else [names.productDetail(id)]
  {
    assert [id][1..] == [];
  }

  /** The joined text is empty exactly when no listed id has a name. */
  lemma JoinEmpty(ids: seq<nat>, names: Names)
    ensures Join(", ", ProductNames(ids, names)) == "" <==> forall k :: 0 <= k < |ids| ==> names.productDetail(ids[k]) == ""
  {
    var parts := ProductNames(ids, names);
    if parts != [] {
      assert |Join(", ", parts)| >= |parts[0]| > 0;
      assert parts[0] in parts;
    }
  }

  // ---------------------------------------------------------------------
  // Language

  /** The language list is passed on whatever its status; the current
      language is asked for next. */
  function GetSupportedLanguagesHandler(status: ResponseStatus, languages: seq<string>, apiError: string)
    : (c: Continuation<seq<string>>)
    ensures c.Continue? <==> apiError == ""
    ensures c.Continue? ==> c.state == languages && c.op == Get(PID_LANGUAGE, NoValue)
  {
    Then(languages, Get(PID_LANGUAGE, NoValue), apiError)
  }

  /** The last position of `x` in `s`. */
  function LastIndexOf(s: seq<string>, x: string): (r: Option<nat>)
    ensures r.None? <==> x !in s
    ensures r.Some? ==> r.value < |s| && s[r.value] == x
    ensures r.Some? ==> forall j :: r.value < j < |s| ==> s[j] != x
  {
    if s == [] then None
    else if s[|s| - 1] == x then Some(|s| - 1)
    else
      var r := LastIndexOf(s[..|s| - 1], x);
      assert s == s[..|s| - 1] + [s[|s| - 1]];
      r
  }

  /** The language selector: the supported languages, the current one
      selected where it occurs (the last occurrence), or the current one
      as the only choice when none are listed. */
  function LanguageSelect(languages: seq<string>, ok: bool, language: string): (item: Item)
    ensures item.SelectItem? && item.field == LANGUAGE_FIELD
    ensures item.options == if ok && languages == [] then [language] else languages
    ensures item.selected.Some? <==> ok && (languages == [] || language in languages)
    ensures item.selected.Some? ==> item.selected.value < |item.options| && item.options[item.selected.value] == language
    ensures item.selected.Some? ==> forall j :: item.selected.value < j < |item.options| ==> item.options[j] != language
  {
    if ok && languages == [] then SelectItem("Language", LANGUAGE_FIELD, [language], Some(0))
    else SelectItem("Language", LANGUAGE_FIELD, languages, if ok then LastIndexOf(languages, language) else None)
  }

  /** The handler builds the selector by walking the list once. */
  method GetLanguageHandler(languages: seq<string>, status: ResponseStatus, names: Names, language: string)
    returns (reply: HttpReply)
    ensures reply == SectionJson(JsonSection([LanguageSelect(languages, CheckForRDMSuccess(status, names), language)], ""))
  {
    var ok := CheckForRDMSuccess(status, names);
    var options: seq<string> := [];
    var selected: Option<nat> := None;
    var i := 0;
    while i < |languages|
      invariant 0 <= i <= |languages|
      invariant options == languages[..i]
      invariant selected == if ok then LastIndexOf(languages[..i], language) else None
    {
      options := options + [languages[i]];
      if ok && languages[i] == language {
        selected := Some(i);
      }
      assert languages[..i + 1][..i] == languages[..i];
      i := i + 1;
    }
    assert languages[..i] == languages;
    if ok && |languages| == 0 {
      options := options + [language];
      selected := Some(0);
    }
    assert SelectItem("Language", LANGUAGE_FIELD, options, selected) == LanguageSelect(languages, ok, language);
    reply := SectionJson(JsonSection([SelectItem("Language", LANGUAGE_FIELD, options, selected)], ""));
  }

  // ---------------------------------------------------------------------
  // Sensors

  /** The definition is kept only when it arrived; the sensor's value is
      asked for next. */
  function SensorDefinitionHandler(sensor: nat, status: ResponseStatus, names: Names,
                                   definition: SensorDescriptor, apiError: string)
    : (c: Continuation<Option<SensorDescriptor>>)
    ensures c.Continue? <==> apiError == ""
    ensures c.Continue? ==> c.op == Get(PID_SENSOR_VALUE, Number(sensor))
    ensures c.Continue? ==> (c.state == Some(definition) <==> CheckForRDMSuccess(status, names))
    ensures c.Continue? ==> (c.state.None? <==> !CheckForRDMSuccess(status, names))
  {
    Then(if CheckForRDMSuccess(status, names) then Some(definition) else None,
         Get(PID_SENSOR_VALUE, Number(sensor)), apiError)
  }

  /** A reading followed by the definition's prefix and unit. */
  function Scaled(reading: string, d: SensorDescriptor, names: Names): string {
    reading + " " + names.prefix(d.prefix) + " " + names.unit(d.unit)
  }

  function Span(low: int, high: int): string {
    IntToString(low) + " - " + IntToString(high)
  }

  /** The items of a sensor page, with the two recorded-value items as the
      flags say. */
  function SensorItems(d: SensorDescriptor, value: SensorValueDescriptor, names: Names,
                       showRecorded: bool, showRange: bool)
    : seq<Item>
  {
    var present := Scaled(IntToString(value.presentValue), d, names);
    [ StringItem("Description", d.description, ""),
      StringItem("Type", names.sensorType(d.sensorType), ""),
      StringItem("Range", Scaled(Span(d.rangeMin, d.rangeMax), d, names), ""),
      StringItem("Normal Range", Scaled(Span(d.normalMin, d.normalMax), d, names), "") ]
    + (if showRecorded then [StringItem("Recorded Value", Scaled(IntToString(value.recorded), d, names), "")] else [])
    + (if showRange then [StringItem("Min / Max Recorded Values", Scaled(Span(value.lowest, value.highest), d, names), "")]
       else [])
    + [StringItem("Present Value", present, "")]
    + (if d.recordedValueSupport != 0 then [HiddenItem(RECORD_SENSOR_FIELD, present)] else [])
  }

  /** An item's description; a hidden item has none. */
  function Describe(item: Item): string {
    if item.HiddenItem? then "" else item.description
  }

  /** The descriptions of a page's items. */
  function Descriptions(items: seq<Item>): (r: seq<string>)
    ensures |r| == |items|
  {
    seq(|items|, k requires 0 <= k < |items| => Describe(items[k]))
  }

  lemma DescriptionsConcat(a: seq<Item>, b: seq<Item>)
    ensures Descriptions(a + b) == Descriptions(a) + Descriptions(b)
  {
    assert forall k :: 0 <= k < |a| + |b| ==> Descriptions(a + b)[k] == (Descriptions(a) + Descriptions(b))[k];
  }

  lemma DescriptionsSingle(x: Item)
    ensures Descriptions([x]) == [Describe(x)]
  {
  }

  const RECORD_SENSOR_BUTTON: string := "Record Sensor"

  /** The sensor page as written: each recorded-value item is guarded by
      the support field AND-ed logically with its bit constant, which is
      true for any nonzero support field. */
  function SensorValueHandlerAsWritten(definition: Option<SensorDescriptor>, status: ResponseStatus, names: Names,
                                       value: SensorValueDescriptor)
    : (reply: HttpReply)
    requires CheckForRDMSuccess(status, names) ==> definition.Some?
    ensures reply.SectionJson? <==> CheckForRDMSuccess(status, names)
    ensures !reply.SectionJson? ==> Some(reply) == CheckForRDMError(status, names)
    ensures reply.SectionJson? ==>
              var d := definition.value;
              reply.section == JsonSection(SensorItems(d, value, names, d.recordedValueSupport != 0 && SENSOR_RECORDED_VALUE != 0,
                                                       d.recordedValueSupport != 0 && SENSOR_RECORDED_RANGE_VALUES != 0),
                                           RECORD_SENSOR_BUTTON)
  {
    match CheckForRDMError(status, names)
    case Some(error) => error
    case None =>
      var d := definition.value;
      SectionJson(JsonSection(SensorItems(d, value, names, d.recordedValueSupport != 0, d.recordedValueSupport != 0),
                              RECORD_SENSOR_BUTTON))
  }

  /** Whether bit `mask`, one of the two recorded-value bits, is set in
      `field`. */
  predicate HasBit(field: nat, mask: nat)
    requires mask == SENSOR_RECORDED_VALUE || mask == SENSOR_RECORDED_RANGE_VALUES
  {
    if mask == 1 then field % 2 == 1 else field % 4 >= 2
  }

  /** The sensor page: the recorded value is shown when the sensor records
      values, the recorded extremes when it records ranges, and a record
      field is sent back for a sensor that records anything. A failed
      value read is an error page. */
  function SensorValueHandler(definition: Option<SensorDescriptor>, status: ResponseStatus, names: Names,
                              value: SensorValueDescriptor)
    : (reply: HttpReply)
    requires CheckForRDMSuccess(status, names) ==> definition.Some?
    ensures reply.SectionJson? <==> CheckForRDMSuccess(status, names)
    ensures !reply.SectionJson? ==> Some(reply) == CheckForRDMError(status, names)
    ensures reply.SectionJson? ==>
              reply.section.items == SensorItems(definition.value, value, names,
                                                 HasBit(definition.value.recordedValueSupport, SENSOR_RECORDED_VALUE),
                                                 HasBit(definition.value.recordedValueSupport, SENSOR_RECORDED_RANGE_VALUES))
    ensures reply.SectionJson? ==>
              && reply.section.saveButton == RECORD_SENSOR_BUTTON
              && ("Recorded Value" in Descriptions(reply.section.items) <==>
                    HasBit(definition.value.recordedValueSupport, SENSOR_RECORDED_VALUE))
              && ("Min / Max Recorded Values" in Descriptions(reply.section.items) <==>
                    HasBit(definition.value.recordedValueSupport, SENSOR_RECORDED_RANGE_VALUES))
              && ((HiddenItem(RECORD_SENSOR_FIELD, Scaled(IntToString(value.presentValue), definition.value, names))
                     in reply.section.items) <==> definition.value.recordedValueSupport != 0)
  {
    match CheckForRDMError(status, names)
    case Some(error) => error
    case None =>
      var d := definition.value;
      var items := SensorItems(d, value, names, HasBit(d.recordedValueSupport, SENSOR_RECORDED_VALUE),
                               HasBit(d.recordedValueSupport, SENSOR_RECORDED_RANGE_VALUES));
      SensorItemsLabels(d, value, names, HasBit(d.recordedValueSupport, SENSOR_RECORDED_VALUE),
                        HasBit(d.recordedValueSupport, SENSOR_RECORDED_RANGE_VALUES));
      SensorLabelsShown(HasBit(d.recordedValueSupport, SENSOR_RECORDED_VALUE),
                        HasBit(d.recordedValueSupport, SENSOR_RECORDED_RANGE_VALUES), d.recordedValueSupport != 0);
      SensorItemsRecordable(d, value, names, HasBit(d.recordedValueSupport, SENSOR_RECORDED_VALUE),
                            HasBit(d.recordedValueSupport, SENSOR_RECORDED_RANGE_VALUES));
      SectionJson(JsonSection(items, RECORD_SENSOR_BUTTON))
  }

  /** The descriptions a sensor page shows, in order. */
  function SensorLabels(showRecorded: bool, showRange: bool, recordable: bool): seq<string> {
    ["Description", "Type", "Range", "Normal Range"]
    + (if showRecorded then ["Recorded Value"] else [])
    + (if showRange then ["Min / Max Recorded Values"] else [])
    + ["Present Value"]
    + (if recordable then [""] else [])
  }

  lemma {:induction false} SensorItemsLabels(d: SensorDescriptor, value: SensorValueDescriptor, names: Names,
                                             showRecorded: bool, showRange: bool)
    ensures Descriptions(SensorItems(d, value, names, showRecorded, showRange)) ==
              SensorLabels(showRecorded, showRange, d.recordedValueSupport != 0)
  {
    var present := Scaled(IntToString(value.presentValue), d, names);
    var i1 := StringItem("Description", d.description, "");
    var i2 := StringItem("Type", names.sensorType(d.sensorType), "");
    var i3 := StringItem("Range", Scaled(Span(d.rangeMin, d.rangeMax), d, names), "");
    var i4 := StringItem("Normal Range", Scaled(Span(d.normalMin, d.normalMax), d, names), "");
    var rec: seq<Item> := if showRecorded then [StringItem("Recorded Value", Scaled(IntToString(value.recorded), d, names), "")] else [];
    var rng: seq<Item> := if showRange then [StringItem("Min / Max Recorded Values", Scaled(Span(value.lowest, value.highest), d, names), "")] else [];
    var pv := StringItem("Present Value", present, "");
    var hid: seq<Item> := if d.recordedValueSupport != 0 then [HiddenItem(RECORD_SENSOR_FIELD, present)] else [];
    var fixed := [i1, i2, i3, i4];
    assert SensorItems(d, value, names, showRecorded, showRange) == fixed + rec + rng + [pv] + hid;
    assert Descriptions(fixed) == ["Description", "Type", "Range", "Normal Range"];
    assert Descriptions(rec) == if showRecorded then ["Recorded Value"] else [];
    assert Descriptions(rng) == if showRange then ["Min / Max Recorded Values"] else [];
    DescriptionsSingle(pv);
    assert Descriptions(hid) == if d.recordedValueSupport != 0 then [""] else [];
    DescriptionsConcat(fixed, rec);
    DescriptionsConcat(fixed + rec, rng);
    DescriptionsConcat(fixed + rec + rng, [pv]);
    DescriptionsConcat(fixed + rec + rng + [pv], hid);
  }

  /** Each optional description is on the page exactly when its flag is. */
  lemma {:induction false} SensorLabelsShown(showRecorded: bool, showRange: bool, recordable: bool)
    ensures "Recorded Value" in SensorLabels(showRecorded, showRange, recordable) <==> showRecorded
    ensures "Min / Max Recorded Values" in SensorLabels(showRecorded, showRange, recordable) <==> showRange
  {
    var labels := SensorLabels(showRecorded, showRange, recordable);
    forall k | 0 <= k < |labels|
      ensures |labels[k]| == 14 <==> showRecorded && k == 4
      ensures |labels[k]| == 25 <==> showRange && k == 4 + (if showRecorded then 1 else 0)
    {
    }
  }

  /** The record field is on the page exactly when the sensor records
      anything. */
  lemma {:induction false} SensorItemsRecordable(d: SensorDescriptor, value: SensorValueDescriptor, names: Names,
                                                 showRecorded: bool, showRange: bool)
    ensures (HiddenItem(RECORD_SENSOR_FIELD, Scaled(IntToString(value.presentValue), d, names))
               in SensorItems(d, value, names, showRecorded, showRange)) <==> d.recordedValueSupport != 0
  {
    var items := SensorItems(d, value, names, showRecorded, showRange);
    if d.recordedValueSupport != 0 {
      assert items[|items| - 1] == HiddenItem(RECORD_SENSOR_FIELD, Scaled(IntToString(value.presentValue), d, names));
    } else {
      assert forall k :: 0 <= k < |items| ==> items[k].StringItem?;
    }
  }

  /** A sensor that records ranges but not values (support field 2) gets a
      "Recorded Value" item from the code as written, which the bit test
      of `SensorValueHandler` leaves out. */
  lemma SensorFlagFinding(d: SensorDescriptor, status: ResponseStatus, names: Names, value: SensorValueDescriptor)
    requires CheckForRDMSuccess(status, names) && d.recordedValueSupport == 2
    ensures "Recorded Value" in Descriptions(SensorValueHandlerAsWritten(Some(d), status, names, value).section.items)
    ensures !HasBit(d.recordedValueSupport, SENSOR_RECORDED_VALUE)
  {
    var written := SensorValueHandlerAsWritten(Some(d), status, names, value);
    assert written.section.items == SensorItems(d, value, names, true, true);
    SensorItemsLabels(d, value, names, true, true);
    SensorLabelsShown(true, true, true);
  }

  // ---------------------------------------------------------------------
  // Single-value pages

  /** A page of one item, or the classifier's error reply. */
  function SectionOrError(status: ResponseStatus, names: Names, items: seq<Item>): (reply: HttpReply)
    ensures reply.SectionJson? <==> CheckForRDMSuccess(status, names)
    ensures !reply.SectionJson? ==> Some(reply) == CheckForRDMError(status, names)
    ensures reply.SectionJson? ==> reply.section == JsonSection(items, "")
  {
    match CheckForRDMError(status, names)
    case Some(error) => error
    case None => SectionJson(JsonSection(items, ""))
  }

  /** The start address, editable within the 512 slots of a universe. */
  function GetStartAddressHandler(status: ResponseStatus, names: Names, address: nat): (reply: HttpReply)
    ensures reply.SectionJson? <==> CheckForRDMSuccess(status, names)
    ensures !reply.SectionJson? ==> Some(reply) == CheckForRDMError(status, names)
    ensures reply.SectionJson? ==> reply.section.saveButton == ""
    ensures reply.SectionJson? ==>
              reply.section.items == [UIntItem("DMX Start Address", address, ADDRESS_FIELD, Some(0), Some(DMX_UNIVERSE_SIZE - 1))]
  {
    SectionOrError(status, names, [UIntItem("DMX Start Address", address, ADDRESS_FIELD, Some(0), Some(DMX_UNIVERSE_SIZE - 1))])
  }

  /** The device hours, editable. */
  function DeviceHoursHandler(status: ResponseStatus, names: Names, hours: nat): (reply: HttpReply)
    ensures reply.SectionJson? <==> CheckForRDMSuccess(status, names)
    ensures !reply.SectionJson? ==> Some(reply) == CheckForRDMError(status, names)
    ensures reply.SectionJson? ==> reply.section.saveButton == ""
    ensures reply.SectionJson? ==> reply.section.items == [UIntItem("Device Hours", hours, HOURS_FIELD, None, None)]
  {
    SectionOrError(status, names, [UIntItem("Device Hours", hours, HOURS_FIELD, None, None)])
  }

  /** The lamp hours, editable through the same field as the device hours. */
  function LampHoursHandler(status: ResponseStatus, names: Names, hours: nat): (reply: HttpReply)
    ensures reply.SectionJson? <==> CheckForRDMSuccess(status, names)
    ensures !reply.SectionJson? ==> Some(reply) == CheckForRDMError(status, names)
    ensures reply.SectionJson? ==> reply.section.saveButton == ""
    ensures reply.SectionJson? ==> reply.section.items == [UIntItem("Lamp Hours", hours, HOURS_FIELD, None, None)]
  {
    SectionOrError(status, names, [UIntItem("Lamp Hours", hours, HOURS_FIELD, None, None)])
  }

  /** The identify mode, a switch. */
  function GetIdentifyModeHandler(status: ResponseStatus, names: Names, mode: bool): (reply: HttpReply)
    ensures reply.SectionJson? <==> CheckForRDMSuccess(status, names)
    ensures !reply.SectionJson? ==> Some(reply) == CheckForRDMError(status, names)
    ensures reply.SectionJson? ==> reply.section.saveButton == ""
    ensures reply.SectionJson? ==> reply.section.items == [BoolItem("Identify Mode", mode, IDENTIFY_FIELD)]
  {
    SectionOrError(status, names, [BoolItem("Identify Mode", mode, IDENTIFY_FIELD)])
  }

  /** Switching identify back through its field: "1" turns it on, and any
      other text, the empty one included, turns it off. */
  lemma {:induction false} SaveIdentify(params: map<string, string>, on: bool)
    requires on <==> Param(params, IDENTIFY_FIELD) == "1"
    ensures SetStage(Identify, params) == Some(Start(Set(PID_IDENTIFY_DEVICE, Flag(on))))
    ensures GetStage(Identify, params) == Start(Get(PID_IDENTIFY_DEVICE, NoValue))
  {
  }

  // ---------------------------------------------------------------------
  // The catalog's entries and the pages they open

  /** An entry the intended pid pass puts in the catalog opens a page that
      reads the pid which put it there (the language page, which first asks
      for the supported languages, aside). */
  lemma CatalogEntryOpensItsPage(pid: nat, params: map<string, string>, uidOf: string -> Option<Uid>)
    requires PidSectionCorrected(pid) != [] && pid != PID_LANGUAGE
    requires CheckForInvalidId(params).Some? && CheckForInvalidUid(params, uidOf).Some?
    requires Param(params, SECTION_KEY) == IdText(PidSectionCorrected(pid)[0].id)
    ensures JsonSectionInfo(params, uidOf, "") ==
              Sent(Call(CheckForInvalidId(params).value, CheckForInvalidUid(params, uidOf).value, Get(pid, NoValue)))
  {
    ParseIdText(PidSectionCorrected(pid)[0].id);
  }

  /** As written, the catalog's "Lamp Hours" entry opens the device-hours
      page: displaying it reads PID_DEVICE_HOURS, not PID_LAMP_HOURS. */
  lemma LampHoursFinding(params: map<string, string>, uidOf: string -> Option<Uid>)
    requires CheckForInvalidId(params).Some? && CheckForInvalidUid(params, uidOf).Some?
    requires Param(params, SECTION_KEY) == IdText(PidSection(PID_LAMP_HOURS)[0].id)
    ensures PidSection(PID_LAMP_HOURS)[0].name == "Lamp Hours"
    ensures JsonSectionInfo(params, uidOf, "") ==
              Sent(Call(CheckForInvalidId(params).value, CheckForInvalidUid(params, uidOf).value,
                        Get(PID_DEVICE_HOURS, NoValue)))
    ensures PID_DEVICE_HOURS != PID_LAMP_HOURS
  {
    ParseIdText(DeviceHours);
  }
}

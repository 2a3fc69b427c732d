/** What the gateway hands back to the HTTP layer, as abstract values instead
    of JSON text: the labelled items of a section, the section catalog and
    the UID listing, and the four ways a reply is served. */
module Replies {
  import opened Support
  import opened Rdm

  /** One labelled item of a section. `field` is the name of the request
      parameter that carries an edited value back ("" when read-only). */
  datatype Item =
    | StringItem(description: string, text: string, field: string)
    | UIntItem(description: string, number: nat, field: string, min: Option<nat>, max: Option<nat>)
    | BoolItem(description: string, flag: bool, field: string)
    | SelectItem(description: string, field: string, options: seq<string>, selected: Option<nat>)
    | HiddenItem(field: string, text: string)

  /** A section as rendered for the control panel; `saveButton` is "" when
      the section has none. */
  datatype JsonSection = JsonSection(items: seq<Item>, saveButton: string)

  /** The pages of the control panel, named by the section ids of the
      requests. */
  datatype SectionId =
    | BootSoftware | DeviceHours | DeviceInfo | DeviceLabel | DmxAddress | Identify
    | LampHours | Language | ManufacturerLabel | ProductDetail | Sensor

  /** The id text a section goes by in requests and in the catalog. */
  function IdText(id: SectionId): string {
    match id
    case BootSoftware => "boot_software"
    case DeviceHours => "device_hours"
    case DeviceInfo => "device_info"
    case DeviceLabel => "device_label"
    case DmxAddress => "dmx_address"
    case Identify => "identify"
    case LampHours => "lamp_hours"
    case Language => "language"
    case ManufacturerLabel => "manufacturer_label"
    case ProductDetail => "product_detail"
    case Sensor => "sensor"
  }

  /** The section a requested id names, if any. */
  function ParseSectionId(text: string): (r: Option<SectionId>)
    ensures r.Some? ==> IdText(r.value) == text
  {
    if text == "boot_software" then Some(BootSoftware)
    else if text == "device_hours" then Some(DeviceHours)
    else if text == "device_info" then Some(DeviceInfo)
    else if text == "device_label" then Some(DeviceLabel)
    else if text == "dmx_address" then Some(DmxAddress)
    else if text == "identify" then Some(Identify)
    else if text == "lamp_hours" then Some(LampHours)
    else if text == "language" then Some(Language)
    else if text == "manufacturer_label" then Some(ManufacturerLabel)
    else if text == "product_detail" then Some(ProductDetail)
    else if text == "sensor" then Some(Sensor)
    else None
  }

  /** Every section id reads back as itself, so no two sections share an id
      text. */
  lemma ParseIdText(id: SectionId)
    ensures ParseSectionId(IdText(id)) == Some(id)
  {
  }

  /** An entry of the supported-sections list. */
  datatype SectionInfo = SectionInfo(id: SectionId, name: string, hint: string)

  /** An entry of the UID listing: the UID and the labels known for it. */
  datatype UidRow = UidRow(uid: Uid, device: string, manufacturer: string)

  datatype HttpReply =
    | NotFound                                   // ServeNotFound
    | ServerError(message: string)               // ServeError
    | ErrorJson(error: string)                   // RespondWithError; "" acknowledges a set
    | SectionJson(section: JsonSection)          // RespondWithSection
    | SectionList(sections: seq<SectionInfo>)    // the supported-sections list
    | UidList(universe: nat, rows: seq<UidRow>)  // the UID listing

  // Request parameters: the keys a request is addressed by, and the fields
  // an edited value comes back in.
  const HINT_KEY: string := "hint"
  const ID_KEY: string := "id"
  const SECTION_KEY: string := "section"
  const UID_KEY: string := "uid"
  const ADDRESS_FIELD: string := "address"
  const HOURS_FIELD: string := "hours"
  const IDENTIFY_FIELD: string := "identify"
  const LABEL_FIELD: string := "label"
  const LANGUAGE_FIELD: string := "language"
  const RECORD_SENSOR_FIELD: string := "record"

  const BACKEND_DISCONNECTED_ERROR: string := "Failed to send request, client isn't connected"
}

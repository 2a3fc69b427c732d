/** The RDM (ANSI E1.20) values the gateway receives from the RDM API: device
    identifiers, the status of a completed transaction and the payloads of
    the replies it interprets. */
module Rdm {
  import opened Support

  /** A device identifier: a 16-bit manufacturer id and a 32-bit device id,
      ordered numerically, manufacturer first. */
  datatype Uid = Uid(manufacturerId: nat, deviceId: nat)

  predicate UidLess(a: Uid, b: Uid) {
    a.manufacturerId < b.manufacturerId
    || (a.manufacturerId == b.manufacturerId && a.deviceId < b.deviceId)
  }

  /** A UID set iterates in ascending order without repetition. */
  predicate Ascending(uids: seq<Uid>) {
    forall i, j :: 0 <= i < j < |uids| ==> UidLess(uids[i], uids[j])
  }

  /** The kind of a completed transaction. The gateway casts it to `int` to
      report a value outside the five it knows, so `OtherType` keeps that
      integer. */
  datatype ResponseType =
    | TransportError
    | BroadcastRequest
    | RequestNacked
    | MalformedResponse
    | ValidResponse
    | OtherType(code: int)

  /** `ResponseStatus`: the kind, the transport's error detail and the NACK
      reason code. */
  datatype ResponseStatus = ResponseStatus(responseType: ResponseType, error: string, nackReason: nat)

  /** The `*ToString` lookup tables of the RDM helper library, which are not
      part of this model: each one is some total function from a code to its
      text. */
  datatype Names = Names(
    nackReason: nat -> string,
    productCategory: nat -> string,
    productDetail: nat -> string,
    sensorType: nat -> string,
    prefix: nat -> string,
    unit: nat -> string)

  /** The DEVICE_INFO reply. `deviceModel` and `softwareVersion` are the
      numeric ids the device reports. */
  datatype DeviceDescriptor = DeviceDescriptor(
    protocolVersionHigh: nat,
    protocolVersionLow: nat,
    deviceModel: nat,
    productCategory: nat,
    softwareVersion: nat,
    dmxFootprint: nat,
    currentPersonality: nat,
    personalityCount: nat,
    dmxStartAddress: nat,
    subDeviceCount: nat,
    sensorCount: nat)

  /** The SENSOR_DEFINITION reply. */
  datatype SensorDescriptor = SensorDescriptor(
    sensorNumber: nat,
    sensorType: nat,
    unit: nat,
    prefix: nat,
    rangeMin: int,
    rangeMax: int,
    normalMin: int,
    normalMax: int,
    recordedValueSupport: nat,
    description: string)

  /** The SENSOR_VALUE reply. */
  datatype SensorValueDescriptor = SensorValueDescriptor(
    sensorNumber: nat,
    presentValue: int,
    lowest: int,
    highest: int,
    recorded: int)

  // Parameter ids, table A-3 of ANSI E1.20.
  const PID_SUPPORTED_PARAMETERS: nat := 0x0050
  const PID_DEVICE_INFO: nat := 0x0060
  const PID_PRODUCT_DETAIL_ID_LIST: nat := 0x0070
  const PID_DEVICE_MODEL_DESCRIPTION: nat := 0x0080
  const PID_MANUFACTURER_LABEL: nat := 0x0081
  const PID_DEVICE_LABEL: nat := 0x0082
  const PID_LANGUAGE_CAPABILITIES: nat := 0x00A0
  const PID_LANGUAGE: nat := 0x00B0
  const PID_SOFTWARE_VERSION_LABEL: nat := 0x00C0
  const PID_BOOT_SOFTWARE_VERSION_ID: nat := 0x00C1
  const PID_BOOT_SOFTWARE_VERSION_LABEL: nat := 0x00C2
  const PID_DMX_START_ADDRESS: nat := 0x00F0
  const PID_SENSOR_DEFINITION: nat := 0x0200
  const PID_SENSOR_VALUE: nat := 0x0201
  const PID_RECORD_SENSORS: nat := 0x0202
  const PID_DEVICE_HOURS: nat := 0x0400
  const PID_LAMP_HOURS: nat := 0x0401
  const PID_IDENTIFY_DEVICE: nat := 0x1000

  // Bits of the recorded-value-support field of a sensor definition.
  const SENSOR_RECORDED_VALUE: nat := 0x01
  const SENSOR_RECORDED_RANGE_VALUES: nat := 0x02

  const DMX_UNIVERSE_SIZE: nat := 512
}

/**
 * The device records the gateway classifies. Their own layouts are not part
 * of this model: a device carries its common header, and a light or a plug
 * additionally carries its first property element, as JSON.
 */
module Devices {
  import opened Wrappers
  import opened JavaLang
  import opened Json

  /** The device information block; only the model name takes part in classification. */
  datatype DeviceInfo = DeviceInfo(modelName: Option<string>)

  datatype LightProperties = LightProperties(raw: Json)
  datatype PlugProperties = PlugProperties(raw: Json)

  /** The decoded payload of `DEVICES/<id>`; the property arrays are null when absent. */
  datatype DeviceResponse = DeviceResponse(
    name: Option<string>,
    creationDate: Option<Int64>,
    instanceId: Option<Int32>,
    deviceInfo: Option<DeviceInfo>,
    lightProperties: Option<seq<LightProperties>>,
    plugProperties: Option<seq<PlugProperties>>)

  /** What every device is built from. */
  datatype Header = Header(
    name: Option<string>,
    creationDate: Option<Int64>,
    instanceId: Option<Int32>,
    deviceInfo: Option<DeviceInfo>)

  datatype Device =
    | Light(header: Header, light: LightProperties)
    | Plug(header: Header, plug: PlugProperties)
    | Remote(header: Header)
    | MotionSensor(header: Header)
    | Generic(header: Header)

  function HeaderOf(r: DeviceResponse): (h: Header)
    ensures h.name == r.name && h.creationDate == r.creationDate
    ensures h.instanceId == r.instanceId && h.deviceInfo == r.deviceInfo
  {
    Header(r.name, r.creationDate, r.instanceId, r.deviceInfo)
  }
}

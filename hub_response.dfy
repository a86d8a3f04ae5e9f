/**
 * The payloads the vendor cloud returns, as records. Every field the platform
 * never inspects is kept only as passthrough data; the sensor sub-records are
 * reduced to the firmware version string.
 */
module HubResponse {
  import opened Wrappers

  /** The device's attribute block; every field may be missing. */
  datatype Attributes = Attributes(
    roomc: Option<string>,
    speedc: Option<string>,
    fanc: Option<string>,
    resetc: Option<string>)

  /** The part of the sensor block that the accessory reads (its firmware version). */
  datatype Sensors = Sensors(versionc: string)

  /** One diffuser ("hub"): its opaque hash, serial number and attributes. */
  datatype Hub = Hub(
    hublot: string,
    hash: string,
    status: int,
    title: Option<string>,
    currentTime: string,
    pingUpdate: string,
    attributes: Attributes,
    sensors: Option<Sensors>)

  /** The `{ hub: ... }` envelope of the hub-list elements and of the state reply; `hub` may be null. */
  datatype HubEnvelope = HubEnvelope(hub: Option<Hub>)

  /** The body of the login reply; `account_hash` may be null. */
  datatype LoginResponse = LoginResponse(accountHash: Option<string>)
}

/** The discovery and sync responses produced by the IoTConnect C library's
    parsers (IOTCL_DiscoveryParseDiscoveryResponse, IOTCL_DiscoveryParseSyncResponse).
    The parsers live in a library that is not part of this model; only the
    fields the core reads are kept. */
module Sync {

  /** The `ds` discriminator of a sync response. */
  datatype SyncStatus =
    | Ok
    | DeviceNotRegistered
    | AutoRegister
    | DeviceNotFound
    | DeviceInactive
    | DeviceMoved
    | CpidNotFound
    | UnknownDeviceStatus
    | AllocationError
    | ParsingError

  /** The broker part of a sync response. */
  datatype Broker = Broker(
    host: string,
    clientId: string,
    userName: string,
    pass: string,
    pubTopic: string,
    subTopic: string)

  datatype SyncResponse = SyncResponse(ds: SyncStatus, cpid: string, dtg: string, broker: Broker)

  /** The first-stage answer: where the sync endpoint lives. */
  datatype DiscoveryResponse = DiscoveryResponse(url: string, host: string, path: string)
}

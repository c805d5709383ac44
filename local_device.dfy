/**
 * The renderer's self-description: its identity, device type, details and the
 * three services it exposes, each bound to its service manager.
 */
module LocalDeviceModel {
  /** A UPnP unique device name, built from the stored identifier text. */
  datatype Udn = Udn(uuid: string)

  /** A UDA device type: its type name and version. */
  datatype DeviceType = DeviceType(typeName: string, version: nat)

  /** The two stateful service categories: each has a control table and a LastChange. */
  datatype Category = Transport | Rendering

  datatype ServiceKind = ConnectionManager | AVTransport | RenderingControl

  /**
   * How a service's instances are made. A last-change-aware manager carries
   * the category of its event parser, of the LastChange it is given and of
   * the control table it is given.
   */
  datatype ServiceManager =
    | DefaultManager
    | LastChangeAwareManager(parser: Category, lastChange: Category, controls: Category)

  datatype LocalService = LocalService(kind: ServiceKind, manager: ServiceManager)

  /** The category a stateful service kind belongs to. */
  function CategoryOf(kind: ServiceKind): (c: Category)
    requires kind != ConnectionManager
    ensures c == Transport <==> kind == AVTransport
  {
    if kind == AVTransport then Transport else Rendering
  }

  function GenerateLocalServices(): (services: seq<LocalService>)
    // connection manager, AV transport, rendering control, in that order
    ensures |services| == 3
    ensures services[0].kind == ConnectionManager
    ensures services[1].kind == AVTransport
    ensures services[2].kind == RenderingControl
    // only the stateful services are last-change aware, and each is bound
    // to the parser, LastChange and control table of its own category
    ensures forall i :: 0 <= i < |services| ==>
              (services[i].manager.LastChangeAwareManager? <==> services[i].kind != ConnectionManager)
    ensures forall i :: 0 <= i < |services| && services[i].manager.LastChangeAwareManager? ==>
              var c := CategoryOf(services[i].kind);
              services[i].manager == LastChangeAwareManager(c, c, c)
  {
    [ LocalService(ConnectionManager, DefaultManager),
      LocalService(AVTransport, LastChangeAwareManager(Transport, Transport, Transport)),
      LocalService(RenderingControl, LastChangeAwareManager(Rendering, Rendering, Rendering)) ]
  }

  datatype LocalDevice = LocalDevice(
    udn: Udn,
    deviceType: DeviceType,
    friendlyName: string,
    manufacturer: string,
    modelName: string,
    modelDescription: string,
    modelNumber: string,
    services: seq<LocalService>)

  /** The descriptor the renderer builds when construction succeeds. */
  function DescribeLocalDevice(udn: Udn, manufacturer: string): (d: LocalDevice)
    ensures d.udn == udn && d.manufacturer == manufacturer
    ensures d.deviceType == DeviceType("MediaRenderer", 1)
    ensures d.services == GenerateLocalServices()
    ensures d.friendlyName == "DLNA Media Player"
    ensures d.modelName == "Media Player" && d.modelDescription == "DLNA" && d.modelNumber == "v1"
  {
    LocalDevice(udn, DeviceType("MediaRenderer", 1), "DLNA Media Player", manufacturer,
                "Media Player", "DLNA", "v1", GenerateLocalServices())
  }
}

/**
 * The renderer service's own bookkeeping: the listener's update throttle, the
 * control tables, the persisted device identifier and the registration of the
 * local device in the shared registry.
 */
module Renderer {
  import opened Wrappers
  import opened RemoteDeviceThrottle
  import opened ControlTables
  import opened DeviceIdentity
  import opened LocalDeviceModel

  class RendererService {
    /** The preference key under which the device identifier is stored. */
    const deviceIdKey: string
    /** The platform's manufacturer string, placed in the device details. */
    const manufacturer: string

    /** The registry listener's table: descriptor URL to last surfaced update time. */
    var remoteDevices: Table
    /** Every "remote device updated" notification received so far. */
    ghost var remoteUpdates: seq<Update>

    var avTransportControls: map<InstanceId, AVTransportControl>
    var audioControls: map<InstanceId, AudioControl>

    /** The preference store. */
    var preferences: Preferences
    /** The local devices of the shared registry, by device name. */
    var registry: map<Udn, LocalDevice>
    /** The local device the service holds (`null` in `DLNARendererService` when None). */
    var localDevice: Option<LocalDevice>

    ghost predicate Valid()
      reads this
    {
      && remoteDevices == Replay(map[], remoteUpdates)
      && (forall id :: id in avTransportControls ==> avTransportControls[id].instanceId == id)
      && (forall id :: id in audioControls ==> audioControls[id].instanceId == id)
      && (forall u :: u in registry ==> registry[u].udn == u)
    }

    constructor (deviceIdKey: string, manufacturer: string, preferences: Preferences,
                 registry: map<Udn, LocalDevice>)
      requires forall u :: u in registry ==> registry[u].udn == u
      ensures Valid()
      ensures this.deviceIdKey == deviceIdKey && this.manufacturer == manufacturer
      ensures remoteDevices == map[] && remoteUpdates == []
      ensures avTransportControls == map[] && audioControls == map[]
      ensures this.preferences == preferences && this.registry == registry
      ensures localDevice == None
    {
      this.deviceIdKey := deviceIdKey;
      this.manufacturer := manufacturer;
      remoteDevices := map[];
      remoteUpdates := [];
      avTransportControls := map[];
      audioControls := map[];
      this.preferences := preferences;
      this.registry := registry;
      localDevice := None;
    }

    /**
     * A remote device re-announced itself at clock reading `now`. Returns
     * whether the notification is surfaced.
     */
    method RemoteDeviceUpdated(url: Url, now: Long) returns (surfaced: bool)
      requires Valid()
      modifies this`remoteDevices, this`remoteUpdates
      ensures Valid()
      ensures remoteUpdates == old(remoteUpdates) + [Update(url, now)]
      ensures remoteDevices == Apply(old(remoteDevices), Update(url, now)).table
      ensures surfaced == Apply(old(remoteDevices), Update(url, now)).surfaced
      // the reference throttle keeps this notification exactly when it is surfaced
      ensures SurfacedLog(map[], remoteUpdates) ==
                if surfaced then SurfacedLog(map[], old(remoteUpdates)) + [Update(url, now)]
                else SurfacedLog(map[], old(remoteUpdates))
    {
      ReplayStep(map[], remoteUpdates, Update(url, now));
      var value := Lookup(remoteDevices, url);
      surfaced := value.None? || LongSub(now, value.value) > QuietWindowMillis;
      if surfaced {
        remoteDevices := remoteDevices[url := now];
      }
      remoteUpdates := remoteUpdates + [Update(url, now)];
    }

    /** Reads the stored device identifier, persisting `generated` when none is stored. */
    method GetLocalDeviceUdn(generated: string) returns (udn: Udn)
      modifies this`preferences
      ensures udn == Udn(GetOrCreate(old(preferences), deviceIdKey, generated).id)
      ensures preferences == GetOrCreate(old(preferences), deviceIdKey, generated).preferences
    {
      var uuid := if deviceIdKey in preferences then preferences[deviceIdKey] else generated;
      if deviceIdKey !in preferences {
        preferences := preferences[deviceIdKey := uuid];
      }
      udn := Udn(uuid);
    }

    /**
     * Builds the local device descriptor; None when construction throws
     * (`fails`: the icon or the descriptor's validation failed).
     */
    method CreateLocalDevice(generated: string, fails: bool) returns (device: Option<LocalDevice>)
      modifies this`preferences
      ensures preferences == GetOrCreate(old(preferences), deviceIdKey, generated).preferences
      ensures fails <==> device.None?
      ensures !fails ==>
                device == Some(DescribeLocalDevice(Udn(GetOrCreate(old(preferences), deviceIdKey, generated).id), manufacturer))
    {
      var udn := GetLocalDeviceUdn(generated);
      if fails {
        device := None;
      } else {
        device := Some(DescribeLocalDevice(udn, manufacturer));
      }
    }

    /**
     * Startup. `firstId` and `secondId` are the random identifiers drawn by
     * the two identifier reads; `buildFails` says whether constructing the
     * descriptor throws, `addFails` whether the registry refuses it.
     */
    method OnCreate(firstId: string, secondId: string, buildFails: bool, addFails: bool)
      requires Valid()
      modifies this`avTransportControls, this`audioControls, this`preferences, this`registry, this`localDevice
      ensures Valid()
      ensures avTransportControls.Keys == {0} && audioControls.Keys == {0}
      ensures preferences == GetOrCreate(old(preferences), deviceIdKey, firstId).preferences
      ensures var udn := Udn(GetOrCreate(old(preferences), deviceIdKey, firstId).id);
              // an already registered device is taken over, never replaced
              && (udn in old(registry) ==> localDevice == Some(old(registry)[udn]) && registry == old(registry))
              // a failed construction leaves the service without a device
              && (udn !in old(registry) && buildFails ==> localDevice == None && registry == old(registry))
              // otherwise the new device is held, and registered unless the registry refuses it
              && (udn !in old(registry) && !buildFails ==>
                    && localDevice == Some(DescribeLocalDevice(udn, manufacturer))
                    && registry == if addFails then old(registry) else old(registry)[udn := localDevice.value])
    {
      avTransportControls := BuildAVTransportControls();
      audioControls := BuildAudioControls();

      var udn := GetLocalDeviceUdn(firstId);
      localDevice := if udn in registry then Some(registry[udn]) else None;

      if localDevice == None {
        var created := CreateLocalDevice(secondId, buildFails);
        if created.Some? {
          localDevice := created;
          if !addFails {
            registry := registry[created.value.udn := created.value];
          }
        }
      }
    }

    /** Shutdown: removes the held device from the registry, if one is held. */
    method OnDestroy()
      requires Valid()
      modifies this`registry
      ensures Valid()
      ensures localDevice.Some? ==> registry == old(registry) - {localDevice.value.udn}
      ensures localDevice.None? ==> registry == old(registry)
    {
      if localDevice.Some? {
        registry := registry - {localDevice.value.udn};
      }
    }

    /** The transport control for an instance id; None for an unknown id. */
    function AVTransportControlFor(id: InstanceId): (r: Option<AVTransportControl>)
      reads this
      requires Valid()
      ensures r.Some? <==> id in avTransportControls
      ensures r.Some? ==> r.value.instanceId == id
    {
      if id in avTransportControls then Some(avTransportControls[id]) else None
    }

    /** The audio control for an instance id; None for an unknown id. */
    function AudioControlFor(id: InstanceId): (r: Option<AudioControl>)
      reads this
      requires Valid()
      ensures r.Some? <==> id in audioControls
      ensures r.Some? ==> r.value.instanceId == id
    {
      if id in audioControls then Some(audioControls[id]) else None
    }
  }

  /**
   * A client of the service: start it twice on an empty registry, then stop
   * it. The second startup finds the device the first one registered, so the
   * registry keeps exactly one entry, and stopping empties it.
   */
  method StartTwiceThenStop(deviceIdKey: string, manufacturer: string, preferences: Preferences,
                            ids: seq<string>)
    returns (afterFirst: map<Udn, LocalDevice>, afterSecond: map<Udn, LocalDevice>,
             afterStop: map<Udn, LocalDevice>)
    requires |ids| == 4
    ensures |afterFirst| == 1
    ensures afterSecond == afterFirst
    ensures afterStop == map[]
  {
    var service := new RendererService(deviceIdKey, manufacturer, preferences, map[]);
    service.OnCreate(ids[0], ids[1], false, false);
    afterFirst := service.registry;
    ghost var udn := Udn(GetOrCreate(preferences, deviceIdKey, ids[0]).id);
    assert afterFirst.Keys == {udn};
    service.OnCreate(ids[2], ids[3], false, false);
    afterSecond := service.registry;
    service.OnDestroy();
    afterStop := service.registry;
  }
}

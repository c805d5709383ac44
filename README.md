# DLNA renderer service: a Dafny model of its bookkeeping

This project models the state that `DLNARendererService`, the Android service hosting a UPnP
MediaRenderer, keeps for itself. It has four parts:

- **Remote-device update throttle.** The registry listener keeps a table from a peer's
  descriptor URL to the time of the last "updated" notification it surfaced. A notification
  is surfaced, and the table is rewritten, only when the URL is new or when more than
  30 000 ms have passed since the last surfaced notification for that URL
  (`RemoteDeviceThrottle`). The clock reading is an input and need not be monotonic.
  The subtraction `now - value` is Java `long` arithmetic, so it is modelled with 64-bit
  wrap-around (`LongSub`).
- **Control-instance tables.** At startup the service builds two tables, transport controls
  and audio controls, for the instance ids `0 .. 1-1`. Each handler is stored under its own
  instance id (`ControlTables`). A lookup of an unknown id gives `None`.
- **Persistent device identifier.** The service reads the identifier stored under a fixed
  preference key. If the key is absent, it persists a freshly generated identifier and
  returns it (`DeviceIdentity`).
- **Local-device lifecycle.** On startup the service registers a newly built
  MediaRenderer:1 descriptor only when the registry has no local device under its
  identifier. A construction failure leaves it without a device. On shutdown it removes
  the held device, if it holds one (`LocalDeviceModel`, `Renderer.RendererService`).

`Renderer.RendererService` is a class holding the fields the model keeps: the throttle table,
the two control tables, the held local device and two constants. The shared registry's local
devices and the preference store are also fields, of type `map`. Its methods change those
fields as `DLNARendererService` does. The ghost field `remoteUpdates` records every
notification received. `Valid()` ties the throttle table to `Replay` of that history. The
lemmas in `RemoteDeviceThrottle` then relate the table to an independent reference
definition, `SurfacedLog`: the subsequence of notifications that are surfaced.

Two details of the throttle:

- The comparison at `DLNARendererService.java:100` is strict (`> 30 * 1000`), so an update
  exactly 30 000 ms after the last surfaced one is suppressed (`RemoteDeviceThrottle.Apply`).
- The clock is `SystemClock.currentThreadTimeMillis()`, the calling thread's CPU time. It is
  neither wall time nor shared between threads, so the model takes the reading as a
  parameter and assumes nothing about how it advances.

Inputs that stand for I/O, randomness or the platform:

- `now`, the clock reading.
- `generated` / `firstId` / `secondId`, the random UUID text drawn on each identifier read.
- `buildFails`, whether descriptor construction throws.
- `addFails`, whether the registry refuses the device.
- `manufacturer`, the platform manufacturer string.
- `deviceIdKey`, the preference key. `Key.DEVICE_ID` comes from
  `com.android.cast.dlna.dms.Constants` (imported at `DLNARendererService.java:15`), which is
  not part of this model. The `core_renderer` class `Constants.Key` is a different class.

## Model

| member | source | states |
|---|---|---|
| `RemoteDeviceThrottle.LongSub` | dlna-dmr/src/main/java/com/android/cast/dlna/dms/DLNARendererService.java:96-100 | the `long` difference is the exact difference when it fits in 64 bits and otherwise differs from it by 2^64 |
| `RemoteDeviceThrottle.Apply` | dlna-dmr/src/main/java/com/android/cast/dlna/dms/DLNARendererService.java:95-105 | a first update for a URL is surfaced and its time recorded; without overflow, a later one is surfaced iff more than 30 000 ms elapsed (exactly 30 000 is suppressed); a suppressed update leaves the table unchanged; keys only grow, other URLs' entries never change |
| `RemoteDeviceThrottle.ReplayRecordsLastSurfaced` | dlna-dmr/src/main/java/com/android/cast/dlna/dms/DLNARendererService.java:98-103 | after any sequence of notifications, each URL's entry is the time of the last SURFACED notification for it (per the reference log), not the last one seen |
| `RemoteDeviceThrottle.ReplayStep` | dlna-dmr/src/main/java/com/android/cast/dlna/dms/DLNARendererService.java:95-105 | one more notification advances the table by `Apply` and extends the reference log exactly when `Apply` surfaces it |
| `RemoteDeviceThrottle.SurfacedLogIsSpaced` | dlna-dmr/src/main/java/com/android/cast/dlna/dms/DLNARendererService.java:100-103 | every surfaced notification is the first for its URL or comes more than the window after the previous surfaced one for that URL |
| `RemoteDeviceThrottle.SurfacedLogIsSubsequence` | dlna-dmr/src/main/java/com/android/cast/dlna/dms/DLNARendererService.java:98-104 | the surfaced notifications are a subsequence of the received ones, in order: the k-th surfaced one is the notification at the k-th of a strictly increasing list of positions |
| `RemoteDeviceThrottle.ReplayKeys` | dlna-dmr/src/main/java/com/android/cast/dlna/dms/DLNARendererService.java:82-103 | the table's key set is the starting keys plus every URL ever notified: it grows and is never pruned |
| `RemoteDeviceThrottle.ReplayLeavesOtherUrls` | dlna-dmr/src/main/java/com/android/cast/dlna/dms/DLNARendererService.java:98-103 | notifications for other URLs never change a URL's entry, or its absence |
| `Renderer.RendererService.RemoteDeviceUpdated` | dlna-dmr/src/main/java/com/android/cast/dlna/dms/DLNARendererService.java:95-105 | the table is rewritten in place as `Apply` says, the result says whether the notification was surfaced, and the reference log gains this notification exactly when it is surfaced |
| `ControlTables.BuildAVTransportControls` | dlna-dmr/src/main/java/com/android/cast/dlna/dms/DLNARendererService.java:132-138 | the transport table has exactly the key set {0} (the ids below the instance count), each handler stored under its own instance id |
| `ControlTables.BuildAudioControls` | dlna-dmr/src/main/java/com/android/cast/dlna/dms/DLNARendererService.java:140-146 | the audio table has exactly the key set {0}, each handler stored under its own instance id |
| `Renderer.RendererService.AVTransportControlFor` | dlna-dmr/src/main/java/com/android/cast/dlna/dms/DLNARendererService.java:132-138 | a lookup gives a handler iff the id is a key, and that handler's instance id is the id; an unknown id gives an explicit None |
| `Renderer.RendererService.AudioControlFor` | dlna-dmr/src/main/java/com/android/cast/dlna/dms/DLNARendererService.java:140-146 | a lookup gives a handler iff the id is a key, and that handler's instance id is the id; an unknown id gives None |
| `DeviceIdentity.GetOrCreate` | dlna-dmr/src/main/java/com/android/cast/dlna/dms/DLNARendererService.java:222-229 | a stored id is returned with the store unchanged; an absent one is replaced by the generated id, which is persisted and returned; afterwards the store holds the returned id |
| `DeviceIdentity.StoredIdIsStable` | dlna-dmr/src/main/java/com/android/cast/dlna/dms/DLNARendererService.java:222-229 | once an id is stored, every later call returns it, whatever is generated |
| `DeviceIdentity.RepeatedCallsAgree` | dlna-dmr/src/main/java/com/android/cast/dlna/dms/DLNARendererService.java:222-229 | any number of repeated calls all return the id of the first call |
| `Renderer.RendererService.GetLocalDeviceUdn` | dlna-dmr/src/main/java/com/android/cast/dlna/dms/DLNARendererService.java:222-229 | the store and the returned device name are those of `GetOrCreate` on the old store |
| `LocalDeviceModel.GenerateLocalServices` | dlna-dmr/src/main/java/com/android/cast/dlna/dms/DLNARendererService.java:242-281 | three services in the order connection manager, AV transport, rendering control; only the two stateful ones are last-change aware, each bound to the parser, LastChange and control table of its own category |
| `LocalDeviceModel.DescribeLocalDevice` | dlna-dmr/src/main/java/com/android/cast/dlna/dms/DLNARendererService.java:214-220 | the descriptor carries the given device name and manufacturer, type MediaRenderer version 1, and the generated services |
| `Renderer.RendererService.CreateLocalDevice` | dlna-dmr/src/main/java/com/android/cast/dlna/dms/DLNARendererService.java:214-220 | the identifier is read (and persisted if absent) first; the result is None iff construction fails, else the descriptor under the stored identifier |
| `Renderer.RendererService.OnCreate` | dlna-dmr/src/main/java/com/android/cast/dlna/dms/DLNARendererService.java:132-167 | both control tables are {0} with matching ids; an already registered device is taken over and the registry left alone (never two registrations); a failed construction leaves no device and the registry unchanged; otherwise the new device, built under the same identifier, is held and registered unless the registry refuses it |
| `Renderer.RendererService.OnDestroy` | dlna-dmr/src/main/java/com/android/cast/dlna/dms/DLNARendererService.java:205-212 | the held device's entry is removed only when a device is held, and nothing else in the registry changes |
| `Renderer.StartTwiceThenStop` | dlna-dmr/src/main/java/com/android/cast/dlna/dms/DLNARendererService.java:155-167 | starting twice on an empty registry leaves exactly one registered entry, the second startup changes nothing, and stopping afterwards empties the registry |
| `Renderer.RendererService.constructor` | dlna-dmr/src/main/java/com/android/cast/dlna/dms/DLNARendererService.java:69-82 | a new service has an empty throttle table, empty control tables and no local device |

## Left out

- Android service lifecycle: the notification and foreground service, `KeepLiveInnerService`,
  `onStartCommand`/`START_STICKY`, `onBind`/`onUnbind`/`onRebind`, the binder and
  `startService`. These are platform plumbing.
- The UPnP stack itself: the registry's internals, `createConfiguration`'s 60 s alive
  interval, `addListener`, `LocalServiceBinder.read` and the service-manager subclasses. These
  are library calls. Only the services' order and bindings are kept.
- `deviceAdded`, `deviceRemoved` and the loop over pre-existing devices at startup. They only log.
- Icon generation (`generateDeviceIcon`). It is bitmap and PNG I/O. Its failure is one source
  of `buildFails`, and the descriptor carries no icon.
- `LastChange` aggregation and flushing, the transport and audio control implementations,
  and `CastMediaControlListener` with `registerControlBridge`/`unregisterControlBridge`.
  Their code is not part of this model, so handlers are opaque records carrying their
  instance id.
- `getLocalDevice` and `getAVTransportControls` are plain field reads. The `localDevice` and
  `avTransportControls` fields model them.
- `getAvTransportLastChange` and `getAudioControlLastChange` are left out with `LastChange`.
  So are the fields `mLogger`, `mBinder`, `mCastControlListener` and the two `LastChange`
  fields: the class has no counterpart for them.
- `UUID.fromString` parsing of the stored text. `Udn` wraps the text as stored. So a
  malformed stored identifier, which throws in `DLNARendererService`, is not modelled. Neither
  is the canonical lower-case form that `new UDN(UUID.fromString(uuid))` carries, so a valid
  upper-case stored identifier gives a different UDN text there than here.
- `Url` stands for a descriptor URL up to `java.net.URL` equality, the key equality of the
  throttle's `Map<URL, Long>`. That equality ignores case in protocol and host, treats an
  omitted port as the default port, and compares hosts after a blocking name lookup. It is
  not modelled: two URL texts that `java.net.URL` would treat as equal get two entries here.
- Logging, and `SharedPreferences` beyond a map from string to string. The asynchronous
  `apply()` is treated as an immediate write.
- Concurrency (`ConcurrentHashMap`, the protocol stack's thread pool). The model is sequential.
- The control tables are `null` until `onCreate` in `DLNARendererService`. The model starts
  them empty, so a lookup before startup gives `None` where the Java code would throw.

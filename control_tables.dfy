/**
 * The two control-instance tables the renderer builds at startup: transport
 * controls and audio (rendering) controls, each keyed by transport instance id.
 * A handler is opaque here apart from the instance id it was built with.
 */
module ControlTables {
  import opened Wrappers

  /** A UPnP `ui4`, Cling's `UnsignedIntegerFourBytes`. */
  type InstanceId = x: int | 0 <= x < 0x1_0000_0000

  /** Number of transport instances provisioned (the loops run `i < 1`). */
  const InstanceCount: InstanceId := 1

  datatype AVTransportControl = AVTransportControl(instanceId: InstanceId)
  datatype AudioControl = AudioControl(instanceId: InstanceId)

  /** Builds one transport control per provisioned instance, each under its own id. */
  method BuildAVTransportControls() returns (controls: map<InstanceId, AVTransportControl>)
    ensures forall id: InstanceId :: id in controls <==> id < InstanceCount
    ensures controls.Keys == {0}
    ensures forall id :: id in controls ==> controls[id].instanceId == id
  {
    controls := map[];
    for i := 0 to InstanceCount
      invariant forall id: InstanceId :: id in controls <==> id < i
      invariant forall id :: id in controls ==> controls[id].instanceId == id
    {
      var control := AVTransportControl(i);
      controls := controls[control.instanceId := control];
    }
    assert 0 in controls;
  }

  /** Builds one audio control per provisioned instance, each under its own id. */
  method BuildAudioControls() returns (controls: map<InstanceId, AudioControl>)
    ensures forall id: InstanceId :: id in controls <==> id < InstanceCount
    ensures controls.Keys == {0}
    ensures forall id :: id in controls ==> controls[id].instanceId == id
  {
    controls := map[];
    for i := 0 to InstanceCount
      invariant forall id: InstanceId :: id in controls <==> id < i
      invariant forall id :: id in controls ==> controls[id].instanceId == id
    {
      var control := AudioControl(i);
      controls := controls[control.instanceId := control];
    }
    assert 0 in controls;
  }
}

/**
 * The persistent device identifier: read it from the preference store under a
 * fixed key, or persist a freshly generated one when the key is absent.
 */
module DeviceIdentity {
  /** The application's private preference store. */
  type Preferences = map<string, string>

  /** The identifier returned by one call, and the store after it. */
  datatype IdLookup = IdLookup(id: string, preferences: Preferences)

  /** `generated` stands for the random UUID `getLocalDeviceUDN` draws on every call. */
  function GetOrCreate(prefs: Preferences, key: string, generated: string): (r: IdLookup)
    // a stored identifier is returned and the store is left alone
    ensures key in prefs ==> r.id == prefs[key] && r.preferences == prefs
    // otherwise the generated identifier is persisted and returned
    ensures key !in prefs ==> r.id == generated && r.preferences == prefs[key := generated]
    // either way, afterwards the store holds the returned identifier
    ensures key in r.preferences && r.preferences[key] == r.id
  {
    var id := if key in prefs then prefs[key] else generated;
    IdLookup(id, if key in prefs then prefs else prefs[key := id])
  }

  /** The identifiers returned by successive calls, one generated id drawn per call. */
  function Calls(prefs: Preferences, key: string, generated: seq<string>): seq<string>
    decreases |generated|
  {
    if generated == [] then []
    else
      var r := GetOrCreate(prefs, key, generated[0]);
      [r.id] + Calls(r.preferences, key, generated[1..])
  }

  /** Once an identifier is stored, every later call returns it. */
  lemma {:induction false} StoredIdIsStable(prefs: Preferences, key: string, generated: seq<string>)
    requires key in prefs
    ensures |Calls(prefs, key, generated)| == |generated|
    ensures forall i :: 0 <= i < |generated| ==> Calls(prefs, key, generated)[i] == prefs[key]
  {
    if generated != [] {
      StoredIdIsStable(prefs, key, generated[1..]);
    }
  }

  /** Repeated calls all return the identifier of the first call, whatever is generated. */
  lemma RepeatedCallsAgree(prefs: Preferences, key: string, generated: seq<string>)
    requires generated != []
    ensures |Calls(prefs, key, generated)| == |generated|
    ensures forall i :: 0 <= i < |generated| ==>
              Calls(prefs, key, generated)[i] == GetOrCreate(prefs, key, generated[0]).id
  {
    var r := GetOrCreate(prefs, key, generated[0]);
    StoredIdIsStable(r.preferences, key, generated[1..]);
  }
}

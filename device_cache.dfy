/**
 * The in-memory part of the device cache: what is known about each
 * discovered device, keyed by device ID, and a single pending save. Reading
 * and writing the cache file are left to the caller: `Load` receives the
 * parsed device list (or None when there is no file) and a fired save
 * records the snapshot it would write.
 */
module DeviceCache {
  import opened Common
  import Device

  datatype CachedDeviceInfo = CachedDeviceInfo(id: string, model: string, protocol: string, hostname: Option<string>)

  /** The map the loading loop builds from a parsed device list. */
  function FromList(ds: seq<CachedDeviceInfo>): map<string, CachedDeviceInfo>
  {
    if ds == [] then map[] else FromList(ds[..|ds| - 1])[ds[|ds| - 1].id := ds[|ds| - 1]]
  }

  /** Loading keeps exactly the IDs in the list. */
  lemma {:induction false} FromListKeys(ds: seq<CachedDeviceInfo>, id: string)
    ensures id in FromList(ds) <==> exists i :: 0 <= i < |ds| && ds[i].id == id
  {
    if ds != [] {
      var init := ds[..|ds| - 1];
      FromListKeys(init, id);
      if id in FromList(init) {
        var i :| 0 <= i < |init| && init[i].id == id;
        assert ds[i] == init[i];
      }
      if exists i :: 0 <= i < |ds| && ds[i].id == id {
        var i :| 0 <= i < |ds| && ds[i].id == id;
        if i < |init| {
          assert init[i] == ds[i];
        }
      }
    }
  }

  /** A later entry with a duplicate ID overwrites an earlier one. */
  lemma {:induction false} FromListLastWins(ds: seq<CachedDeviceInfo>, i: nat)
    requires i < |ds|
    requires forall j | i < j < |ds| :: ds[j].id != ds[i].id
    ensures ds[i].id in FromList(ds) && FromList(ds)[ds[i].id] == ds[i]
  {
    if i < |ds| - 1 {
      var init := ds[..|ds| - 1];
      assert init[i] == ds[i];
      FromListLastWins(init, i);
    }
  }

  /** What `storeDevice` records: the hostname only for the WebSocket protocol. */
  function InfoOf(device: Device.Device): (d: CachedDeviceInfo)
    ensures d.id == device.id && d.model == device.model && d.protocol == device.protocol
    ensures d.protocol == "websocket" ==> d.hostname == device.hostname
    ensures d.protocol != "websocket" ==> d.hostname == None
  {
    CachedDeviceInfo(device.id, device.model, device.protocol,
                     if device.protocol == "websocket" then device.hostname else None)
  }

  class DeviceCache {
    var devices: map<string, CachedDeviceInfo>
    /** Whether a save is scheduled (`saveTimeout !== null`). */
    var savePending: bool
    /** The contents of every save that has run, in order. */
    var saved: seq<map<string, CachedDeviceInfo>>

    /** Every entry is stored under its own ID. */
    predicate Valid()
      reads this`devices
    {
      forall id | id in devices :: devices[id].id == id
    }

    constructor ()
      ensures Valid()
      ensures devices == map[] && !savePending && saved == []
    {
      devices, savePending, saved := map[], false, [];
    }

    /** `get(id)`. */
    function Get(id: string): (r: Option<CachedDeviceInfo>)
      reads this`devices
      ensures r.Some? <==> id in devices
      ensures r.Some? ==> r.value == devices[id]
      ensures Valid() && r.Some? ==> r.value.id == id
    {
      if id in devices then Some(devices[id]) else None
    }

    /** `saveDelayed()`: replaces any scheduled save with a new one; at most one is ever pending. */
    method SaveDelayed()
      modifies this`savePending
      ensures savePending
    {
      savePending := true;
    }

    /** The scheduled save running: writes the current contents. */
    method FireSave()
      modifies this`savePending, this`saved
      ensures !savePending
      ensures old(savePending) ==> saved == old(saved) + [devices]
      ensures !old(savePending) ==> saved == old(saved)
    {
      if savePending {
        savePending := false;
        saved := saved + [devices];
      }
    }

    /** `set(d, autoSave)`: stores `d` under its ID, replacing any entry, and schedules a save when asked. */
    method Set(d: CachedDeviceInfo, autoSave: bool)
      modifies this`devices, this`savePending
      ensures old(Valid()) ==> Valid()
      ensures devices == old(devices)[d.id := d]
      ensures Get(d.id) == Some(d)
      ensures forall id | id != d.id :: Get(id) == old(Get(id))
      ensures autoSave ==> savePending
      ensures !autoSave ==> savePending == old(savePending)
    {
      devices := devices[d.id := d];
      if autoSave {
        SaveDelayed();
      }
    }

    /** `storeDevice(device, autoSave)`. */
    method StoreDevice(device: Device.Device, autoSave: bool)
      modifies this`devices, this`savePending
      ensures old(Valid()) ==> Valid()
      ensures devices == old(devices)[device.id := InfoOf(device)]
      ensures autoSave ==> savePending
      ensures !autoSave ==> savePending == old(savePending)
    {
      Set(InfoOf(device), autoSave);
    }

    /** `delete(id, autoSave)`: removes only `id`. */
    method Delete(id: string, autoSave: bool)
      modifies this`devices, this`savePending
      ensures old(Valid()) ==> Valid()
      ensures devices == old(devices) - {id}
      ensures Get(id) == None
      ensures forall other | other != id :: Get(other) == old(Get(other))
      ensures autoSave ==> savePending
      ensures !autoSave ==> savePending == old(savePending)
    {
      devices := devices - {id};
      if autoSave {
        SaveDelayed();
      }
    }

    /**
     * `load()`: forgets every entry, then, when the file exists, stores each
     * listed device, later duplicates overwriting earlier ones.
     */
    method Load(file: Option<seq<CachedDeviceInfo>>)
      modifies this`devices
      ensures Valid()
      ensures file.None? ==> devices == map[]
      ensures file.Some? ==> devices == FromList(file.value)
    {
      devices := map[];
      if file.None? {
        return;
      }
      var ds := file.value;
      for k := 0 to |ds|
        invariant devices == FromList(ds[..k])
        invariant Valid()
      {
        devices := devices[ds[k].id := ds[k]];
        assert ds[..k + 1][..k] == ds[..k];
      }
      assert ds[..|ds|] == ds;
    }
  }
}

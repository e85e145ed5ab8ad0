/**
 * The game's settings object, src/systems/configs/gameConfig.js.
 *
 * A property is read and written by name, as `this[property]` does.  Nineteen
 * of the defaulted properties are accessor pairs whose setter stores the
 * value and then dispatches `'<name>Changed'` with it; the three camera
 * follow offsets are plain data properties.  `Object.assign(this, defaults)`
 * writes the defaults one by one, in the order of the literal, through those
 * setters.  The config keeps its own listener registry, which appends like
 * the `EventManager` of src/systems/eventManager.js but removes only the
 * first registration of a callback.  Numbers are exact reals.
 */
module GameConfiguration {
  import opened Events

  datatype Value = Num(n: real) | Flag(b: bool)

  datatype Option<T> = None | Some(value: T)

  /** `_defaultValues`, in the order of the object literal, which is the order `Object.assign` writes them. */
  const Defaults: seq<(string, Value)> := [
    ("chunkSize", Num(2048.0)),
    ("speedMultiplier", Num(1.0)),
    ("solarSystemSeed", Num(61.0)),
    ("displayStarfield", Flag(true)),
    ("displayChunkBorders", Flag(false)),
    ("displayOrbits", Flag(true)),
    ("afterimagePassDamp", Num(0.5)),
    ("cameraFov", Num(75.0)),
    ("cameraNear", Num(0.01)),
    ("cameraFar", Num(2048.0 * 4.0)),
    ("cameraLerpSpeed", Num(0.2)),
    ("cameraFollowOffsetX", Num(0.0)),
    ("cameraFollowOffsetY", Num(0.1)),
    ("cameraFollowOffsetZ", Num(-0.2)),
    ("starfieldDensity", Num(10000.0)),
    ("starfieldColor", Num(11184810.0)),        // 0xaaaaaa
    ("ambientLightColor", Num(16777215.0)),     // 0xffffff
    ("ambientLightIntensity", Num(0.05)),
    ("spacecraftMainEngineThrust", Num(500.0)),
    ("spacecraftSideEngineThrust", Num(25.0)),
    ("spacecraftBackEngineThrust", Num(1.0)),
    ("spacecraftRotationalFactor", Num(0.01))
  ]

  /** The properties with a dispatching setter. */
  const Observed: set<string> := {
    "chunkSize", "speedMultiplier", "solarSystemSeed", "displayStarfield", "displayChunkBorders",
    "displayOrbits", "afterimagePassDamp", "cameraFov", "cameraNear", "cameraFar", "starfieldDensity",
    "starfieldColor", "cameraLerpSpeed", "ambientLightColor", "ambientLightIntensity",
    "spacecraftMainEngineThrust", "spacecraftSideEngineThrust", "spacecraftBackEngineThrust",
    "spacecraftRotationalFactor"
  }

  // ---------------------------------------------------------------------------
  // Writing properties, on values
  // ---------------------------------------------------------------------------

  /** The calls `this[name] = value` makes: only an observed setter dispatches. */
  function SetCalls<Callback>(listeners: Registry<Callback>, name: string, value: Value): seq<Call<Callback, Value>> {
    if name in Observed then Emitted(listeners, name + "Changed", value) else []
  }

  /** The entries as an object: a later entry for the same name wins. */
  function ToMap(entries: seq<(string, Value)>): map<string, Value> {
    if entries == [] then map[]
    else ToMap(entries[..|entries| - 1])[entries[|entries| - 1].0 := entries[|entries| - 1].1]
  }

  /** The properties after `Object.assign(this, entries)`. */
  function Assign(values: map<string, Value>, entries: seq<(string, Value)>): map<string, Value> {
    if entries == [] then values
    else Assign(values, entries[..|entries| - 1])[entries[|entries| - 1].0 := entries[|entries| - 1].1]
  }

  /** The calls `Object.assign(this, entries)` makes, entry by entry. */
  function AssignCalls<Callback>(listeners: Registry<Callback>, entries: seq<(string, Value)>): seq<Call<Callback, Value>> {
    if entries == [] then []
    else AssignCalls(listeners, entries[..|entries| - 1])
         + SetCalls(listeners, entries[|entries| - 1].0, entries[|entries| - 1].1)
  }

  /** `listeners.indexOf(callback)`: the first position of `callback`, or -1. */
  function IndexOf<Callback(==)>(listeners: seq<Callback>, callback: Callback): (i: int)
    ensures -1 <= i < |listeners|
    ensures i == -1 <==> callback !in listeners
    ensures i >= 0 ==> listeners[i] == callback && callback !in listeners[..i]
  {
    if listeners == [] then -1
    else if listeners[0] == callback then 0
    else
      var i := IndexOf(listeners[1..], callback);
      assert i >= 0 ==> listeners[..i + 1] == [listeners[0]] + listeners[1..][..i];
      if i == -1 then -1 else i + 1
  }

  /** `splice(indexOf(callback), 1)` when the callback is registered. */
  function RemoveFirst<Callback(==)>(listeners: seq<Callback>, callback: Callback): seq<Callback> {
    var index := IndexOf(listeners, callback);
    if index > -1 then listeners[..index] + listeners[index + 1..] else listeners
  }

  function Removed<Callback(==)>(listeners: Registry<Callback>, event: string, callback: Callback): Registry<Callback> {
    if event in listeners then listeners[event := RemoveFirst(listeners[event], callback)] else listeners
  }

  // ---------------------------------------------------------------------------
  // Properties
  // ---------------------------------------------------------------------------

  /** Twenty-two defaults; the camera's far plane is 2048 * 4 = 8192. */
  lemma DefaultsFacts()
    ensures |Defaults| == 22
    ensures Defaults[9] == ("cameraFar", Num(8192.0))
  {
  }

  /** Every default but the three camera follow offsets has a dispatching setter. */
  lemma ObservedDefaults()
    ensures forall i :: 0 <= i < |Defaults| && i !in {11, 12, 13} ==> Defaults[i].0 in Observed
    ensures forall i :: 11 <= i < 14 ==> Defaults[i].0 !in Observed
  {
  }

  /** `Object.assign` overwrites exactly the assigned names, later entries winning, and keeps every other property. */
  lemma {:induction false} AssignMerges(values: map<string, Value>, entries: seq<(string, Value)>)
    ensures forall k :: k in Assign(values, entries) <==> k in values || k in ToMap(entries)
    ensures forall k :: k in ToMap(entries) ==> Assign(values, entries)[k] == ToMap(entries)[k]
    ensures forall k :: k in values && k !in ToMap(entries) ==> Assign(values, entries)[k] == values[k]
  {
    if entries != [] {
      AssignMerges(values, entries[..|entries| - 1]);
    }
  }

  /** Assigning the same entries twice is assigning them once: `resetAll` is idempotent on the properties. */
  lemma AssignTwice(values: map<string, Value>, entries: seq<(string, Value)>)
    ensures forall k :: k in Assign(Assign(values, entries), entries) <==> k in Assign(values, entries)
    ensures forall k :: k in Assign(values, entries) ==> Assign(Assign(values, entries), entries)[k] == Assign(values, entries)[k]
  {
    AssignMerges(values, entries);
    AssignMerges(Assign(values, entries), entries);
  }

  /** With nobody listening, assigning makes no calls: the constructor's `initAll` notifies no one. */
  lemma {:induction false} AssignCallsUnheard<Callback>(entries: seq<(string, Value)>)
    ensures AssignCalls<Callback>(map[], entries) == []
  {
    if entries != [] {
      AssignCallsUnheard<Callback>(entries[..|entries| - 1]);
    }
  }

  /** Only the first registration goes: the others stay, in order. */
  lemma RemoveFirstSpec<Callback>(listeners: seq<Callback>, callback: Callback)
    ensures callback !in listeners ==> RemoveFirst(listeners, callback) == listeners
    ensures callback in listeners ==> multiset(RemoveFirst(listeners, callback)) == multiset(listeners) - multiset{callback}
    ensures callback in listeners ==> |RemoveFirst(listeners, callback)| == |listeners| - 1
  {
    var i := IndexOf(listeners, callback);
    if i >= 0 {
      assert listeners == listeners[..i] + [callback] + listeners[i + 1..];
    }
  }

  /** A callback registered twice is still registered after one removal. */
  lemma RemoveOneOfTwo<Callback>(listeners: seq<Callback>, callback: Callback)
    requires multiset(listeners)[callback] >= 2
    ensures callback in RemoveFirst(listeners, callback)
  {
    RemoveFirstSpec(listeners, callback);
    assert multiset(RemoveFirst(listeners, callback))[callback] >= 1;
  }

  /** Removing a callback just added, when it was not registered before, restores the list. */
  lemma AddThenRemove<Callback>(listeners: Registry<Callback>, event: string, callback: Callback)
    requires callback !in ListenersOf(listeners, event)
    ensures ListenersOf(Removed(Subscribed(listeners, event, callback), event, callback), event) == ListenersOf(listeners, event)
  {
    var before := ListenersOf(listeners, event);
    var after := before + [callback];
    assert IndexOf(after, callback) == |before| by {
      assert after[|before|] == callback && after[..|before|] == before;
    }
    assert after[..|before|] == before;
  }

  // ---------------------------------------------------------------------------
  // The settings object
  // ---------------------------------------------------------------------------

  class GameConfig<Callback(==)> {
    var listeners: Registry<Callback>
    /** The properties by name; an observed property's value is its backing field. */
    var values: map<string, Value>

    /** An empty registry, then `initAll`, which notifies no one. */
    constructor()
      ensures listeners == map[]
      ensures values == Assign(map[], Defaults)
    {
      listeners := map[];
      values := map[];
      new;
      var calls := InitAll();
    }

    /** The getter of a property: its stored value, if any. */
    function Get(name: string): Option<Value>
      reads this
    {
      if name in values then Some(values[name]) else None
    }

    /** `this[name] = value`: an observed setter stores, then dispatches `'<name>Changed'`. */
    method SetProperty(name: string, value: Value) returns (calls: seq<Call<Callback, Value>>)
      modifies this
      ensures values == old(values)[name := value] && listeners == old(listeners)
      ensures Get(name) == Some(value)
      ensures calls == SetCalls(listeners, name, value)
    {
      values := values[name := value];
      if name in Observed {
        calls := DispatchEvent(name + "Changed", value);
      } else {
        calls := [];
      }
    }

    /** The `cameraFollowOffset` setter: three plain stores, no notification. */
    method SetCameraFollowOffset(x: real, y: real, z: real)
      modifies this
      ensures values == old(values)["cameraFollowOffsetX" := Num(x)]["cameraFollowOffsetY" := Num(y)]["cameraFollowOffsetZ" := Num(z)]
      ensures listeners == old(listeners)
    {
      var calls := SetProperty("cameraFollowOffsetX", Num(x));
      calls := SetProperty("cameraFollowOffsetY", Num(y));
      calls := SetProperty("cameraFollowOffsetZ", Num(z));
    }

    /** `Object.assign(this, entries)`: each entry through `this[name] = value`, in order. */
    method AssignAll(entries: seq<(string, Value)>) returns (calls: seq<Call<Callback, Value>>)
      modifies this
      ensures values == Assign(old(values), entries) && listeners == old(listeners)
      ensures calls == AssignCalls(listeners, entries)
    {
      calls := [];
      for i := 0 to |entries|
        invariant values == Assign(old(values), entries[..i]) && listeners == old(listeners)
        invariant calls == AssignCalls(listeners, entries[..i])
      {
        assert entries[..i + 1][..i] == entries[..i];
        var more := SetProperty(entries[i].0, entries[i].1);
        calls := calls + more;
      }
      assert entries[..|entries|] == entries;
    }

    method InitAll() returns (calls: seq<Call<Callback, Value>>)
      modifies this
      ensures values == Assign(old(values), Defaults) && listeners == old(listeners)
      ensures calls == AssignCalls(listeners, Defaults)
    {
      calls := AssignAll(Defaults);
    }

    /** `resetAll`; refreshing the settings panel afterwards is not modelled. */
    method ResetAll() returns (calls: seq<Call<Callback, Value>>)
      modifies this
      ensures values == Assign(old(values), Defaults) && listeners == old(listeners)
      ensures calls == AssignCalls(listeners, Defaults)
    {
      calls := AssignAll(Defaults);
    }

    /** `resetProperty`: a property with a default gets it back; any other name is left alone. */
    method ResetProperty(property: string) returns (calls: seq<Call<Callback, Value>>)
      modifies this
      ensures listeners == old(listeners)
      ensures property in ToMap(Defaults) ==> values == old(values)[property := ToMap(Defaults)[property]]
      ensures property in ToMap(Defaults) ==> calls == SetCalls(listeners, property, ToMap(Defaults)[property])
      ensures property !in ToMap(Defaults) ==> values == old(values) && calls == []
    {
      var defaultValues := ToMap(Defaults);
      if property in defaultValues {
        calls := SetProperty(property, defaultValues[property]);
      } else {
        calls := [];
      }
    }

    /** `addEventListener`: creates the event's list when missing, then appends. */
    method AddEventListener(event: string, callback: Callback)
      modifies this
      ensures listeners == Subscribed(old(listeners), event, callback) && values == old(values)
    {
      if event !in listeners {
        listeners := listeners[event := []];
      }
      listeners := listeners[event := listeners[event] + [callback]];
    }

    /** `removeEventListener`: nothing for an unknown event, otherwise splices out the first registration. */
    method RemoveEventListener(event: string, callback: Callback)
      modifies this
      ensures listeners == Removed(old(listeners), event, callback) && values == old(values)
    {
      if event !in listeners {
        return;
      }
      var index := IndexOf(listeners[event], callback);
      if index > -1 {
        listeners := listeners[event := listeners[event][..index] + listeners[event][index + 1..]];
      }
    }

    /** `dispatchEvent`: calls the event's callbacks in registration order with `data`. */
    method DispatchEvent(event: string, data: Value) returns (calls: seq<Call<Callback, Value>>)
      ensures calls == Emitted(listeners, event, data)
    {
      calls := [];
      if event !in listeners {
        return;
      }
      var registered := listeners[event];
      for i := 0 to |registered|
        invariant calls == CallsOf(registered[..i], data)
      {
        CallsAppend(registered[..i], registered[i], data);
        assert registered[..i + 1] == registered[..i] + [registered[i]];
        calls := calls + [Call(registered[i], data)];
      }
      assert registered[..|registered|] == registered;
    }
  }
}

/**
 * The four process-wide registries: registered warps and their open river
 * connections, data classes with the live Data instance of every key, its
 * version and its update listeners, service classes, and message classes
 * with the listeners of every message instance key.
 *
 * The weak map from a key to its Data object is a KeyMap of WeakRef
 * records whose `alive` flag stands for "not yet collected"; Collect is
 * the garbage collector reclaiming one object. The WeakMaps keyed by a
 * Data object are maps keyed by its heap handle.
 */
module Registry {
  import opened Wrappers
  import opened Unsigned
  import opened Keys
  import opened KeyCollections
  import opened JsHeap

  /** A connection to the river service; `connection` names the open socket. */
  datatype RiverClient = RiverClient(connection: nat)

  datatype WarpRegistration = WarpRegistration(name: string, warpKey: WarpKey, userKey: string)
  datatype DataClassRegistration = DataClassRegistration(classKey: ClassKey, ctor: Ctor, name: string)
  datatype ServiceClassRegistration = ServiceClassRegistration(classKey: ClassKey, ctor: Ctor, name: string)
  datatype MessageClassRegistration = MessageClassRegistration(classKey: ClassKey, ctor: Ctor, name: string)

  /** A weak reference to a Data object; a collected object is no longer alive. */
  datatype WeakRef = WeakRef(target: Handle, alive: bool)

  /** new WarpRegistration: the name and the user key must be non-empty. */
  function NewWarpRegistration(name: string, warpKey: WarpKey, userKey: string): (r: Result<WarpRegistration>)
    ensures r.Ok? <==> name != "" && userKey != ""
    ensures r.Ok? ==> r.value == WarpRegistration(name, warpKey, userKey)
    ensures r.Err? ==> r.error == Falsy(if name == "" then "name" else "userKey")
  {
    if name == "" then Err(Falsy("name"))
    else if userKey == "" then Err(Falsy("userKey"))
    else Ok(WarpRegistration(name, warpKey, userKey))
  }

  /** new DataClassRegistration (and its service and message twins): the name must be non-empty. */
  function NewDataClassRegistration(classKey: ClassKey, ctor: Ctor, name: string): (r: Result<DataClassRegistration>)
    ensures r.Ok? <==> name != ""
    ensures r.Ok? ==> r.value == DataClassRegistration(classKey, ctor, name)
  {
    if name == "" then Err(Falsy("name")) else Ok(DataClassRegistration(classKey, ctor, name))
  }

  function NewServiceClassRegistration(classKey: ClassKey, ctor: Ctor, name: string): (r: Result<ServiceClassRegistration>)
    ensures r.Ok? <==> name != ""
    ensures r.Ok? ==> r.value == ServiceClassRegistration(classKey, ctor, name)
  {
    if name == "" then Err(Falsy("name")) else Ok(ServiceClassRegistration(classKey, ctor, name))
  }

  function NewMessageClassRegistration(classKey: ClassKey, ctor: Ctor, name: string): (r: Result<MessageClassRegistration>)
    ensures r.Ok? <==> name != ""
    ensures r.Ok? ==> r.value == MessageClassRegistration(classKey, ctor, name)
  {
    if name == "" then Err(Falsy("name")) else Ok(MessageClassRegistration(classKey, ctor, name))
  }

  // ---------------------------------------------------------------------
  // Listener arrays: push appends, and removal splices out the first
  // occurrence found by indexOf.

  /** indexOf: the first position holding x, or -1. */
  function IndexOf<T(==)>(s: seq<T>, x: T): (i: int)
    ensures -1 <= i < |s|
    ensures i == -1 <==> x !in s
    ensures i >= 0 ==> s[i] == x && x !in s[..i]
  {
    if |s| == 0 then -1
    else if s[0] == x then 0
    else
      var j := IndexOf(s[1..], x);
      assert x in s[1..] ==> s[..j + 1] == [s[0]] + s[1..][..j];
      if j == -1 then -1 else j + 1
  }

  /** splice(indexOf(x), 1) when x is present. */
  function RemoveFirst<T(==)>(s: seq<T>, x: T): (r: seq<T>)
    ensures x !in s ==> r == s
    ensures x in s ==> exists i :: 0 <= i < |s| && s[i] == x && x !in s[..i] && r == s[..i] + s[i + 1..]
    ensures multiset(r) == multiset(s) - multiset{x}
  {
    var i := IndexOf(s, x);
    if i > -1 then
      assert s == s[..i] + [s[i]] + s[i + 1..];
      s[..i] + s[i + 1..]
    else s
  }

  /** Adding a listener and then removing it leaves a list without it as it was. */
  lemma AddThenRemove<T>(s: seq<T>, x: T)
    requires x !in s
    ensures RemoveFirst(s + [x], x) == s
  {
    assert (s + [x])[..|s|] == s;
    assert (s + [x])[|s|] == x;
  }

  // ---------------------------------------------------------------------

  class WarpRegistry {
    var warpIdToKey: map<string, WarpKey>
    const registrations: KeyMap<WarpRegistration>
    const riverClients: KeyMap<RiverClient>

    constructor()
      ensures warpIdToKey == map[] && fresh(registrations) && fresh(riverClients)
      ensures registrations.entries == map[] && riverClients.entries == map[]
      ensures Valid()
    {
      warpIdToKey := map[];
      registrations := new KeyMap((r: WarpRegistration) => false);
      riverClients := new KeyMap((c: RiverClient) => false);
    }

    /**
     * Each registration sits under its own key's value string, and the
     * id map names exactly the registered keys, one per warp id.
     */
    ghost predicate Valid()
      reads this, registrations, riverClients
    {
      (forall r :: !registrations.isFalsy(r)) && (forall c :: !riverClients.isFalsy(c)) &&
      (forall s :: s in registrations.entries ==>
        var k := registrations.entries[s].warpKey;
        WarpKeyValue(k) == s && Decimal(k.warpId) in warpIdToKey && warpIdToKey[Decimal(k.warpId)] == k) &&
      (forall d :: d in warpIdToKey ==>
        WarpKeyValue(warpIdToKey[d]) in registrations.entries && Decimal(warpIdToKey[d].warpId) == d)
    }

    predicate IsRegistered(warpKey: WarpKey)
      reads this, registrations
    {
      WarpKeyValue(warpKey) in registrations.entries
    }

    /** register: refuses a key registered before and any second version of a registered warp id. */
    method Register(reg: WarpRegistration) returns (r: Outcome)
      requires Valid()
      modifies this, registrations
      ensures Valid()
      ensures r.Pass? <==> !old(IsRegistered(reg.warpKey)) && Decimal(reg.warpKey.warpId) !in old(warpIdToKey)
      ensures r.Fail? ==> r.error == (if old(IsRegistered(reg.warpKey)) then AlreadyRegistered else WarpIdAlreadyRegistered)
      ensures r.Pass? ==> registrations.entries == old(registrations.entries)[WarpKeyValue(reg.warpKey) := reg]
                          && warpIdToKey == old(warpIdToKey)[Decimal(reg.warpKey.warpId) := reg.warpKey]
      ensures r.Fail? ==> registrations.entries == old(registrations.entries) && warpIdToKey == old(warpIdToKey)
      ensures r.Pass? ==> TryGetWarpKeyByWarpId(Unsigned(reg.warpKey.warpId)) == Some(reg.warpKey)
    {
      if registrations.Has(WarpKeyValue(reg.warpKey)) {
        return Fail(AlreadyRegistered);
      }
      if Decimal(reg.warpKey.warpId) in warpIdToKey {
        return Fail(WarpIdAlreadyRegistered);
      }
      registrations.Set(WarpKeyValue(reg.warpKey), reg);
      warpIdToKey := warpIdToKey[Decimal(reg.warpKey.warpId) := reg.warpKey];
      forall s | s in registrations.entries
        ensures var k := registrations.entries[s].warpKey;
                WarpKeyValue(k) == s && Decimal(k.warpId) in warpIdToKey && warpIdToKey[Decimal(k.warpId)] == k
      {
        if s != WarpKeyValue(reg.warpKey) {
          var k := registrations.entries[s].warpKey;
          if Decimal(k.warpId) == Decimal(reg.warpKey.warpId) {
            DecimalInjective(k.warpId, reg.warpKey.warpId);
            assert false;
          }
        }
      }
      r := Pass;
    }

    /** Two registered keys with the same warp id are the same key. */
    lemma OneVersionPerWarpId(k1: WarpKey, k2: WarpKey)
      requires Valid() && IsRegistered(k1) && IsRegistered(k2) && k1.warpId == k2.warpId
      ensures k1 == k2
    {
      var a := registrations.entries[WarpKeyValue(k1)].warpKey;
      var b := registrations.entries[WarpKeyValue(k2)].warpKey;
      WarpKeyValueInjective(a, k1);
      WarpKeyValueInjective(b, k2);
    }

    /** setRiverClient: only for a registered warp. */
    method SetRiverClient(warpKey: WarpKey, client: RiverClient) returns (r: Outcome)
      modifies riverClients
      ensures r.Pass? <==> IsRegistered(warpKey)
      ensures r.Fail? ==> r.error == NotRegistered && riverClients.entries == old(riverClients.entries)
      ensures r.Pass? ==> riverClients.entries == old(riverClients.entries)[WarpKeyValue(warpKey) := client]
    {
      if !IsRegistered(warpKey) {
        return Fail(NotRegistered);
      }
      riverClients.Set(WarpKeyValue(warpKey), client);
      r := Pass;
    }

    /** tryGetRiverClient: fails for an unregistered warp, otherwise the stored client if any. */
    function TryGetRiverClient(warpKey: WarpKey): (r: Result<Option<RiverClient>>)
      reads this, registrations, riverClients
      ensures r.Ok? <==> IsRegistered(warpKey)
      ensures r.Err? ==> r.error == NotRegistered
      ensures r.Ok? ==> (r.value.Some? <==> WarpKeyValue(warpKey) in riverClients.entries)
      ensures r.Ok? && r.value.Some? ==> r.value.value == riverClients.entries[WarpKeyValue(warpKey)]
    {
      if !IsRegistered(warpKey) then Err(NotRegistered)
      else Ok(riverClients.TryGet(WarpKeyValue(warpKey)))
    }

    /** clearRiverClients: every stored client is returned to be shut down, and none is kept. */
    method ClearRiverClients() returns (shut: set<RiverClient>)
      modifies riverClients
      ensures shut == old(riverClients.entries).Values
      ensures riverClients.entries == map[]
    {
      shut := riverClients.entries.Values;
      riverClients.Clear();
    }

    /** getUserKey: the registered user key; an unregistered warp fails. */
    function GetUserKey(warpKey: WarpKey): (r: Result<string>)
      requires Valid()
      reads this, registrations, riverClients
      ensures r.Ok? <==> IsRegistered(warpKey)
      ensures r.Ok? ==> r.value == registrations.entries[WarpKeyValue(warpKey)].userKey
      ensures r.Err? ==> r.error == MissingValue
    {
      match registrations.Get(WarpKeyValue(warpKey))
      case Ok(reg) => Ok(reg.userKey)
      case Err(e) => Err(e)
    }

    /** getName: the registered warp name; an unregistered warp fails. */
    function GetName(warpKey: WarpKey): (r: Result<string>)
      requires Valid()
      reads this, registrations, riverClients
      ensures r.Ok? <==> IsRegistered(warpKey)
      ensures r.Ok? ==> r.value == registrations.entries[WarpKeyValue(warpKey)].name
      ensures r.Err? ==> r.error == MissingValue
    {
      match registrations.Get(WarpKeyValue(warpKey))
      case Ok(reg) => Ok(reg.name)
      case Err(e) => Err(e)
    }

    /** tryGetWarpKeyByWarpId: the registered key of that warp id, if any, and it is registered. */
    function TryGetWarpKeyByWarpId(warpId: Unsigned): (r: Option<WarpKey>)
      reads this, registrations, riverClients
      ensures r.Some? <==> Decimal(warpId.value) in warpIdToKey
      ensures Valid() && r.Some? ==> r.value.warpId == warpId.value && IsRegistered(r.value)
    {
      var d := ToString(warpId);
      if d in warpIdToKey then
        assert Valid() ==> warpIdToKey[d].warpId == warpId.value by {
          if Valid() { DecimalInjective(warpIdToKey[d].warpId, warpId.value); }
        }
        Some(warpIdToKey[d])
      else None
    }
  }

  // ---------------------------------------------------------------------

  class DataRegistry {
    const classes: KeyMap<DataClassRegistration>
    var ctorToClassKey: map<Ctor, ClassKey>
    const objects: KeyMap<WeakRef>
    var versions: map<Handle, Unsigned>
    var objectKeys: map<Handle, DataKey>
    var updatedListeners: map<Handle, seq<ListenerId>>

    constructor()
      ensures fresh(classes) && fresh(objects)
      ensures classes.entries == map[] && objects.entries == map[] && ctorToClassKey == map[]
      ensures versions == map[] && objectKeys == map[] && updatedListeners == map[]
      ensures Valid()
    {
      classes := new KeyMap((r: DataClassRegistration) => false);
      objects := new KeyMap((w: WeakRef) => false);
      ctorToClassKey := map[];
      versions := map[];
      objectKeys := map[];
      updatedListeners := map[];
    }

    /**
     * Every registered constructor leads back to a registration of that
     * constructor, and every live instance is recorded under the key whose
     * value string indexes it.
     */
    ghost predicate Valid()
      reads this`ctorToClassKey, this`objectKeys, classes, objects
    {
      (forall r :: !classes.isFalsy(r)) && (forall w :: !objects.isFalsy(w)) &&
      (forall c :: c in ctorToClassKey ==>
        ClassKeyValue(DataClass, ctorToClassKey[c]) in classes.entries &&
        classes.entries[ClassKeyValue(DataClass, ctorToClassKey[c])].ctor == c) &&
      (forall s :: s in objects.entries && objects.entries[s].alive ==>
        objects.entries[s].target in objectKeys && DataKeyValue(objectKeys[objects.entries[s].target]) == s)
    }

    /** tryGetVersion: nothing until a version has been set. */
    function TryGetVersion(data: Handle): (r: Option<Unsigned>)
      reads this
      ensures r.Some? <==> data in versions
      ensures r.Some? ==> r.value == versions[data]
    {
      if data in versions then Some(versions[data]) else None
    }

    /** setVersion: the version must be positive. */
    method SetVersion(data: Handle, version: Unsigned) returns (r: Outcome)
      modifies this
      ensures r.Pass? <==> version.value > 0
      ensures r.Fail? ==> r.error == NotPositive("version")
      ensures versions == if r.Pass? then old(versions)[data := version] else old(versions)
      ensures objectKeys == old(objectKeys) && updatedListeners == old(updatedListeners)
      ensures ctorToClassKey == old(ctorToClassKey)
    {
      if version.value == 0 {
        return Fail(NotPositive("version"));
      }
      versions := versions[data := version];
      r := Pass;
    }

    /** tryGetInstance: the object under the key, unless there is none or it has been collected. */
    function TryGetInstance(dataKey: DataKey): (r: Option<Handle>)
      reads this`ctorToClassKey, this`objectKeys, classes, objects
      ensures r.Some? <==> DataKeyValue(dataKey) in objects.entries && objects.entries[DataKeyValue(dataKey)].alive
      ensures r.Some? ==> r.value == objects.entries[DataKeyValue(dataKey)].target
      ensures Valid() && r.Some? ==> GetDataKey(r.value) == Ok(dataKey)
    {
      match objects.TryGet(DataKeyValue(dataKey))
      case None => None
      case Some(ref) =>
        if !ref.alive then None
        else
          assert Valid() ==> objectKeys[ref.target] == dataKey by {
            if Valid() { DataKeyValueInjective(objectKeys[ref.target], dataKey); }
          }
          Some(ref.target)
    }

    /** getDataKey: the key an object was installed under; an unknown object fails. */
    function GetDataKey(data: Handle): (r: Result<DataKey>)
      reads this`objectKeys
      ensures r.Ok? <==> data in objectKeys
      ensures r.Ok? ==> r.value == objectKeys[data]
      ensures r.Err? ==> r.error == UnknownInstance
    {
      if data in objectKeys then Ok(objectKeys[data]) else Err(UnknownInstance)
    }

    /**
     * setInstance: refused while a live instance holds the key; otherwise
     * the key and the object point at each other, and a collected slot is
     * overwritten.
     */
    method SetInstance(dataKey: DataKey, data: Handle) returns (r: Outcome)
      modifies this, objects
      ensures r.Fail? <==> old(TryGetInstance(dataKey)).Some?
      ensures r.Fail? ==> r.error == LiveInstanceExists
      ensures r.Pass? ==> objectKeys == old(objectKeys)[data := dataKey]
                          && objects.entries == old(objects.entries)[DataKeyValue(dataKey) := WeakRef(data, true)]
      ensures r.Fail? ==> objectKeys == old(objectKeys) && objects.entries == old(objects.entries)
      ensures r.Pass? ==> TryGetInstance(dataKey) == Some(data) && GetDataKey(data) == Ok(dataKey)
      ensures versions == old(versions) && updatedListeners == old(updatedListeners)
      ensures ctorToClassKey == old(ctorToClassKey)
      ensures old(Valid()) && data !in old(objectKeys) ==> Valid()
    {
      var existing := objects.TryGet(DataKeyValue(dataKey));
      if existing.Some? && existing.value.alive {
        return Fail(LiveInstanceExists);
      }
      objectKeys := objectKeys[data := dataKey];
      objects.Set(DataKeyValue(dataKey), WeakRef(data, true));
      r := Pass;
    }

    /** The garbage collector reclaims the live object under a key, and its weak entries vanish. */
    method Collect(dataKey: DataKey)
      requires Valid()
      modifies this, objects
      ensures Valid()
      ensures TryGetInstance(dataKey) == None
      ensures old(TryGetInstance(dataKey)).None? ==> objects.entries == old(objects.entries) && objectKeys == old(objectKeys)
      ensures old(TryGetInstance(dataKey)).Some? ==>
        var h := old(TryGetInstance(dataKey)).value;
        objects.entries == old(objects.entries)[DataKeyValue(dataKey) := WeakRef(h, false)] &&
        objectKeys == old(objectKeys) - {h} && versions == old(versions) - {h} &&
        updatedListeners == old(updatedListeners) - {h}
    {
      var ref := objects.TryGet(DataKeyValue(dataKey));
      if ref.Some? && ref.value.alive {
        var h := ref.value.target;
        objects.Set(DataKeyValue(dataKey), WeakRef(h, false));
        versions := versions - {h};
        objectKeys := objectKeys - {h};
        updatedListeners := updatedListeners - {h};
      }
    }

    method AddUpdatedListener(data: Handle, listener: ListenerId)
      modifies this
      ensures updatedListeners == old(updatedListeners)[data :=
        (if data in old(updatedListeners) then old(updatedListeners)[data] else []) + [listener]]
      ensures versions == old(versions) && objectKeys == old(objectKeys) && ctorToClassKey == old(ctorToClassKey)
    {
      var listeners := if data in updatedListeners then updatedListeners[data] else [];
      updatedListeners := updatedListeners[data := listeners + [listener]];
    }

    /** removeUpdatedListener: only the first occurrence goes; an absent list or listener is a no-op. */
    method RemoveUpdatedListener(data: Handle, listener: ListenerId)
      modifies this
      ensures data !in old(updatedListeners) ==> updatedListeners == old(updatedListeners)
      ensures data in old(updatedListeners) ==>
        updatedListeners == old(updatedListeners)[data := RemoveFirst(old(updatedListeners)[data], listener)]
      ensures versions == old(versions) && objectKeys == old(objectKeys) && ctorToClassKey == old(ctorToClassKey)
    {
      if data in updatedListeners {
        updatedListeners := updatedListeners[data := RemoveFirst(updatedListeners[data], listener)];
      }
    }

    function TryGetUpdatedListeners(data: Handle): (r: Option<seq<ListenerId>>)
      reads this
      ensures r.Some? <==> data in updatedListeners
      ensures r.Some? ==> r.value == updatedListeners[data]
    {
      if data in updatedListeners then Some(updatedListeners[data]) else None
    }

    method ClearUpdatedListeners(data: Handle)
      modifies this
      ensures updatedListeners == old(updatedListeners) - {data}
      ensures versions == old(versions) && objectKeys == old(objectKeys) && ctorToClassKey == old(ctorToClassKey)
    {
      updatedListeners := updatedListeners - {data};
    }

    method ClearAllUpdateListeners()
      modifies this
      ensures updatedListeners == map[]
      ensures versions == old(versions) && objectKeys == old(objectKeys) && ctorToClassKey == old(ctorToClassKey)
    {
      updatedListeners := map[];
    }

    /**
     * remove: a live instance loses its version, key and listeners; the key
     * mapping goes either way, so the key then has no instance.
     */
    method Remove(dataKey: DataKey)
      modifies this, objects
      ensures objects.entries == old(objects.entries) - {DataKeyValue(dataKey)}
      ensures TryGetInstance(dataKey) == None
      ensures old(TryGetInstance(dataKey)).Some? ==>
        var h := old(TryGetInstance(dataKey)).value;
        versions == old(versions) - {h} && objectKeys == old(objectKeys) - {h} &&
        updatedListeners == old(updatedListeners) - {h}
      ensures old(TryGetInstance(dataKey)).None? ==>
        versions == old(versions) && objectKeys == old(objectKeys) && updatedListeners == old(updatedListeners)
      ensures ctorToClassKey == old(ctorToClassKey)
      ensures old(Valid()) ==> Valid()
    {
      var ref := objects.TryGet(DataKeyValue(dataKey));
      if ref.Some? && ref.value.alive {
        var h := ref.value.target;
        versions := versions - {h};
        objectKeys := objectKeys - {h};
        updatedListeners := updatedListeners - {h};
      }
      objects.Delete(DataKeyValue(dataKey));
    }

    /** register: a class key can be registered once. */
    method Register(reg: DataClassRegistration) returns (r: Outcome)
      requires Valid()
      modifies this, classes
      ensures Valid()
      ensures r.Pass? <==> ClassKeyValue(DataClass, reg.classKey) !in old(classes.entries)
      ensures r.Fail? ==> r.error == AlreadyRegistered
      ensures r.Pass? ==> classes.entries == old(classes.entries)[ClassKeyValue(DataClass, reg.classKey) := reg]
                          && ctorToClassKey == old(ctorToClassKey)[reg.ctor := reg.classKey]
      ensures r.Fail? ==> classes.entries == old(classes.entries) && ctorToClassKey == old(ctorToClassKey)
      ensures r.Pass? ==> GetClassKey(reg.ctor) == Ok(reg.classKey)
      ensures versions == old(versions) && objectKeys == old(objectKeys) && updatedListeners == old(updatedListeners)
    {
      if classes.Has(ClassKeyValue(DataClass, reg.classKey)) {
        return Fail(AlreadyRegistered);
      }
      classes.Set(ClassKeyValue(DataClass, reg.classKey), reg);
      ctorToClassKey := ctorToClassKey[reg.ctor := reg.classKey];
      r := Pass;
    }

    /** getClassKey: fails for a constructor never registered; the key leads back to the constructor. */
    function GetClassKey(ctor: Ctor): (r: Result<ClassKey>)
      reads this, classes, objects
      ensures r.Ok? <==> ctor in ctorToClassKey
      ensures r.Ok? ==> r.value == ctorToClassKey[ctor]
      ensures r.Err? ==> r.error == NotRegistered
      ensures Valid() && r.Ok? ==> GetCtor(r.value) == Ok(ctor)
    {
      if ctor in ctorToClassKey then Ok(ctorToClassKey[ctor]) else Err(NotRegistered)
    }

    function GetDataRegistration(classKey: ClassKey): (r: Result<DataClassRegistration>)
      reads this, classes
      ensures r == classes.Get(ClassKeyValue(DataClass, classKey))
      ensures r.Ok? ==> ClassKeyValue(DataClass, classKey) in classes.entries
    {
      classes.Get(ClassKeyValue(DataClass, classKey))
    }

    /** getCtor: the registered constructor of a class; an unregistered class fails. */
    function GetCtor(classKey: ClassKey): (r: Result<Ctor>)
      reads this, classes
      ensures r.Ok? ==> ClassKeyValue(DataClass, classKey) in classes.entries
                        && r.value == classes.entries[ClassKeyValue(DataClass, classKey)].ctor
      ensures (forall reg :: !classes.isFalsy(reg)) ==> (r.Ok? <==> ClassKeyValue(DataClass, classKey) in classes.entries)
    {
      match GetDataRegistration(classKey)
      case Ok(reg) => Ok(reg.ctor)
      case Err(e) => Err(e)
    }

    function GetName(classKey: ClassKey): (r: Result<string>)
      reads this, classes
      ensures r.Ok? ==> ClassKeyValue(DataClass, classKey) in classes.entries
                        && r.value == classes.entries[ClassKeyValue(DataClass, classKey)].name
      ensures (forall reg :: !classes.isFalsy(reg)) ==> (r.Ok? <==> ClassKeyValue(DataClass, classKey) in classes.entries)
    {
      match GetDataRegistration(classKey)
      case Ok(reg) => Ok(reg.name)
      case Err(e) => Err(e)
    }
  }

  // ---------------------------------------------------------------------

  class ServiceRegistry {
    const classes: KeyMap<ServiceClassRegistration>
    var ctorToClassKey: map<Ctor, ClassKey>

    constructor()
      ensures fresh(classes) && classes.entries == map[] && ctorToClassKey == map[]
      ensures Valid()
    {
      classes := new KeyMap((r: ServiceClassRegistration) => false);
      ctorToClassKey := map[];
    }

    ghost predicate Valid()
      reads this, classes
    {
      (forall r :: !classes.isFalsy(r)) &&
      (forall c :: c in ctorToClassKey ==>
        ClassKeyValue(ServiceClass, ctorToClassKey[c]) in classes.entries &&
        classes.entries[ClassKeyValue(ServiceClass, ctorToClassKey[c])].ctor == c)
    }

    method Register(reg: ServiceClassRegistration) returns (r: Outcome)
      requires Valid()
      modifies this, classes
      ensures Valid()
      ensures r.Pass? <==> ClassKeyValue(ServiceClass, reg.classKey) !in old(classes.entries)
      ensures r.Fail? ==> r.error == AlreadyRegistered
      ensures r.Pass? ==> classes.entries == old(classes.entries)[ClassKeyValue(ServiceClass, reg.classKey) := reg]
                          && ctorToClassKey == old(ctorToClassKey)[reg.ctor := reg.classKey]
      ensures r.Fail? ==> classes.entries == old(classes.entries) && ctorToClassKey == old(ctorToClassKey)
      ensures r.Pass? ==> IsRegistered(reg.ctor) && GetClassKey(reg.ctor) == Ok(reg.classKey)
    {
      if classes.Has(ClassKeyValue(ServiceClass, reg.classKey)) {
        return Fail(AlreadyRegistered);
      }
      classes.Set(ClassKeyValue(ServiceClass, reg.classKey), reg);
      ctorToClassKey := ctorToClassKey[reg.ctor := reg.classKey];
      r := Pass;
    }

    predicate IsRegistered(ctor: Ctor)
      reads this
    {
      ctor in ctorToClassKey
    }

    function GetClassKey(ctor: Ctor): (r: Result<ClassKey>)
      reads this, classes
      ensures r.Ok? <==> IsRegistered(ctor)
      ensures r.Ok? ==> r.value == ctorToClassKey[ctor]
      ensures r.Err? ==> r.error == NotRegistered
      ensures Valid() && r.Ok? ==> GetCtor(r.value) == Ok(ctor)
    {
      if ctor in ctorToClassKey then Ok(ctorToClassKey[ctor]) else Err(NotRegistered)
    }

    function GetRegistration(classKey: ClassKey): (r: Result<ServiceClassRegistration>)
      reads this, classes
      ensures r == classes.Get(ClassKeyValue(ServiceClass, classKey))
      ensures r.Ok? ==> ClassKeyValue(ServiceClass, classKey) in classes.entries
    {
      classes.Get(ClassKeyValue(ServiceClass, classKey))
    }

    function GetCtor(classKey: ClassKey): (r: Result<Ctor>)
      reads this, classes
      ensures r.Ok? ==> ClassKeyValue(ServiceClass, classKey) in classes.entries
                        && r.value == classes.entries[ClassKeyValue(ServiceClass, classKey)].ctor
      ensures (forall reg :: !classes.isFalsy(reg)) ==> (r.Ok? <==> ClassKeyValue(ServiceClass, classKey) in classes.entries)
    {
      match GetRegistration(classKey)
      case Ok(reg) => Ok(reg.ctor)
      case Err(e) => Err(e)
    }

    function GetName(classKey: ClassKey): (r: Result<string>)
      reads this, classes
      ensures r.Ok? ==> ClassKeyValue(ServiceClass, classKey) in classes.entries
                        && r.value == classes.entries[ClassKeyValue(ServiceClass, classKey)].name
      ensures (forall reg :: !classes.isFalsy(reg)) ==> (r.Ok? <==> ClassKeyValue(ServiceClass, classKey) in classes.entries)
    {
      match GetRegistration(classKey)
      case Ok(reg) => Ok(reg.name)
      case Err(e) => Err(e)
    }

    /**
     * createInstance: `new ctor(primaryKey)` of the registered class. The
     * Service constructor refuses an empty key and touches no registry.
     */
    method CreateInstance(heap: Heap, serviceKey: ServiceKey) returns (r: Result<Handle>)
      modifies heap
      ensures r.Ok? <==> GetCtor(serviceKey.classKey).Ok? && serviceKey.primaryKey != ""
      ensures r.Ok? ==> (r.value == |old(heap.objects)| &&
        heap.objects == old(heap.objects) + [ServiceObj(GetCtor(serviceKey.classKey).value, serviceKey.primaryKey)])
      ensures r.Err? ==> heap.objects == old(heap.objects)
      ensures GetCtor(serviceKey.classKey).Err? ==> r == Err(GetCtor(serviceKey.classKey).error)
      ensures heap.trace == old(heap.trace)
    {
      var ctor := GetCtor(serviceKey.classKey);
      if ctor.Err? {
        return Err(ctor.error);
      }
      if serviceKey.primaryKey == "" {
        return Err(Falsy("primaryKey"));
      }
      var h := heap.Alloc(ServiceObj(ctor.value, serviceKey.primaryKey));
      r := Ok(h);
    }
  }

  // ---------------------------------------------------------------------

  class MessageRegistry {
    const classes: KeyMap<MessageClassRegistration>
    var ctorToClassKey: map<Ctor, ClassKey>
    const listeners: KeyMap<seq<ListenerId>>

    constructor()
      ensures fresh(classes) && fresh(listeners)
      ensures classes.entries == map[] && ctorToClassKey == map[] && listeners.entries == map[]
      ensures Valid()
    {
      classes := new KeyMap((r: MessageClassRegistration) => false);
      ctorToClassKey := map[];
      listeners := new KeyMap((l: seq<ListenerId>) => false);
    }

    ghost predicate Valid()
      reads this, classes
    {
      (forall r :: !classes.isFalsy(r)) &&
      (forall c :: c in ctorToClassKey ==>
        ClassKeyValue(MessageClass, ctorToClassKey[c]) in classes.entries &&
        classes.entries[ClassKeyValue(MessageClass, ctorToClassKey[c])].ctor == c)
    }

    /** addListener: appends to the instance key's list, creating it when absent. */
    method AddListener(key: MessageInstanceKey, listener: ListenerId)
      modifies listeners
      ensures listeners.entries == old(listeners.entries)[MessageInstanceKeyValue(key) :=
        (if MessageInstanceKeyValue(key) in old(listeners.entries)
         then old(listeners.entries)[MessageInstanceKeyValue(key)] else []) + [listener]]
    {
      var existing := listeners.TryGet(MessageInstanceKeyValue(key));
      var list := if existing.Some? then existing.value else [];
      listeners.Set(MessageInstanceKeyValue(key), list + [listener]);
    }

    /** removeListener: only the first occurrence goes; an absent list or listener is a no-op. */
    method RemoveListener(key: MessageInstanceKey, listener: ListenerId)
      modifies listeners
      ensures MessageInstanceKeyValue(key) !in old(listeners.entries) ==> listeners.entries == old(listeners.entries)
      ensures MessageInstanceKeyValue(key) in old(listeners.entries) ==>
        listeners.entries == old(listeners.entries)[MessageInstanceKeyValue(key) :=
          RemoveFirst(old(listeners.entries)[MessageInstanceKeyValue(key)], listener)]
    {
      var existing := listeners.TryGet(MessageInstanceKeyValue(key));
      if existing.Some? {
        listeners.Set(MessageInstanceKeyValue(key), RemoveFirst(existing.value, listener));
      }
    }

    function TryGetListeners(key: MessageInstanceKey): (r: Option<seq<ListenerId>>)
      reads this, listeners
      ensures r.Some? <==> MessageInstanceKeyValue(key) in listeners.entries
      ensures r.Some? ==> r.value == listeners.entries[MessageInstanceKeyValue(key)]
    {
      listeners.TryGet(MessageInstanceKeyValue(key))
    }

    method ClearListeners(key: MessageInstanceKey)
      modifies listeners
      ensures listeners.entries == old(listeners.entries) - {MessageInstanceKeyValue(key)}
      ensures TryGetListeners(key) == None
    {
      listeners.Delete(MessageInstanceKeyValue(key));
    }

    method ClearAllListeners()
      modifies listeners
      ensures listeners.entries == map[]
    {
      listeners.Clear();
    }

    method Register(reg: MessageClassRegistration) returns (r: Outcome)
      requires Valid()
      modifies this, classes
      ensures Valid()
      ensures r.Pass? <==> ClassKeyValue(MessageClass, reg.classKey) !in old(classes.entries)
      ensures r.Fail? ==> r.error == AlreadyRegistered
      ensures r.Pass? ==> classes.entries == old(classes.entries)[ClassKeyValue(MessageClass, reg.classKey) := reg]
                          && ctorToClassKey == old(ctorToClassKey)[reg.ctor := reg.classKey]
      ensures r.Fail? ==> classes.entries == old(classes.entries) && ctorToClassKey == old(ctorToClassKey)
      ensures r.Pass? ==> IsRegistered(reg.ctor) && GetClassKey(reg.ctor) == Ok(reg.classKey)
    {
      if classes.Has(ClassKeyValue(MessageClass, reg.classKey)) {
        return Fail(AlreadyRegistered);
      }
      classes.Set(ClassKeyValue(MessageClass, reg.classKey), reg);
      ctorToClassKey := ctorToClassKey[reg.ctor := reg.classKey];
      r := Pass;
    }

    predicate IsRegistered(ctor: Ctor)
      reads this
    {
      ctor in ctorToClassKey
    }

    function GetClassKey(ctor: Ctor): (r: Result<ClassKey>)
      reads this, classes
      ensures r.Ok? <==> IsRegistered(ctor)
      ensures r.Ok? ==> r.value == ctorToClassKey[ctor]
      ensures r.Err? ==> r.error == NotRegistered
      ensures Valid() && r.Ok? ==> GetCtor(r.value) == Ok(ctor)
    {
      if ctor in ctorToClassKey then Ok(ctorToClassKey[ctor]) else Err(NotRegistered)
    }

    function GetRegistration(classKey: ClassKey): (r: Result<MessageClassRegistration>)
      reads this, classes
      ensures r == classes.Get(ClassKeyValue(MessageClass, classKey))
      ensures r.Ok? ==> ClassKeyValue(MessageClass, classKey) in classes.entries
    {
      classes.Get(ClassKeyValue(MessageClass, classKey))
    }

    function GetCtor(classKey: ClassKey): (r: Result<Ctor>)
      reads this, classes
      ensures r.Ok? ==> ClassKeyValue(MessageClass, classKey) in classes.entries
                        && r.value == classes.entries[ClassKeyValue(MessageClass, classKey)].ctor
      ensures (forall reg :: !classes.isFalsy(reg)) ==> (r.Ok? <==> ClassKeyValue(MessageClass, classKey) in classes.entries)
    {
      match GetRegistration(classKey)
      case Ok(reg) => Ok(reg.ctor)
      case Err(e) => Err(e)
    }

    function GetName(classKey: ClassKey): (r: Result<string>)
      reads this, classes
      ensures r.Ok? ==> ClassKeyValue(MessageClass, classKey) in classes.entries
                        && r.value == classes.entries[ClassKeyValue(MessageClass, classKey)].name
      ensures (forall reg :: !classes.isFalsy(reg)) ==> (r.Ok? <==> ClassKeyValue(MessageClass, classKey) in classes.entries)
    {
      match GetRegistration(classKey)
      case Ok(reg) => Ok(reg.name)
      case Err(e) => Err(e)
    }
  }
}

/**
 * The request builders of the value codec: the de-duplicating queue of Data
 * objects that travel with a call or a save, the builders of the seven
 * request kinds, and the helpers that turn a Data argument into its keys.
 *
 * Each builder that loops in the source is a method proved equal to a pure
 * specification function; what the specification promises (every Data
 * object sent once, all from one warp, at the registry's version) is proved
 * as lemmas about those functions.
 */
module Requests {
  import opened Wrappers
  import opened Unsigned
  import opened Keys
  import opened JsHeap
  import opened Wire
  import opened Codec

  // ---------------------------------------------------------------------
  // Counting queued objects.

  /** Distinct handles below n number at most n. */
  lemma {:induction false} DistinctBelow(hs: seq<Handle>, n: nat)
    requires forall i, j :: 0 <= i < j < |hs| ==> hs[i] != hs[j]
    requires forall i :: 0 <= i < |hs| ==> hs[i] < n
    ensures |hs| <= n
    decreases n
  {
    if |hs| > 0 {
      assert hs[0] < n;
      if k :| 0 <= k < |hs| && hs[k] == n - 1 {
        var rest := hs[..k] + hs[k + 1..];
        assert forall i :: 0 <= i < |rest| ==> rest[i] == if i < k then hs[i] else hs[i + 1];
        DistinctBelow(rest, n - 1);
      } else {
        DistinctBelow(hs, n - 1);
      }
    }
  }

  /**
   * Everything the queue has ever held fits in the heap: the objects carry
   * distinct keys, so they are distinct objects. This bounds the drain loop.
   */
  lemma InvBound(env: Env, t: Transfer, popped: seq<Handle>)
    requires TransferInv(env, t, popped)
    ensures |popped| + |t.queue| <= |env.objects|
  {
    var added := popped + t.queue;
    forall i, j | 0 <= i < j < |added|
      ensures added[i] != added[j]
    {
      assert KeyOf(env, added[i]) != KeyOf(env, added[j]);
    }
    forall i | 0 <= i < |added|
      ensures added[i] < |env.objects|
    {
      assert Queueable(env, added[i]);
    }
    DistinctBelow(added, |env.objects|);
  }

  // ---------------------------------------------------------------------
  // DataTransferQueue.

  /**
   * The queue of Data objects a request carries. `popped` records, for the
   * proofs only, the objects already taken out.
   */
  class TransferQueue {
    var queue: seq<Handle>
    var keys: set<DataKey>
    var warpKey: Option<WarpKey>
    ghost var popped: seq<Handle>

    function State(): Transfer
      reads this
    {
      Transfer(queue, keys, warpKey)
    }

    /** A queue, optionally bound to a warp from the start. */
    constructor (warpKey: Option<WarpKey>)
      ensures queue == [] && keys == {} && this.warpKey == warpKey && popped == []
    {
      queue := [];
      keys := {};
      this.warpKey := warpKey;
      popped := [];
    }

    /** pop: the oldest object; an empty queue fails. */
    method Pop() returns (r: Result<Handle>)
      modifies this
      ensures old(queue) == [] ==> r == Err(NoItemsFound) && queue == [] && popped == old(popped)
      ensures old(queue) != [] ==>
        r == Ok(old(queue)[0]) && queue == old(queue)[1..] && popped == old(popped) + [old(queue)[0]]
      ensures keys == old(keys) && warpKey == old(warpKey)
    {
      if queue == [] {
        return Err(NoItemsFound);
      }
      r := Ok(queue[0]);
      popped := popped + [queue[0]];
      queue := queue[1..];
    }

    /**
     * tryAdd: the key of a new object is recorded before the warp is
     * checked, so a refused object still leaves its key behind, as in the
     * source; the request fails at that point anyway.
     */
    method TryAdd(env: Env, h: Handle) returns (r: Result<Option<DataKey>>)
      modifies this
      ensures var s := TransferAdd(env, old(State()), h);
        (r.Ok? <==> s.Ok?) && (r.Ok? ==> r.value == s.value.0 && State() == s.value.1) &&
        (r.Err? ==> r.error == s.error)
      ensures r.Err? && Queueable(env, h) ==> keys == old(keys) + {KeyOf(env, h)} && queue == old(queue)
      ensures popped == old(popped)
    {
      if !(h < |env.objects| && env.objects[h].DataObj?) || env.objects[h].ctor !in env.dataClasses {
        return Err(NotRegistered);
      }
      if env.objects[h].primaryKey == "" {
        return Err(Falsy("primaryKey"));
      }
      var classKey := env.dataClasses[env.objects[h].ctor];
      var key := DataKey(classKey, env.objects[h].primaryKey);
      if key in keys {
        return Ok(None);
      }
      keys := keys + {key};
      if warpKey.Some? {
        if warpKey.value != classKey.warpKey {
          return Err(DifferentWarps);
        }
      } else {
        warpKey := Some(classKey.warpKey);
      }
      queue := queue + [h];
      r := Ok(Some(key));
    }

    /** serializeValue with this queue: the queue ends in the state the encoding leaves. */
    method Serialize(env: Env, v: Native, fuel: nat) returns (r: Result<Value>)
      modifies this
      ensures var s := SerializeValue(env, v, old(State()), fuel);
        (r.Ok? <==> s.Ok?) && (r.Ok? ==> r.value == s.value.0 && State() == s.value.1) &&
        (r.Err? ==> r.error == s.error)
      ensures popped == old(popped)
    {
      var s := SerializeValue(env, v, State(), fuel);
      if s.Err? {
        return Err(s.error);
      }
      queue, keys, warpKey := s.value.1.queue, s.value.1.keys, s.value.1.warpKey;
      r := Ok(s.value.0);
    }

    /** createInboundDataDelta with this queue. */
    method InboundDelta(env: Env, versions: map<Handle, Unsigned>, h: Handle, fuel: nat) returns (r: Result<InboundDataDelta>)
      modifies this
      ensures var s := CreateInboundDataDelta(env, versions, h, old(State()), fuel);
        (r.Ok? <==> s.Ok?) && (r.Ok? ==> r.value == s.value.0 && State() == s.value.1) &&
        (r.Err? ==> r.error == s.error)
      ensures popped == old(popped)
    {
      var s := CreateInboundDataDelta(env, versions, h, State(), fuel);
      if s.Err? {
        return Err(s.error);
      }
      queue, keys, warpKey := s.value.1.queue, s.value.1.keys, s.value.1.warpKey;
      r := Ok(s.value.0);
    }

    /**
     * The drain loop of the call and save builders: pop and build one
     * inbound delta per object until the queue is empty.
     */
    method DrainDeltas(env: Env, versions: map<Handle, Unsigned>, fuel: nat) returns (r: Result<seq<InboundDataDelta>>)
      requires TransferInv(env, State(), popped)
      modifies this
      ensures var d := Drain(env, versions, old(State()), old(popped), fuel);
        (r.Ok? <==> d.Ok?) && (r.Err? ==> r.error == d.error) &&
        (r.Ok? ==> r.value == d.value.0 && State() == d.value.1 && popped == d.value.2)
    {
      ghost var t0, p0 := State(), popped;
      var deltas: seq<InboundDataDelta> := [];
      while |queue| > 0
        invariant TransferInv(env, State(), popped)
        invariant Then(deltas, Drain(env, versions, State(), popped, fuel)) == Drain(env, versions, t0, p0, fuel)
        decreases |env.objects| - |popped|
      {
        InvBound(env, State(), popped);
        ghost var before, poppedBefore := State(), popped;
        var h := Pop();
        DrainStep(env, versions, before, poppedBefore, fuel);
        var d := InboundDelta(env, versions, h.value, fuel);
        if d.Err? {
          return Err(d.error);
        }
        ThenThen(deltas, d.value, Drain(env, versions, State(), popped, fuel));
        deltas := deltas + [d.value];
      }
      r := Ok(deltas);
    }
  }

  // ---------------------------------------------------------------------
  // Draining the queue.

  /**
   * Popping until the queue is empty, one inbound delta per object; encoding
   * a delta may queue more objects. The result holds the deltas, the final
   * queue state and every object ever popped.
   */
  function Drain(env: Env, versions: map<Handle, Unsigned>, t: Transfer, popped: seq<Handle>, fuel: nat):
    (r: Result<(seq<InboundDataDelta>, Transfer, seq<Handle>)>)
    requires TransferInv(env, t, popped)
    ensures r.Ok? ==> r.value.1.queue == [] && |r.value.2| == |popped| + |r.value.0|
    decreases |env.objects| - |popped|
  {
    if t.queue == [] then Ok(([], t, popped))
    else
      var h := t.queue[0];
      var rest := Transfer(t.queue[1..], t.keys, t.warpKey);
      InvBound(env, t, popped);
      assert popped + [h] + rest.queue == popped + t.queue;
      match CreateInboundDataDelta(env, versions, h, rest, fuel)
      case Err(e) => Err(e)
      case Ok(p) =>
        CreateInboundDataDeltaKeepsInv(env, versions, h, rest, fuel, popped + [h]);
        match Drain(env, versions, p.1, popped + [h], fuel)
        case Err(e) => Err(e)
        case Ok(q) => Ok(([p.0] + q.0, q.1, q.2))
  }

  /** One step of the drain: pop the oldest object and build its delta. */
  lemma DrainStep(env: Env, versions: map<Handle, Unsigned>, t: Transfer, popped: seq<Handle>, fuel: nat)
    requires TransferInv(env, t, popped) && t.queue != []
    ensures var h, rest := t.queue[0], Transfer(t.queue[1..], t.keys, t.warpKey);
      var c := CreateInboundDataDelta(env, versions, h, rest, fuel);
      TransferInv(env, rest, popped + [h]) &&
      (c.Err? ==> Drain(env, versions, t, popped, fuel) == Err(c.error)) &&
      (c.Ok? ==> TransferInv(env, c.value.1, popped + [h]) &&
                 Drain(env, versions, t, popped, fuel) == Then([c.value.0], Drain(env, versions, c.value.1, popped + [h], fuel)))
  {
    var h, rest := t.queue[0], Transfer(t.queue[1..], t.keys, t.warpKey);
    assert popped + [h] + rest.queue == popped + t.queue;
    if CreateInboundDataDelta(env, versions, h, rest, fuel).Ok? {
      CreateInboundDataDeltaKeepsInv(env, versions, h, rest, fuel, popped + [h]);
    }
  }

  /** Deltas already built, followed by the outcome of the rest of the drain. */
  function Then(ds: seq<InboundDataDelta>, r: Result<(seq<InboundDataDelta>, Transfer, seq<Handle>)>):
    (s: Result<(seq<InboundDataDelta>, Transfer, seq<Handle>)>)
    ensures s.Err? <==> r.Err?
    ensures s.Err? ==> s.error == r.error
    ensures s.Ok? ==> s.value == (ds + r.value.0, r.value.1, r.value.2)
    ensures ds == [] ==> s == r
  {
    match r
    case Err(e) => Err(e)
    case Ok(v) =>
      assert ds == [] ==> ds + v.0 == v.0;
      Ok((ds + v.0, v.1, v.2))
  }

  lemma ThenThen(ds: seq<InboundDataDelta>, d: InboundDataDelta, r: Result<(seq<InboundDataDelta>, Transfer, seq<Handle>)>)
    ensures Then(ds, Then([d], r)) == Then(ds + [d], r)
  {
    if r.Ok? {
      assert ds + ([d] + r.value.0) == (ds + [d]) + r.value.0;
    }
  }

  /** The delta built for object h: its class, key and the registry's version. */
  predicate DeltaFor(env: Env, versions: map<Handle, Unsigned>, h: Handle, d: InboundDataDelta)
  {
    h < |env.objects| && env.objects[h].DataObj? && env.objects[h].ctor in env.dataClasses &&
    d.classId == env.dataClasses[env.objects[h].ctor].classId &&
    d.primaryKey == env.objects[h].primaryKey &&
    d.version == ToLong(VersionOf(versions, h)) &&
    d.deletedProperties == []
  }

  /**
   * What a finished drain sent: one delta per source object, in order, the
   * sources carrying distinct keys, all of one warp.
   */
  predicate Drained(env: Env, versions: map<Handle, Unsigned>, sources: seq<Handle>, deltas: seq<InboundDataDelta>, warpKey: WarpKey)
  {
    (forall h :: h in sources ==> Queueable(env, h)) &&
    DistinctKeys(env, sources) &&
    (forall h :: h in sources ==> KeyOf(env, h).classKey.warpKey == warpKey) &&
    |deltas| == |sources| &&
    forall j :: 0 <= j < |sources| ==> DeltaFor(env, versions, sources[j], deltas[j])
  }

  /**
   * What a drain started from queue state t, with popped already sent, has
   * achieved by its end res: the queue's invariant over every object popped,
   * every key seen before, the same warp, and the j-th delta is the delta of
   * the j-th object popped after the start.
   */
  predicate Covered(env: Env, versions: map<Handle, Unsigned>, t: Transfer, popped: seq<Handle>,
                    res: (seq<InboundDataDelta>, Transfer, seq<Handle>))
  {
    TransferInv(env, res.1, res.2) && |res.2| == |popped| + |res.0| && res.2[..|popped|] == popped &&
    t.keys <= res.1.keys && (t.warpKey.Some? ==> res.1.warpKey == t.warpKey) &&
    forall j :: 0 <= j < |res.0| ==> DeltaFor(env, versions, res.2[|popped| + j], res.0[j])
  }

  /** Every finished drain is covered in that sense. */
  lemma {:induction false} DrainCovers(env: Env, versions: map<Handle, Unsigned>, t: Transfer, popped: seq<Handle>, fuel: nat)
    requires TransferInv(env, t, popped)
    requires Drain(env, versions, t, popped, fuel).Ok?
    ensures Covered(env, versions, t, popped, Drain(env, versions, t, popped, fuel).value)
    decreases |env.objects| - |popped|
  {
    if t.queue == [] {
      assert Drain(env, versions, t, popped, fuel).value == ([], t, popped);
    } else {
      var h := t.queue[0];
      var rest := Transfer(t.queue[1..], t.keys, t.warpKey);
      InvBound(env, t, popped);
      DrainStep(env, versions, t, popped, fuel);
      var p := CreateInboundDataDelta(env, versions, h, rest, fuel).value;
      CreateInboundDataDeltaKeepsInv(env, versions, h, rest, fuel, popped + [h]);
      DrainCovers(env, versions, p.1, popped + [h], fuel);
      var q := Drain(env, versions, p.1, popped + [h], fuel).value;
      CoversNext(env, versions, t, popped, h, p.0, p.1, q);
      assert Drain(env, versions, t, popped, fuel).value == ([p.0] + q.0, q.1, q.2);
    }
  }

  /** The delta of the object just popped, followed by what the rest of the drain covered. */
  lemma CoversNext(env: Env, versions: map<Handle, Unsigned>, t: Transfer, popped: seq<Handle>, h: Handle,
                   d: InboundDataDelta, mid: Transfer, q: (seq<InboundDataDelta>, Transfer, seq<Handle>))
    requires DeltaFor(env, versions, h, d)
    requires t.keys <= mid.keys && (t.warpKey.Some? ==> mid.warpKey == t.warpKey)
    requires Covered(env, versions, mid, popped + [h], q)
    ensures Covered(env, versions, t, popped, ([d] + q.0, q.1, q.2))
  {
    var sources := q.2;
    assert sources[..|popped|] == sources[..|popped| + 1][..|popped|];
    assert sources[|popped|] == sources[..|popped| + 1][|popped|];
    forall j | 0 < j < |[d] + q.0| ensures DeltaFor(env, versions, sources[|popped| + j], ([d] + q.0)[j]) {
      assert ([d] + q.0)[j] == q.0[j - 1];
    }
  }

  /**
   * Draining a queue nothing was popped from sends every object it ever
   * held, each with its own delta, and every key it had seen is among them.
   */
  lemma DrainedAll(env: Env, versions: map<Handle, Unsigned>, t: Transfer, fuel: nat)
    requires TransferInv(env, t, []) && Drain(env, versions, t, [], fuel).Ok?
    ensures var dr := Drain(env, versions, t, [], fuel).value;
      (|dr.2| > 0 ==> dr.1.warpKey.Some?) && (t.warpKey.Some? ==> dr.1.warpKey == t.warpKey) &&
      (dr.1.warpKey.Some? ==> Drained(env, versions, dr.2, dr.0, dr.1.warpKey.value)) &&
      t.keys <= KeysOf(env, dr.2)
  {
    DrainCovers(env, versions, t, [], fuel);
    var dr := Drain(env, versions, t, [], fuel).value;
    assert dr.2 + dr.1.queue == dr.2;
  }

  // ---------------------------------------------------------------------
  // The common request envelope.

  /**
   * createRequest's checks, in order: a non-empty log context, then a
   * positive warp id and a positive warp version.
   */
  function RequestFault(logContext: string, warpKey: WarpKey): (r: Option<Fault>)
    ensures r.None? <==> logContext != "" && warpKey.warpId > 0 && warpKey.warpVersion > 0
    ensures logContext == "" ==> r == Some(Falsy("logContext"))
    ensures logContext != "" && warpKey.warpId == 0 ==> r == Some(NotPositive("warpId"))
    ensures logContext != "" && warpKey.warpId > 0 && warpKey.warpVersion == 0 ==> r == Some(NotPositive("warpVersion"))
  {
    var g := Guards.TruthyString("logContext", logContext);
    if g.Fail? then Some(g.error)
    else
      var i := Guards.RequiresPositiveUnsigned("warpId", Some(Unsigned(warpKey.warpId)));
      if i.Fail? then Some(i.error)
      else
        var v := Guards.RequiresPositiveUnsigned("warpVersion", Some(Unsigned(warpKey.warpVersion)));
        if v.Fail? then Some(v.error) else None
  }

  /** createRequest: the checked envelope around a body, with the warp written as two longs. */
  function CreateRequest(logContext: string, warpKey: WarpKey, body: RequestBody): (r: Result<Request>)
    ensures r.Err? <==> RequestFault(logContext, warpKey).Some?
    ensures r.Err? ==> r.error == RequestFault(logContext, warpKey).value
    ensures r.Ok? ==> r.value.logContext == logContext && r.value.body == body
    ensures r.Ok? ==> r.value.warpId == ToLong(Unsigned(warpKey.warpId)) && r.value.warpVersion == ToLong(Unsigned(warpKey.warpVersion))
    ensures r.Ok? && warpKey.warpId < TwoTo64 ==> FromLong(r.value.warpId) == Unsigned(warpKey.warpId)
    ensures r.Ok? && warpKey.warpVersion < TwoTo64 ==> FromLong(r.value.warpVersion) == Unsigned(warpKey.warpVersion)
  {
    match RequestFault(logContext, warpKey)
    case Some(e) => Err(e)
    case None =>
      LongRoundTripBelow(warpKey.warpId);
      LongRoundTripBelow(warpKey.warpVersion);
      Ok(Request(logContext, ToLong(Unsigned(warpKey.warpId)), ToLong(Unsigned(warpKey.warpVersion)), body))
  }

  lemma LongRoundTripBelow(n: nat)
    ensures n < TwoTo64 ==> FromLong(ToLong(Unsigned(n))) == Unsigned(n)
  {
    if n < TwoTo64 {
      LongRoundTrip(Unsigned(n));
    }
  }

  // ---------------------------------------------------------------------
  // Call a service method.

  /**
   * createCallServiceMethodRequest: the method id must be non-zero; the
   * envelope is checked; the arguments are encoded with a queue bound to the
   * service's warp; the queue is then drained.
   */
  function CallServiceMethodSpec(env: Env, versions: map<Handle, Unsigned>, logContext: string,
                                 serviceKey: ServiceKey, methodId: int, args: seq<Native>, fuel: nat): (r: Result<Request>)
    ensures methodId == 0 ==> r == Err(Falsy("methodId"))
    ensures methodId != 0 && RequestFault(logContext, serviceKey.classKey.warpKey).Some? ==>
      r == Err(RequestFault(logContext, serviceKey.classKey.warpKey).value)
    ensures r.Ok? ==>
      var init := Transfer([], {}, Some(serviceKey.classKey.warpKey));
      SerializeList(env, args, init, fuel).Ok? &&
      r.value.body.CallServiceMethodRequest? &&
      r.value.body.classId == serviceKey.classKey.classId &&
      r.value.body.primaryKey == serviceKey.primaryKey &&
      r.value.body.methodId == methodId &&
      r.value.body.arguments == SerializeList(env, args, init, fuel).value.0 &&
      TransferInv(env, SerializeList(env, args, init, fuel).value.1, []) &&
      Drain(env, versions, SerializeList(env, args, init, fuel).value.1, [], fuel).Ok? &&
      r.value.body.referencedDataDeltas == Drain(env, versions, SerializeList(env, args, init, fuel).value.1, [], fuel).value.0
  {
    if methodId == 0 then Err(Falsy("methodId"))
    else
      var wk := serviceKey.classKey.warpKey;
      match RequestFault(logContext, wk)
      case Some(e) => Err(e)
      case None =>
        var init := Transfer([], {}, Some(wk));
        match SerializeList(env, args, init, fuel)
        case Err(e) => Err(e)
        case Ok(enc) =>
          SerializeListKeepsInv(env, args, init, fuel, []);
          match Drain(env, versions, enc.1, [], fuel)
          case Err(e) => Err(e)
          case Ok(dr) =>
            CreateRequest(logContext, wk, CallServiceMethodRequest(
              serviceKey.classKey.classId, serviceKey.primaryKey, methodId, enc.0, dr.0))
  }

  /**
   * A call carries exactly one delta per Data object reachable from its
   * arguments: the objects sent have distinct keys, all belong to the
   * service's warp, each delta holds the registry's version of its object,
   * and every Data argument is among them.
   */
  lemma CallServiceMethodSendsEachObjectOnce(env: Env, versions: map<Handle, Unsigned>, logContext: string,
                                             serviceKey: ServiceKey, methodId: int, args: seq<Native>, fuel: nat)
    returns (sources: seq<Handle>)
    requires CallServiceMethodSpec(env, versions, logContext, serviceKey, methodId, args, fuel).Ok?
    ensures var body := CallServiceMethodSpec(env, versions, logContext, serviceKey, methodId, args, fuel).value.body;
      Drained(env, versions, sources, body.referencedDataDeltas, serviceKey.classKey.warpKey)
    ensures forall i :: 0 <= i < |args| && args[i].Ref? && Queueable(env, args[i].h) ==>
      KeyOf(env, args[i].h) in KeysOf(env, sources)
  {
    var wk := serviceKey.classKey.warpKey;
    var init := Transfer([], {}, Some(wk));
    var enc := SerializeList(env, args, init, fuel).value;
    SerializeListKeepsInv(env, args, init, fuel, []);
    DrainedAll(env, versions, enc.1, fuel);
    sources := Drain(env, versions, enc.1, [], fuel).value.2;
  }

  /** An encoding that fails on a prefix fails the same way on the whole list. */
  lemma {:induction false} SerializeListPrefixErr(env: Env, vs: seq<Native>, i: nat, t: Transfer, fuel: nat)
    requires i <= |vs| && SerializeList(env, vs[..i], t, fuel).Err?
    ensures SerializeList(env, vs, t, fuel) == SerializeList(env, vs[..i], t, fuel)
    decreases |vs|
  {
    if i < |vs| {
      var n := |vs| - 1;
      assert vs[..n][..i] == vs[..i];
      SerializeListPrefixErr(env, vs[..n], i, t, fuel);
    } else {
      assert vs[..i] == vs;
    }
  }

  /** The call request built step by step, the queue drained in a loop. */
  method CreateCallServiceMethodRequest(env: Env, versions: map<Handle, Unsigned>, logContext: string,
                                        serviceKey: ServiceKey, methodId: int, args: seq<Native>, fuel: nat)
    returns (r: Result<Request>)
    ensures r == CallServiceMethodSpec(env, versions, logContext, serviceKey, methodId, args, fuel)
  {
    if methodId == 0 {
      return Err(Falsy("methodId"));
    }
    var wk := serviceKey.classKey.warpKey;
    var fault := RequestFault(logContext, wk);
    if fault.Some? {
      return Err(fault.value);
    }
    var q := new TransferQueue(Some(wk));
    ghost var init := q.State();
    var vals: seq<Value> := [];
    for i := 0 to |args|
      invariant SerializeList(env, args[..i], init, fuel) == Ok((vals, q.State()))
      invariant q.popped == []
    {
      SerializeListStep(env, args, i, init, fuel);
      var v := q.Serialize(env, args[i], fuel);
      if v.Err? {
        SerializeListPrefixErr(env, args, i + 1, init, fuel);
        return Err(v.error);
      }
      vals := vals + [v.value];
    }
    assert args[..|args|] == args;
    SerializeListKeepsInv(env, args, init, fuel, []);
    var deltas := q.DrainDeltas(env, versions, fuel);
    if deltas.Err? {
      return Err(deltas.error);
    }
    r := CreateRequest(logContext, wk, CallServiceMethodRequest(
      serviceKey.classKey.classId, serviceKey.primaryKey, methodId, vals, deltas.value));
  }

  // ---------------------------------------------------------------------
  // Save data.

  /** tryAdd applied to every object in order. */
  function AddAll(env: Env, t: Transfer, hs: seq<Handle>): (r: Result<Transfer>)
    ensures r.Ok? ==> forall i :: 0 <= i < |hs| ==> Queueable(env, hs[i])
  {
    if |hs| == 0 then Ok(t)
    else
      match AddAll(env, t, hs[..|hs| - 1])
      case Err(e) => Err(e)
      case Ok(t') =>
        match TransferAdd(env, t', hs[|hs| - 1])
        case Err(e) => Err(e)
        case Ok(p) => Ok(p.1)
  }

  lemma {:induction false} AddAllPrefixErr(env: Env, t: Transfer, hs: seq<Handle>, i: nat)
    requires i <= |hs| && AddAll(env, t, hs[..i]).Err?
    ensures AddAll(env, t, hs) == AddAll(env, t, hs[..i])
    decreases |hs|
  {
    if i < |hs| {
      var n := |hs| - 1;
      assert hs[..n][..i] == hs[..i];
      AddAllPrefixErr(env, t, hs[..n], i);
    } else {
      assert hs[..i] == hs;
    }
  }

  lemma {:induction false} AddAllKeepsInv(env: Env, t: Transfer, hs: seq<Handle>, popped: seq<Handle>)
    requires TransferInv(env, t, popped)
    requires AddAll(env, t, hs).Ok?
    ensures TransferInv(env, AddAll(env, t, hs).value, popped)
    ensures t.keys <= AddAll(env, t, hs).value.keys
    ensures forall i :: 0 <= i < |hs| ==> KeyOf(env, hs[i]) in AddAll(env, t, hs).value.keys
    ensures |hs| > 0 ==> |popped + AddAll(env, t, hs).value.queue| > 0
  {
    if |hs| > 0 {
      var n := |hs| - 1;
      AddAllLast(env, t, hs);
      var t' := AddAll(env, t, hs[..n]).value;
      var t'' := AddAll(env, t, hs).value;
      AddAllKeepsInv(env, t, hs[..n], popped);
      TransferAddKeepsInv(env, t', hs[n], popped);
      assert t'.keys <= t''.keys;
      forall i | 0 <= i < |hs|
        ensures KeyOf(env, hs[i]) in t''.keys
      {
        if i < n {
          assert hs[..n][i] == hs[i];
        }
      }
      InvQueueNonEmpty(env, t'', popped, hs[n]);
    }
  }

  /** The last object offered is offered to the queue the others left. */
  lemma AddAllLast(env: Env, t: Transfer, hs: seq<Handle>)
    requires |hs| > 0 && AddAll(env, t, hs).Ok?
    ensures AddAll(env, t, hs[..|hs| - 1]).Ok?
    ensures var t' := AddAll(env, t, hs[..|hs| - 1]).value;
      TransferAdd(env, t', hs[|hs| - 1]).Ok? && AddAll(env, t, hs).value == TransferAdd(env, t', hs[|hs| - 1]).value.1
  {
  }

  /** A queue holding the key of a queueable object has sent or still holds something. */
  lemma InvQueueNonEmpty(env: Env, t: Transfer, popped: seq<Handle>, h: Handle)
    requires TransferInv(env, t, popped) && Queueable(env, h) && KeyOf(env, h) in t.keys
    ensures |popped + t.queue| > 0
  {
    assert KeyOf(env, h) in KeysOf(env, popped + t.queue);
  }

  /**
   * createSaveDataRequest: a non-empty list; every object is offered to a
   * queue with no warp yet; the queue is popped at least once (an empty
   * queue fails) and until empty; the queue's warp addresses the request,
   * and only then is the envelope checked.
   */
  function SaveDataSpec(env: Env, versions: map<Handle, Unsigned>, logContext: string, data: seq<Handle>, fuel: nat): (r: Result<Request>)
    ensures |data| == 0 ==> r == Err(InvalidData)
    ensures r.Ok? ==> r.value.body.SaveDataRequest? && forall i :: 0 <= i < |data| ==> Queueable(env, data[i])
    ensures r.Ok? ==>
      AddAll(env, Transfer([], {}, None), data).Ok? &&
      var t := AddAll(env, Transfer([], {}, None), data).value;
      TransferInv(env, t, []) && Drain(env, versions, t, [], fuel).Ok? &&
      var dr := Drain(env, versions, t, [], fuel).value;
      dr.1.warpKey.Some? && r.value.body.dataDeltas == dr.0 &&
      r.value.warpId == ToLong(Unsigned(dr.1.warpKey.value.warpId)) &&
      r.value.warpVersion == ToLong(Unsigned(dr.1.warpKey.value.warpVersion))
  {
    if |data| == 0 then Err(InvalidData)
    else
      var init := Transfer([], {}, None);
      match AddAll(env, init, data)
      case Err(e) => Err(e)
      case Ok(t) =>
        if t.queue == [] then Err(NoItemsFound)
        else
          AddAllKeepsInv(env, init, data, []);
          match Drain(env, versions, t, [], fuel)
          case Err(e) => Err(e)
          case Ok(dr) =>
            match dr.1.warpKey
            case None => Err(NoWarpKey)
            case Some(wk) => CreateRequest(logContext, wk, SaveDataRequest(dr.0))
  }

  /** Offering a non-empty list always queues something, so the first pop never fails. */
  lemma SaveDataNeverPopsEmpty(env: Env, data: seq<Handle>)
    requires |data| > 0 && AddAll(env, Transfer([], {}, None), data).Ok?
    ensures AddAll(env, Transfer([], {}, None), data).value.queue != []
  {
    AddAllKeepsInv(env, Transfer([], {}, None), data, []);
  }

  /**
   * A save carries one delta per object offered or reachable from them, each
   * once, all of the warp that addresses the request.
   */
  lemma SaveDataSendsEachObjectOnce(env: Env, versions: map<Handle, Unsigned>, logContext: string, data: seq<Handle>, fuel: nat)
    returns (sources: seq<Handle>, warpKey: WarpKey)
    requires SaveDataSpec(env, versions, logContext, data, fuel).Ok?
    ensures var req := SaveDataSpec(env, versions, logContext, data, fuel).value;
      Drained(env, versions, sources, req.body.dataDeltas, warpKey) &&
      req.warpId == ToLong(Unsigned(warpKey.warpId)) && req.warpVersion == ToLong(Unsigned(warpKey.warpVersion))
    ensures forall i :: 0 <= i < |data| ==> Queueable(env, data[i]) && KeyOf(env, data[i]) in KeysOf(env, sources)
  {
    var init := Transfer([], {}, None);
    var t := AddAll(env, init, data).value;
    AddAllKeepsInv(env, init, data, []);
    DrainedAll(env, versions, t, fuel);
    var dr := Drain(env, versions, t, [], fuel).value;
    sources := dr.2;
    warpKey := dr.1.warpKey.value;
  }

  /** The save request: every object offered in a loop, then the queue drained. */
  method CreateSaveDataRequest(env: Env, versions: map<Handle, Unsigned>, logContext: string, data: seq<Handle>, fuel: nat)
    returns (r: Result<Request>)
    ensures r == SaveDataSpec(env, versions, logContext, data, fuel)
  {
    if |data| == 0 {
      return Err(InvalidData);
    }
    var q := new TransferQueue(None);
    ghost var init := q.State();
    for i := 0 to |data|
      invariant AddAll(env, init, data[..i]) == Ok(q.State())
      invariant q.popped == []
    {
      assert data[..i + 1][..i] == data[..i];
      var added := q.TryAdd(env, data[i]);
      if added.Err? {
        AddAllPrefixErr(env, init, data, i + 1);
        return Err(added.error);
      }
    }
    assert data[..|data|] == data;
    AddAllKeepsInv(env, init, data, []);
    // do { pop … } while (queue.length > 0): the first pop fails on an empty queue
    if q.queue == [] {
      return Err(NoItemsFound);
    }
    var deltas := q.DrainDeltas(env, versions, fuel);
    if deltas.Err? {
      return Err(deltas.error);
    }
    var wk := q.warpKey;
    if wk.None? {
      return Err(NoWarpKey);
    }
    r := CreateRequest(logContext, wk.value, SaveDataRequest(deltas.value));
  }

  // ---------------------------------------------------------------------
  // Requests with no queue.

  /** createGetDataRequest: the class id and primary key, addressed to the key's warp. */
  function CreateGetDataRequest(logContext: string, dataKey: DataKey): (r: Result<Request>)
    ensures r.Ok? <==> RequestFault(logContext, dataKey.classKey.warpKey).None?
    ensures r.Ok? ==> r.value.body == GetDataRequest(dataKey.classKey.classId, dataKey.primaryKey)
  {
    CreateRequest(logContext, dataKey.classKey.warpKey, GetDataRequest(dataKey.classKey.classId, dataKey.primaryKey))
  }

  /** The source of a message instance key as sent: a Data or a Service reference. */
  function SourceReferenceOf(k: MessageInstanceKey): (r: SourceReference)
    ensures r.DataSourceReference? <==> SourceReferenceKind(k) == DataReferenceKind
    ensures k.sourceKey.DataSource? ==>
      r.ref == Reference(k.sourceKey.dataKey.classKey.classId, k.sourceKey.dataKey.primaryKey)
    ensures k.sourceKey.ServiceSource? ==>
      r.ref == Reference(k.sourceKey.serviceKey.classKey.classId, k.sourceKey.serviceKey.primaryKey)
  {
    if SourceReferenceKind(k) == DataReferenceKind then
      DataSourceReference(Reference(k.sourceKey.dataKey.classKey.classId, k.sourceKey.dataKey.primaryKey))
    else
      ServiceSourceReference(Reference(k.sourceKey.serviceKey.classKey.classId, k.sourceKey.serviceKey.primaryKey))
  }

  /**
   * createSubscribeMessageRequest and createUnsubscribeMessageRequest, which
   * differ only in the body kind: the message class id and the source,
   * addressed to the message class's warp.
   */
  function CreateMessageSubscriptionRequest(logContext: string, key: MessageInstanceKey, subscribe: bool): (r: Result<Request>)
    ensures r.Ok? <==> RequestFault(logContext, key.messageClassKey.warpKey).None?
    ensures r.Ok? ==> r.value.body.SubscribeMessageRequest? == subscribe
    ensures r.Ok? ==> r.value.body.SubscribeMessageRequest? || r.value.body.UnsubscribeMessageRequest?
    ensures r.Ok? ==>
      r.value.body.messageClassId == key.messageClassKey.classId &&
      r.value.body.source == SourceReferenceOf(key)
  {
    var body :=
      if subscribe then SubscribeMessageRequest(key.messageClassKey.classId, SourceReferenceOf(key))
      else UnsubscribeMessageRequest(key.messageClassKey.classId, SourceReferenceOf(key));
    CreateRequest(logContext, key.messageClassKey.warpKey, body)
  }

  /** The reference a data key is sent as. */
  function ReferenceOf(k: DataKey): Reference
  {
    Reference(k.classKey.classId, k.primaryKey)
  }

  /** All keys share the first key's warp. */
  predicate OneWarp(keys: seq<DataKey>)
  {
    forall i :: 0 <= i < |keys| ==> keys[i].classKey.warpKey == keys[0].classKey.warpKey
  }

  /**
   * createSubscribeDataUpdatesRequest and createUnsubscribeDataUpdatesRequest:
   * at least one key, all of one warp, one reference per key in order,
   * addressed to that warp.
   */
  function DataUpdatesSpec(logContext: string, keys: seq<DataKey>, subscribe: bool): (r: Result<Request>)
    ensures |keys| == 0 ==> r == Err(NoElements("objectKeys"))
    ensures |keys| > 0 && !OneWarp(keys) ==> r == Err(DifferentWarps)
    ensures r.Ok? <==> |keys| > 0 && OneWarp(keys) && RequestFault(logContext, keys[0].classKey.warpKey).None?
    ensures r.Ok? ==>
      (r.value.body.SubscribeDataUpdatesRequest? || r.value.body.UnsubscribeDataUpdatesRequest?) &&
      r.value.body.SubscribeDataUpdatesRequest? == subscribe &&
      |r.value.body.references| == |keys| &&
      forall i :: 0 <= i < |keys| ==> r.value.body.references[i] == ReferenceOf(keys[i])
  {
    if |keys| == 0 then Err(NoElements("objectKeys"))
    else if !OneWarp(keys) then Err(DifferentWarps)
    else
      var refs := seq(|keys|, i requires 0 <= i < |keys| => ReferenceOf(keys[i]));
      CreateRequest(logContext, keys[0].classKey.warpKey,
        if subscribe then SubscribeDataUpdatesRequest(refs) else UnsubscribeDataUpdatesRequest(refs))
  }

  /** The data-updates request built in one pass over the keys. */
  method CreateDataUpdatesRequest(logContext: string, keys: seq<DataKey>, subscribe: bool) returns (r: Result<Request>)
    ensures r == DataUpdatesSpec(logContext, keys, subscribe)
  {
    var atLeastOne := Guards.RequiresAtLeastOne("objectKeys", Some(keys));
    if atLeastOne.Fail? {
      return Err(atLeastOne.error);
    }
    var warpKey: Option<WarpKey> := None;
    var refs: seq<Reference> := [];
    for i := 0 to |keys|
      invariant i == 0 <==> warpKey.None?
      invariant i > 0 ==> warpKey == Some(keys[0].classKey.warpKey)
      invariant forall j :: 0 <= j < i ==> keys[j].classKey.warpKey == keys[0].classKey.warpKey
      invariant |refs| == i && forall j :: 0 <= j < i ==> refs[j] == ReferenceOf(keys[j])
    {
      if warpKey.None? {
        warpKey := Some(keys[i].classKey.warpKey);
      } else if keys[i].classKey.warpKey != warpKey.value {
        return Err(DifferentWarps);
      }
      refs := refs + [ReferenceOf(keys[i])];
    }
    if warpKey.None? {
      return Err(NoWarpKey);
    }
    assert refs == seq(|keys|, i requires 0 <= i < |keys| => ReferenceOf(keys[i]));
    r := CreateRequest(logContext, warpKey.value,
      if subscribe then SubscribeDataUpdatesRequest(refs) else UnsubscribeDataUpdatesRequest(refs));
  }

  // ---------------------------------------------------------------------
  // Data arguments.

  /** A parameter that takes one object or an array of them. */
  datatype OneOrMany<T> = One(item: T) | Many(items: seq<T>)

  /** normalizeArrayArg: an array stays as it is, a single value becomes a one-element array. */
  function NormalizeArrayArg<T>(arg: OneOrMany<T>): (r: seq<T>)
    ensures arg.One? ==> r == [arg.item]
    ensures arg.Many? ==> r == arg.items
  {
    match arg
    case One(x) => [x]
    case Many(xs) => xs
  }

  /**
   * One step over the objects: the class must be registered and the primary
   * key non-empty; the warp must match the first object's; a key seen
   * before is a duplicate.
   */
  function CollectStep(env: Env, acc: (Option<WarpKey>, seq<DataKey>), h: Handle): Result<(Option<WarpKey>, seq<DataKey>)>
  {
    if !(h < |env.objects| && env.objects[h].DataObj?) || env.objects[h].ctor !in env.dataClasses then Err(NotRegistered)
    else if env.objects[h].primaryKey == "" then Err(Falsy("primaryKey"))
    else
      var key := KeyOf(env, h);
      if acc.0.Some? && acc.0.value != key.classKey.warpKey then Err(DifferentWarps)
      else if key in acc.1 then Err(DuplicateKey)
      else Ok((Some(key.classKey.warpKey), acc.1 + [key]))
  }

  /** The loop of getDataAndKeys over a prefix of the objects. */
  function Collect(env: Env, hs: seq<Handle>): (r: Result<(Option<WarpKey>, seq<DataKey>)>)
    ensures r.Ok? ==> |r.value.1| == |hs|
  {
    if |hs| == 0 then Ok((None, []))
    else
      match Collect(env, hs[..|hs| - 1])
      case Err(e) => Err(e)
      case Ok(acc) => CollectStep(env, acc, hs[|hs| - 1])
  }

  lemma {:induction false} CollectPrefixErr(env: Env, hs: seq<Handle>, i: nat)
    requires i <= |hs| && Collect(env, hs[..i]).Err?
    ensures Collect(env, hs) == Collect(env, hs[..i])
    decreases |hs|
  {
    if i < |hs| {
      var n := |hs| - 1;
      assert hs[..n][..i] == hs[..i];
      CollectPrefixErr(env, hs[..n], i);
    } else {
      assert hs[..i] == hs;
    }
  }

  /** The loop over one more object takes one more step. */
  lemma CollectNext(env: Env, hs: seq<Handle>, i: nat)
    requires i < |hs| && Collect(env, hs[..i]).Ok?
    ensures Collect(env, hs[..i + 1]) == CollectStep(env, Collect(env, hs[..i]).value, hs[i])
  {
    assert hs[..i + 1][..i] == hs[..i];
  }

  /** What getDataAndKeys returns: the warp, the objects, and their keys in order. */
  datatype Collected = Collected(warpKey: WarpKey, objects: seq<Handle>, keys: seq<DataKey>)

  /** getDataAndKeys as a function: the loop, then a missing warp (no objects) fails. */
  function DataAndKeys(env: Env, data: OneOrMany<Handle>): (r: Result<Collected>)
    ensures r.Ok? ==> r.value.objects == NormalizeArrayArg(data) && |r.value.keys| == |r.value.objects|
  {
    var objects := NormalizeArrayArg(data);
    match Collect(env, objects)
    case Err(e) => Err(e)
    case Ok(acc) =>
      match acc.0
      case None => Err(NoWarpKey)
      case Some(wk) => Ok(Collected(wk, objects, acc.1))
  }

  /** The objects are acceptable: registered, keyed, of one warp, and distinct. */
  predicate Acceptable(env: Env, hs: seq<Handle>)
  {
    (forall h :: h in hs ==> Queueable(env, h)) &&
    DistinctKeys(env, hs) &&
    forall i :: 0 <= i < |hs| ==> KeyOf(env, hs[i]).classKey.warpKey == KeyOf(env, hs[0]).classKey.warpKey
  }

  /** The loop succeeds only on acceptable objects, and then yields their keys in order and the first one's warp. */
  lemma {:induction false} CollectSound(env: Env, hs: seq<Handle>)
    requires Collect(env, hs).Ok?
    ensures Acceptable(env, hs)
    ensures var acc := Collect(env, hs).value;
      (forall i :: 0 <= i < |hs| ==> acc.1[i] == KeyOf(env, hs[i])) &&
      (acc.0.Some? <==> |hs| > 0) &&
      (|hs| > 0 ==> acc.0.value == KeyOf(env, hs[0]).classKey.warpKey)
  {
    if |hs| > 0 {
      var n := |hs| - 1;
      var init := hs[..n];
      CollectSound(env, init);
      var acc := Collect(env, init).value;
      assert forall i :: 0 <= i < n ==> init[i] == hs[i];
      assert forall h :: h in hs ==> h in init || h == hs[n];
      if n > 0 {
        assert init[0] == hs[0];
      }
      forall i, j | 0 <= i < j < |hs|
        ensures KeyOf(env, hs[i]) != KeyOf(env, hs[j])
      {
        if j == n {
          assert acc.1[i] == KeyOf(env, hs[i]);
        }
      }
    }
  }

  /** Acceptable objects always pass the loop. */
  lemma {:induction false} CollectComplete(env: Env, hs: seq<Handle>)
    requires Acceptable(env, hs)
    ensures Collect(env, hs).Ok?
  {
    if |hs| > 0 {
      var n := |hs| - 1;
      var init := hs[..n];
      assert forall i :: 0 <= i < n ==> init[i] == hs[i];
      assert forall h :: h in init ==> h in hs;
      if n > 0 {
        assert init[0] == hs[0];
      }
      assert Acceptable(env, init);
      CollectComplete(env, init);
      CollectSound(env, init);
      var acc := Collect(env, init).value;
      forall i | 0 <= i < n
        ensures acc.1[i] != KeyOf(env, hs[n])
      {
        assert KeyOf(env, hs[i]) != KeyOf(env, hs[n]);
      }
      assert hs[n] in hs;
      assert Queueable(env, hs[n]);
      if n > 0 {
        assert acc.0.value == KeyOf(env, hs[0]).classKey.warpKey;
      }
      assert CollectStep(env, acc, hs[n]).Ok?;
    }
  }

  /**
   * getDataAndKeys succeeds exactly on acceptable objects, and then returns
   * each object's key in order and the first object's warp.
   */
  lemma DataAndKeysMeaning(env: Env, data: OneOrMany<Handle>)
    ensures var objects := NormalizeArrayArg(data);
      DataAndKeys(env, data).Ok? <==> |objects| > 0 && Acceptable(env, objects)
    ensures var objects := NormalizeArrayArg(data);
      DataAndKeys(env, data).Ok? ==>
        var c := DataAndKeys(env, data).value;
        |c.keys| == |objects| &&
        (forall i :: 0 <= i < |objects| ==> c.keys[i] == KeyOf(env, objects[i])) &&
        c.warpKey == KeyOf(env, objects[0]).classKey.warpKey
  {
    var objects := NormalizeArrayArg(data);
    if Collect(env, objects).Ok? {
      CollectSound(env, objects);
    }
    if |objects| > 0 && Acceptable(env, objects) {
      CollectComplete(env, objects);
    }
  }

  /** getDataAndKeys, the loop written out. */
  method GetDataAndKeys(env: Env, data: OneOrMany<Handle>) returns (r: Result<Collected>)
    ensures r == DataAndKeys(env, data)
  {
    var objects := NormalizeArrayArg(data);
    var warpKey: Option<WarpKey> := None;
    var keys: seq<DataKey> := [];
    for i := 0 to |objects|
      invariant Collect(env, objects[..i]) == Ok((warpKey, keys))
    {
      CollectNext(env, objects, i);
      var h := objects[i];
      if !(h < |env.objects| && env.objects[h].DataObj?) || env.objects[h].ctor !in env.dataClasses {
        CollectPrefixErr(env, objects, i + 1);
        return Err(NotRegistered);
      }
      if env.objects[h].primaryKey == "" {
        CollectPrefixErr(env, objects, i + 1);
        return Err(Falsy("primaryKey"));
      }
      var key := KeyOf(env, h);
      if warpKey.None? {
        warpKey := Some(key.classKey.warpKey);
      } else if warpKey.value != key.classKey.warpKey {
        CollectPrefixErr(env, objects, i + 1);
        return Err(DifferentWarps);
      }
      if key in keys {
        CollectPrefixErr(env, objects, i + 1);
        return Err(DuplicateKey);
      }
      keys := keys + [key];
    }
    assert objects[..|objects|] == objects;
    if warpKey.None? {
      return Err(NoWarpKey);
    }
    r := Ok(Collected(warpKey.value, objects, keys));
  }

  /**
   * getDataAndKeyMap: the same checks, the keys kept in a map from each key
   * to its object instead of a list.
   */
  method GetDataAndKeyMap(env: Env, data: OneOrMany<Handle>) returns (r: Result<(WarpKey, seq<Handle>, map<DataKey, Handle>)>)
    ensures r.Ok? <==> DataAndKeys(env, data).Ok?
    ensures r.Err? ==> r.error == DataAndKeys(env, data).error
    ensures r.Ok? ==>
      var c := DataAndKeys(env, data).value;
      r.value.0 == c.warpKey && r.value.1 == c.objects &&
      (forall k :: k in r.value.2 <==> k in c.keys) &&
      forall i :: 0 <= i < |c.keys| ==> c.keys[i] in r.value.2 && r.value.2[c.keys[i]] == c.objects[i]
  {
    var objects := NormalizeArrayArg(data);
    var warpKey: Option<WarpKey> := None;
    ghost var keys: seq<DataKey> := [];
    var keyMap: map<DataKey, Handle> := map[];
    for i := 0 to |objects|
      invariant Collect(env, objects[..i]) == Ok((warpKey, keys))
      invariant |keys| == i
      invariant forall k :: k in keyMap <==> k in keys
      invariant forall j :: 0 <= j < i ==> keyMap[keys[j]] == objects[j]
    {
      CollectNext(env, objects, i);
      var h := objects[i];
      if !(h < |env.objects| && env.objects[h].DataObj?) || env.objects[h].ctor !in env.dataClasses {
        CollectPrefixErr(env, objects, i + 1);
        return Err(NotRegistered);
      }
      if env.objects[h].primaryKey == "" {
        CollectPrefixErr(env, objects, i + 1);
        return Err(Falsy("primaryKey"));
      }
      var key := KeyOf(env, h);
      if warpKey.None? {
        warpKey := Some(key.classKey.warpKey);
      } else if warpKey.value != key.classKey.warpKey {
        CollectPrefixErr(env, objects, i + 1);
        return Err(DifferentWarps);
      }
      if key in keyMap {
        CollectPrefixErr(env, objects, i + 1);
        return Err(DuplicateKey);
      }
      keyMap := keyMap[key := h];
      keys := keys + [key];
    }
    assert objects[..|objects|] == objects;
    if warpKey.None? {
      return Err(NoWarpKey);
    }
    r := Ok((warpKey.value, objects, keyMap));
  }
}

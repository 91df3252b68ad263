/** The Secret-backed snapshot storage and the stack that caches its snapshot, with their objects and
    aliasing: a handle is updated in place, and its generation is written before the API call. */
module Snapshotter {
  import opened Options
  import opened Store
  import opened Decimal
  import opened References

  type int64 = n: int | IsInt64(n)

  // ----- stored records -----

  datatype ResourceState = ResourceState(urn: string, kind: string, deleted: bool, outputs: map<string, string>)

  datatype Snapshot = Snapshot(resources: seq<ResourceState>, pendingOperations: nat)

  /** One entry of a Secret's data. A checkpoint is the encoding of a snapshot or of none; the codec itself
      is invertible and otherwise abstract. */
  datatype Blob = Encoded(snap: Option<Snapshot>) | Text(text: string)

  datatype SecretObject = SecretObject(name: SecretName, rv: nat, owner: string, data: map<string, Blob>)

  function EncodeData(snap: Option<Snapshot>, generation: int64): map<string, Blob> {
    map["checkpoint" := Encoded(snap), "generation" := Text(FormatInt(generation))]
  }

  datatype Decoded = Malformed | Record(snap: Option<Snapshot>, generation: int64)

  function ParsedGeneration(data: map<string, Blob>): (g: Option<int64>)
    ensures g.Some? ==> "generation" in data && data["generation"].Text? &&
                        ParseInt(data["generation"].text) == Some(g.value)
  {
    if "generation" !in data || !data["generation"].Text? then None
    else
      var r := ParseInt(data["generation"].text);
      if r.Some? && IsInt64(r.value) then Some(r.value) else None
  }

  /** A missing entry reads as empty bytes, which neither decode nor parse. */
  function DecodeData(data: map<string, Blob>): Decoded {
    if "checkpoint" !in data || !data["checkpoint"].Encoded? then Malformed
    else
      match ParsedGeneration(data)
      case None => Malformed
      case Some(g) => Record(data["checkpoint"].snap, g)
  }

  /** Storing and decoding gives the snapshot and the generation back, for every snapshot and every int64. */
  lemma EncodeDecode(snap: Option<Snapshot>, generation: int64)
    ensures DecodeData(EncodeData(snap, generation)) == Record(snap, generation)
  {
    FormatParse(generation);
  }

  /** A stored record has two entries: the encoded snapshot and the generation in decimal. */
  lemma RecordShape(snap: Option<Snapshot>, generation: int64)
    ensures var data := EncodeData(snap, generation);
            && data.Keys == {"checkpoint", "generation"}
            && data["checkpoint"] == Encoded(snap) && data["generation"] == Text(FormatInt(generation))
  {
  }

  function Lookup(secrets: map<SecretName, SecretObject>, name: SecretName): Option<SecretObject> {
    if name in secrets then Some(secrets[name]) else None
  }

  /** A Secret as the protocol sees it; a malformed one keeps its version. */
  function Versions(secret: Option<SecretObject>): Option<Versioned<Option<Snapshot>>> {
    match secret
    case None => None
    case Some(o) =>
      match DecodeData(o.data)
      case Malformed => Some(Versioned(o.rv, 0, None))
      case Record(snap, g) => Some(Versioned(o.rv, g, snap))
  }

  // ----- the API server -----

  class ApiServer {
    var secrets: map<SecretName, SecretObject>
    var clock: nat

    /** Secrets are kept under their own names, and no version is ahead of the clock. */
    ghost predicate Valid()
      reads this
    {
      forall n | n in secrets :: secrets[n].name == n && secrets[n].rv <= clock
    }

    constructor ()
      ensures secrets == map[] && clock == 0 && Valid()
    {
      secrets := map[];
      clock := 0;
    }

    /** Creates the Secret unless its name is taken. `fate` is what the network does to the call. */
    method Create(o: SecretObject, fate: Reply) returns (stored: Option<SecretObject>)
      modifies this
      ensures var lands := fate != Refused && o.name !in old(secrets);
              && clock == (if lands then old(clock) + 1 else old(clock))
              && secrets == (if lands then old(secrets)[o.name := o.(rv := clock)] else old(secrets))
              && stored == (if lands && fate.Acked? then Some(secrets[o.name]) else None)
      ensures old(Valid()) ==> Valid()
    {
      stored := None;
      if fate != Refused && o.name !in secrets {
        clock := clock + 1;
        secrets := secrets[o.name := o.(rv := clock)];
        if fate.Acked? { stored := Some(secrets[o.name]); }
      }
    }

    /** Replaces the Secret if the caller's copy has its current version. */
    method Update(o: SecretObject, fate: Reply) returns (stored: Option<SecretObject>)
      modifies this
      ensures var lands := fate != Refused && o.name in old(secrets) && old(secrets)[o.name].rv == o.rv;
              && clock == (if lands then old(clock) + 1 else old(clock))
              && secrets == (if lands then old(secrets)[o.name := o.(rv := clock)] else old(secrets))
              && stored == (if lands && fate.Acked? then Some(secrets[o.name]) else None)
      ensures old(Valid()) ==> Valid()
    {
      stored := None;
      if fate != Refused && o.name in secrets && secrets[o.name].rv == o.rv {
        clock := clock + 1;
        secrets := secrets[o.name := o.(rv := clock)];
        if fate.Acked? { stored := Some(secrets[o.name]); }
      }
    }

    /** Another client's write of a Secret, a create or an accepted update. */
    method Overwrite(o: SecretObject)
      modifies this
      ensures clock == old(clock) + 1 && secrets == old(secrets)[o.name := o.(rv := clock)]
      ensures old(Valid()) ==> Valid()
    {
      clock := clock + 1;
      secrets := secrets[o.name := o.(rv := clock)];
    }

    /** The garbage collector takes a Secret. */
    method Remove(name: SecretName)
      modifies this
      ensures clock == old(clock) + 1 && secrets == old(secrets) - {name}
      ensures old(Valid()) ==> Valid()
    {
      clock := clock + 1;
      secrets := secrets - {name};
    }

    /** A write of any other record. */
    method Tick()
      modifies this`clock
      ensures clock == old(clock) + 1
    {
      clock := clock + 1;
    }
  }

  /** The reconciled object: its identity is fixed, its generation is refreshed in place. */
  class ApiObject {
    const namespace: string
    const uid: string
    var generation: int64

    constructor (namespace: string, uid: string, generation: int64)
      ensures this.namespace == namespace && this.uid == uid && this.generation == generation
    {
      this.namespace := namespace;
      this.uid := uid;
      this.generation := generation;
    }

    function Ref(): Reference { Reference(namespace, uid) }
  }

  /** secretSnapshotHandle. */
  class Handle {
    var objectGeneration: int64
    var secret: Option<SecretObject>

    constructor (objectGeneration: int64, secret: Option<SecretObject>)
      ensures this.objectGeneration == objectGeneration && this.secret == secret
    {
      this.objectGeneration := objectGeneration;
      this.secret := secret;
    }
  }

  /** The Secret a handle carries; no handle and a handle without a Secret both make a write a create. */
  function Carried(h: Handle?): Option<SecretObject>
    reads h
  {
    if h == null then None else h.secret
  }

  // ----- loading -----

  datatype LoadError =
    | Unreadable | Undecodable | GenerationMismatch | InvalidReference | RootLookupFailed | NilDereference

  datatype Loaded = Failed(error: LoadError) | Absent | Found(snap: Snapshot, generation: int64)

  /** What GetSnapshot answers for a stored Secret: a Secret that stores no snapshot counts as absent, and a
      later generation than the object's is refused. */
  function LoadView(secret: Option<SecretObject>, generation: int64): Loaded {
    LoadData(DataOf(secret), generation)
  }

  function DataOf(secret: Option<SecretObject>): Option<map<string, Blob>> {
    match secret case None => None case Some(o) => Some(o.data)
  }

  function LoadData(data: Option<map<string, Blob>>, generation: int64): Loaded {
    match data
    case None => Absent
    case Some(d) =>
      match DecodeData(d)
      case Malformed => Failed(Undecodable)
      case Record(None, _) => Absent
      case Record(Some(snap), g) => if g > generation then Failed(GenerationMismatch) else Found(snap, g)
  }

  /** Save then load: a snapshot comes back, with its generation, exactly when the reader's object is not
      behind it; storing no snapshot reads as if nothing were stored. */
  lemma SaveThenLoad(o: SecretObject, snap: Option<Snapshot>, saved: int64, generation: int64)
    requires o.data == EncodeData(snap, saved)
    ensures LoadView(Some(o), generation) ==
            match snap
            case None => Absent
            case Some(x) => if saved <= generation then Found(x, saved) else Failed(GenerationMismatch)
  {
    EncodeDecode(snap, saved);
  }

  /** A Secret that does not decode never yields a snapshot, for any generation of the object: one without a checkpoint
      that decodes, or without a generation that is the text of a number of 64 bits. */
  lemma CorruptNeverLoads(data: map<string, Blob>, generation: int64)
    ensures LoadData(Some(data), generation) == Failed(Undecodable) <==>
            || "checkpoint" !in data || !data["checkpoint"].Encoded?
            || "generation" !in data || !data["generation"].Text? || ParseInt(data["generation"].text) == None
  {
  }

  /** A Secret that stores no snapshot locks its object out: it loads without a handle, so every later
      save is a create on a name that is taken. */
  lemma NilSnapshotLocksOut(o: SecretObject, saved: int64, generation: int64)
    requires o.data == EncodeData(None, saved)
    ensures LoadView(Some(o), generation) == Absent
    ensures !MayLand(Versions(Some(o)), None)
  {
    EncodeDecode(None, saved);
  }

  // ----- stack outputs -----

  /** The outputs of the first root stack resource, or none. */
  function RootOutputs(resources: seq<ResourceState>): map<string, string> {
    if resources == [] then map[]
    else if resources[0].kind == STACK_TYPE then resources[0].outputs
    else RootOutputs(resources[1..])
  }

  /** They are the outputs of the first resource of the stack type, and empty without one. */
  lemma {:induction false} RootOutputsExactly(resources: seq<ResourceState>, k: nat)
    requires k <= |resources| && forall j | 0 <= j < k :: resources[j].kind != "pulumi:pulumi:Stack"
    ensures k == |resources| ==> RootOutputs(resources) == map[]
    ensures k < |resources| && resources[k].kind == "pulumi:pulumi:Stack" ==>
              RootOutputs(resources) == resources[k].outputs
  {
    if k > 0 { RootOutputsExactly(resources[1..], k - 1); }
  }

  datatype Outputs<T> = Missing(error: LoadError) | Outputs(value: T)

  datatype ResourceOutputs = ResourceOutputs(kind: string, outputs: map<string, string>)

  /** The snapshot a stack name leads to; the read of the Secret may fail. */
  function SnapshotByName(secrets: map<SecretName, SecretObject>, stackName: string, readable: bool):
    Outputs<Option<Snapshot>>
  {
    match Parse(stackName)
    case None => Missing(InvalidReference)
    case Some(ref) =>
      if !readable then Missing(Unreadable)
      else
        match Lookup(secrets, SecretNameOf(ref))
        case None => Outputs(None)
        case Some(o) =>
          match DecodeData(o.data)
          case Malformed => Missing(Undecodable)
          case Record(snap, _) => Outputs(snap)
  }

  /** The root outputs a stack name leads to; the library's lookup of the root resource may fail. */
  function OutputsByName(secrets: map<SecretName, SecretObject>, stackName: string, readable: bool, lookupFails: bool):
    Outputs<map<string, string>>
  {
    match SnapshotByName(secrets, stackName, readable)
    case Missing(e) => Missing(e)
    case Outputs(snap) =>
      if lookupFails then Missing(RootLookupFailed)
      else match snap case None => Outputs(map[]) case Some(x) => Outputs(RootOutputs(x.resources))
  }

  /** How a lookup fails: a name that does not parse, a Secret that cannot be read, one that does not decode, and the
      root lookup itself, in that order. */
  lemma LookupFailsExactly(secrets: map<SecretName, SecretObject>, stackName: string, readable: bool, lookupFails: bool)
    ensures var answer := OutputsByName(secrets, stackName, readable, lookupFails);
            match Parse(stackName)
            case None => answer == Missing(InvalidReference)
            case Some(ref) =>
              var name := SecretName(ref.namespace, "pulumi-" + ref.uid);
              if !readable then answer == Missing(Unreadable)
              else if name in secrets && LoadData(Some(secrets[name].data), MAX_INT64) == Failed(Undecodable) then
                answer == Missing(Undecodable)
              else answer.Missing? <==> lookupFails
  {
  }

  /** Lookup agreement: after a save for an object, its name leads to exactly the saved snapshot, for every object
      whose reference round-trips. */
  lemma LookupAgrees(secrets: map<SecretName, SecretObject>, ref: Reference, o: SecretObject, snap: Snapshot,
                     generation: int64)
    requires o.name == SecretNameOf(ref) && o.data == EncodeData(Some(snap), generation)
    ensures IsQName(ref.namespace) && IsName(ref.uid) ==>
              OutputsByName(secrets[o.name := o], QName(ref), true, false) == Outputs(RootOutputs(snap.resources))
  {
    EncodeDecode(Some(snap), generation);
    ReferenceRoundTrip(ref);
  }

  /** A save for one object leaves every other name leading where it did, whether it parses or not. */
  lemma OtherLookupsStay(secrets: map<SecretName, SecretObject>, ref: Reference, o: SecretObject, stackName: string,
                         readable: bool, lookupFails: bool)
    requires o.name == SecretNameOf(ref) && Parse(stackName) != Some(ref)
    ensures OutputsByName(secrets[o.name := o], stackName, readable, lookupFails) ==
            OutputsByName(secrets, stackName, readable, lookupFails)
  {
    match Parse(stackName)
    case None =>
    case Some(other) => if SecretNameOf(other) == SecretNameOf(ref) { SecretNamesAreDistinct(other, ref); }
  }

  /** Resource outputs by URN: among the resources not marked for deletion the last of a URN wins. */
  function ResourceOutputsOf(resources: seq<ResourceState>): map<string, ResourceOutputs> {
    if resources == [] then map[]
    else
      var rest, last := ResourceOutputsOf(resources[..|resources| - 1]), resources[|resources| - 1];
      if last.deleted then rest else rest[last.urn := ResourceOutputs(last.kind, last.outputs)]
  }

  /** The last resource of a URN that is not marked for deletion, or -1. */
  function LastLive(resources: seq<ResourceState>, urn: string): (k: int)
    ensures -1 <= k < |resources|
    ensures k >= 0 ==> resources[k].urn == urn && !resources[k].deleted
    ensures forall j | k < j < |resources| :: resources[j].urn == urn ==> resources[j].deleted
  {
    if resources == [] then -1
    else
      var last := resources[|resources| - 1];
      if last.urn == urn && !last.deleted then |resources| - 1 else LastLive(resources[..|resources| - 1], urn)
  }

  /** A URN is listed exactly when some resource of it is not marked for deletion, with what the last such
      resource has. */
  lemma {:induction false} ResourceOutputsExactly(resources: seq<ResourceState>, urn: string)
    ensures urn in ResourceOutputsOf(resources) <==> LastLive(resources, urn) >= 0
    ensures LastLive(resources, urn) >= 0 ==>
              var r := resources[LastLive(resources, urn)];
              ResourceOutputsOf(resources)[urn] == ResourceOutputs(r.kind, r.outputs)
  {
    if resources != [] { ResourceOutputsExactly(resources[..|resources| - 1], urn); }
  }

  // ----- secretSnapshotter -----

  class SecretSnapshotter {
    const api: ApiServer

    constructor (api: ApiServer)
      ensures this.api == api
    {
      this.api := api;
    }

    /** getSnapshot (snapshot.go:189-218) and the checks of GetSnapshot (170-186). A found snapshot comes with
        a new handle on the Secret just read. */
    method GetSnapshot(obj: ApiObject, readable: bool) returns (loaded: Loaded, handle: Handle?)
      requires api.Valid()
      ensures var secret := Lookup(api.secrets, SecretName(obj.namespace, "pulumi-" + obj.uid));
              && loaded == (if readable then LoadView(secret, obj.generation) else Failed(Unreadable))
              && (handle != null <==> loaded.Found?)
              && (handle != null ==>
                    && fresh(handle) && handle.objectGeneration == loaded.generation && handle.secret == secret
                    && secret.Some? && secret.value.name == SecretName(obj.namespace, "pulumi-" + obj.uid))
    {
      handle := null;
      if !readable { return Failed(Unreadable), null; }
      var name := SecretNameOf(obj.Ref());
      if name !in api.secrets { return Absent, null; }
      var secret := api.secrets[name];
      if "checkpoint" !in secret.data || !secret.data["checkpoint"].Encoded? { return Failed(Undecodable), null; }
      var generation := ParsedGeneration(secret.data);
      if generation.None? { return Failed(Undecodable), null; }
      var snap := secret.data["checkpoint"].snap;
      if snap.None? { return Absent, null; }
      if generation.value > obj.generation { return Failed(GenerationMismatch), null; }
      handle := new Handle(generation.value, Some(secret));
      return Found(snap.value, generation.value), handle;
    }

    /** setSnapshot (snapshot.go:233-292). A write lands exactly when the protocol's store accepts the handle's
        version; a failed one leaves the Secret of the handle as it was, but has already moved the handle's
        generation. */
    method SetSnapshot(obj: ApiObject, snap: Option<Snapshot>, prior: Handle?, fate: Reply) returns (handle: Handle?)
      requires prior != null && prior.secret.Some? ==> prior.secret.value.name == SecretNameOf(obj.Ref())
      modifies api, prior
      ensures var name := SecretName(obj.namespace, "pulumi-" + obj.uid);
              var server, carried := Lookup(old(api.secrets), name), old(Carried(prior));
              var lands := fate != Refused && MayLand(Versions(server), Versions(carried));
              && (handle != null <==> lands && fate.Acked?)
              && (!lands ==> api.secrets == old(api.secrets) && api.clock == old(api.clock))
              && (lands ==>
                    && api.clock == old(api.clock) + 1
                    && name in api.secrets && api.secrets == old(api.secrets)[name := api.secrets[name]]
                    && Versions(Lookup(api.secrets, name)) ==
                       Some(Versioned(api.clock, old(obj.generation), snap))
                    && api.secrets[name].name == name
                    && api.secrets[name].data == EncodeData(snap, old(obj.generation))
                    && api.secrets[name].owner == (if carried.None? then obj.uid else carried.value.owner))
      ensures handle != null && prior != null ==> handle == prior
      ensures handle != null && prior == null ==> fresh(handle)
      ensures handle != null ==> handle.objectGeneration == obj.generation &&
                                 handle.secret == Lookup(api.secrets, SecretNameOf(obj.Ref()))
      ensures prior != null ==> prior.objectGeneration == obj.generation
      ensures prior != null && handle == null ==> prior.secret == old(prior.secret)
      ensures old(api.Valid()) ==> api.Valid()
    {
      var objectGeneration := obj.generation;
      EncodeDecode(snap, objectGeneration);
      var secretData := EncodeData(snap, objectGeneration);
      var h: Handle;
      if prior != null { h := prior; } else { h := new Handle(0, None); }
      h.objectGeneration := objectGeneration;
      if h.secret.None? {
        var created := api.Create(SecretObject(SecretNameOf(obj.Ref()), 0, obj.uid, secretData), fate);
        if created.None? { return null; }
        h.secret := created;
      } else {
        var updated := api.Update(h.secret.value.(data := secretData), fate);
        if updated.None? { return null; }
        h.secret := updated;
      }
      return h;
    }

    /** GetStackOutputs (snapshot.go:87-103). */
    method GetStackOutputs(stackName: string, readable: bool, lookupFails: bool)
      returns (outputs: Outputs<map<string, string>>)
      ensures outputs == OutputsByName(api.secrets, stackName, readable, lookupFails)
    {
      var found := SnapshotByName(api.secrets, stackName, readable);
      if found.Missing? { return Missing(found.error); }
      if lookupFails { return Missing(RootLookupFailed); }
      if found.value.None? { return Outputs(map[]); }
      var resources := found.value.value.resources;
      var k := 0;
      while k < |resources| && resources[k].kind != STACK_TYPE
        invariant 0 <= k <= |resources|
        invariant RootOutputs(resources) == RootOutputs(resources[k..])
      {
        k := k + 1;
      }
      if k == |resources| { return Outputs(map[]); }
      return Outputs(resources[k].outputs);
    }

    /** GetStackResourceOutputs (snapshot.go:118-137), which reads the resources of a snapshot without asking
        whether there is one. */
    method GetStackResourceOutputs(stackName: string, readable: bool)
      returns (outputs: Outputs<map<string, ResourceOutputs>>)
      ensures outputs ==
              match SnapshotByName(api.secrets, stackName, readable)
              case Missing(e) => Missing(e)
              case Outputs(None) => Missing(NilDereference)
              case Outputs(Some(snap)) => Outputs(ResourceOutputsOf(snap.resources))
    {
      var found := SnapshotByName(api.secrets, stackName, readable);
      if found.Missing? { return Missing(found.error); }
      if found.value.None? { return Missing(NilDereference); }
      var resources := found.value.value.resources;
      var pm: map<string, ResourceOutputs> := map[];
      for k := 0 to |resources|
        invariant pm == ResourceOutputsOf(resources[..k])
      {
        assert resources[..k + 1][..k] == resources[..k];
        var r := resources[k];
        if r.deleted { continue; }
        pm := pm[r.urn := ResourceOutputs(r.kind, r.outputs)];
      }
      assert resources[..|resources|] == resources;
      return Outputs(pm);
    }
  }

  // ----- kubeStack -----

  class KubeStack {
    const snapshotter: SecretSnapshotter
    const obj: ApiObject
    var snap: Option<Snapshot>
    var snapHandle: Handle?

    function Name(): SecretName { SecretNameOf(obj.Ref()) }

    predicate OwnHandle()
      reads this, snapHandle
    {
      snapHandle != null && snapHandle.secret.Some? ==> snapHandle.secret.value.name == Name()
    }

    /** The cached snapshot and handle are what a load would find now. */
    predicate InSync()
      reads this, snapHandle, snapshotter.api, obj
    {
      match LoadView(Lookup(snapshotter.api.secrets, Name()), obj.generation)
      case Found(x, g) => snap == Some(x) && snapHandle != null &&
                          snapHandle.secret == Lookup(snapshotter.api.secrets, Name())
      case Absent => Name() !in snapshotter.api.secrets && snap == None && snapHandle == null
      case Failed(_) => false
    }

    /** LoadStack (backend.go:81-95) once GetSnapshot has answered. */
    constructor (snapshotter: SecretSnapshotter, obj: ApiObject, snap: Option<Snapshot>, snapHandle: Handle?)
      ensures this.snapshotter == snapshotter && this.obj == obj && this.snap == snap &&
              this.snapHandle == snapHandle
    {
      this.snapshotter := snapshotter;
      this.obj := obj;
      this.snap := snap;
      this.snapHandle := snapHandle;
    }

    /** getTarget (stack.go:196-214): an operation's base is the cached snapshot, so it is what a load would
        return whenever the cache is in sync. */
    method GetTarget() returns (base: Option<Snapshot>)
      ensures base == snap
      ensures InSync() ==>
                match LoadView(Lookup(snapshotter.api.secrets, Name()), obj.generation)
                case Found(x, _) => base == Some(x)
                case Absent => base == None
                case Failed(_) => false
    {
      base := snap;
    }

    /** update.Save (stack.go:271-283). The write lands exactly when the store accepts the handle's version; an
        answered one becomes the cached snapshot and handle, and any other leaves the cached snapshot, the
        handle and the handle's Secret as they were. From a cache in sync an undisturbed save succeeds, and
        every successful save leaves the cache in sync. */
    method Save(next: Snapshot, fate: Reply) returns (ok: bool)
      requires OwnHandle()
      modifies this, snapHandle, snapshotter.api
      ensures OwnHandle()
      ensures var server, carried := Lookup(old(snapshotter.api.secrets), Name()), old(Carried(snapHandle));
              var lands := fate != Refused && MayLand(Versions(server), Versions(carried));
              && (ok <==> lands && fate.Acked?)
              && (!lands ==> snapshotter.api.secrets == old(snapshotter.api.secrets) &&
                             snapshotter.api.clock == old(snapshotter.api.clock))
              && (lands ==>
                    && snapshotter.api.clock == old(snapshotter.api.clock) + 1
                    && Versions(Lookup(snapshotter.api.secrets, Name())) ==
                       Some(Versioned(snapshotter.api.clock, obj.generation, Some(next)))
                    && DataOf(Lookup(snapshotter.api.secrets, Name())) == Some(EncodeData(Some(next), obj.generation))
                    && forall n | n != Name() ::
                         Lookup(snapshotter.api.secrets, n) == Lookup(old(snapshotter.api.secrets), n))
      ensures ok ==> InSync() && snap == Some(next) && snapHandle != null &&
                     snapHandle.objectGeneration == obj.generation &&
                     snapHandle.secret == Lookup(snapshotter.api.secrets, Name()) &&
                     (old(snapHandle) != null ==> snapHandle == old(snapHandle))
      ensures old(InSync()) ==> (ok <==> fate.Acked?)
      ensures !ok ==> snap == old(snap) && snapHandle == old(snapHandle) &&
                      Carried(snapHandle) == old(Carried(snapHandle))
      ensures !ok && snapHandle != null ==> snapHandle.objectGeneration == obj.generation
      ensures snapHandle == old(snapHandle) || fresh(snapHandle)
      ensures old(snapshotter.api.Valid()) ==> snapshotter.api.Valid()
    {
      var handle := snapshotter.SetSnapshot(obj, Some(next), snapHandle, fate);
      if handle == null { return false; }
      snap := Some(next);
      snapHandle := handle;
      SaveThenLoad(snapshotter.api.secrets[Name()], Some(next), obj.generation, obj.generation);
      return true;
    }
  }

  /** LoadStack (backend.go:81-95): a stack that loads is in sync, except over a Secret that stores no
      snapshot. */
  method LoadStack(snapshotter: SecretSnapshotter, obj: ApiObject, readable: bool)
    returns (stack: KubeStack?, error: LoadError)
    requires snapshotter.api.Valid()
    ensures var loaded := LoadView(Lookup(snapshotter.api.secrets, SecretNameOf(obj.Ref())), obj.generation);
            && (stack == null <==> !readable || loaded.Failed?)
            && (stack == null ==> error == if readable then loaded.error else Unreadable)
    ensures stack != null ==>
              && fresh(stack) && stack.snapshotter == snapshotter && stack.obj == obj && stack.OwnHandle()
              && (stack.snapHandle != null ==> fresh(stack.snapHandle))
              && (match LoadView(Lookup(snapshotter.api.secrets, stack.Name()), obj.generation)
                  case Found(x, _) => stack.snap == Some(x)
                  case _ => stack.snap == None && stack.snapHandle == null)
              && (stack.InSync() <==> LoadView(Lookup(snapshotter.api.secrets, stack.Name()), obj.generation).Found? ||
                                      stack.Name() !in snapshotter.api.secrets)
  {
    var loaded, handle := snapshotter.GetSnapshot(obj, readable);
    error := Unreadable;
    match loaded
    case Failed(e) => return null, e;
    case Absent => stack := new KubeStack(snapshotter, obj, None, null);
    case Found(snap, _) => stack := new KubeStack(snapshotter, obj, Some(snap), handle);
  }
}

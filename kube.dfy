/** The remote, optimistically concurrent object store that the gateway helpers
    talk to: documents addressed by (group, version, plural, namespace, name),
    four verbs (Get, Create, Update, Delete), and a script of injected faults that
    stands for everything the store may do that this program does not control
    (conflicting writers, transport failures). Every remote call consumes one
    entry of the script; once the script is exhausted every call passes.

    The verbs are given twice: as functions on a `World` value (the
    specification) and as methods of the class `Cluster`, whose fields the
    calls update in place. */
module Kube {

  datatype Option<+T> = None | Some(value: T)

  datatype Error =
    | NotFound
    | Conflict
    | AlreadyExists
    | Invalid(reason: string)
    | Transport(reason: string)
    | Message(text: string)
    | Wrapped(context: string, cause: Error)

  datatype Result<+T> = Ok(value: T) | Err(error: Error)

  /** errors.Wrap of the error library: wrapping a nil error yields nil. */
  function Wrap(err: Option<Error>, context: string): (r: Option<Error>)
    ensures r.None? <==> err.None?
  {
    match err
    case None => None
    case Some(e) => Some(Wrapped(context, e))
  }

  /** A v1.ObjectReference, with its APIVersion already split into group and version. */
  datatype ObjectRef = ObjectRef(kind: string, group: string, version: string, name: string, namespace: string)

  /** The address of one document in the store. */
  datatype Key = Key(group: string, version: string, plural: string, namespace: string, name: string)

  /** metadata.resourceVersion: `Unset` is the empty string, `Stamp(n)` a version the store assigned. */
  datatype ResourceVersion = Unset | Stamp(n: nat)

  /** The fields of a claim or composite document that this program reads or writes;
      everything else is carried in `rest`. */
  datatype Doc = Doc(
    namespace: string,
    resourceVersion: ResourceVersion,
    labels: map<string, string>,
    finalizers: seq<string>,
    resourceRef: Option<ObjectRef>,
    claimRef: Option<ObjectRef>,
    rest: map<string, string>)

  /** A document with its store-assigned version forgotten. */
  function Unversioned(d: Doc): Doc
  {
    d.(resourceVersion := Unset)
  }

  /** Two stores hold the same keys and, version stamps aside, the same documents. */
  ghost predicate SameModuloVersions(m: map<Key, Doc>, m': map<Key, Doc>)
  {
    m.Keys == m'.Keys && forall k :: k in m ==> Unversioned(m[k]) == Unversioned(m'[k])
  }

  lemma SameModuloVersionsUpdate(m: map<Key, Doc>, m': map<Key, Doc>, k: Key, d: Doc, d': Doc)
    requires SameModuloVersions(m, m') && Unversioned(d) == Unversioned(d')
    ensures SameModuloVersions(m[k := d], m'[k := d'])
  {
  }

  lemma SameModuloVersionsRemove(m: map<Key, Doc>, m': map<Key, Doc>, k: Key)
    requires SameModuloVersions(m, m')
    ensures SameModuloVersions(m - {k}, m' - {k})
  {
  }

  /** What the store does with the next remote call. */
  datatype Fault = Pass | Fail(err: Error)

  datatype World = World(objects: map<Key, Doc>, faults: seq<Fault>, clock: nat)

  /** The world after a call, and what the call returned. */
  datatype Step<+T> = Step(after: World, out: T)

  const ErrVersionOnCreate := "resourceVersion should not be set on objects to be created"

  /** The next remote call will pass. */
  predicate Passes(f: seq<Fault>)
  {
    f == [] || f[0] == Pass
  }

  /** The script once the next call has consumed its entry. */
  function Rest(f: seq<Fault>): seq<Fault>
  {
    if f == [] then [] else f[1..]
  }

  /** Takes the next entry of the fault script. */
  function Draw(w: World): Step<Fault>
  {
    if |w.faults| == 0 then Step(w, Pass) else Step(w.(faults := w.faults[1..]), w.faults[0])
  }

  function GetCall(w: World, k: Key): (r: Step<Result<Doc>>)
    ensures r.after.objects == w.objects && r.after.clock == w.clock
    ensures r.out.Ok? ==> k in w.objects && r.out.value == w.objects[k]
    ensures Passes(w.faults) ==> r.after.faults == Rest(w.faults)
                                 && r.out == if k in w.objects then Ok(w.objects[k]) else Err(NotFound)
  {
    var d := Draw(w);
    if d.out.Fail? then Step(d.after, Err(d.out.err))
    else if k in w.objects then Step(d.after, Ok(w.objects[k]))
    else Step(d.after, Err(NotFound))
  }

  function CreateCall(w: World, k: Key, d: Doc): (r: Step<Result<Doc>>)
    ensures r.out.Ok? ==> k !in w.objects && d.resourceVersion == Unset
                          && Unversioned(r.out.value) == d
                          && r.after.objects == w.objects[k := r.out.value]
    ensures r.out.Err? ==> r.after.objects == w.objects
    ensures Passes(w.faults) && k !in w.objects && d.resourceVersion == Unset
            ==> r.out.Ok? && r.after.faults == Rest(w.faults)
  {
    var f := Draw(w);
    if f.out.Fail? then Step(f.after, Err(f.out.err))
    else if d.resourceVersion != Unset then Step(f.after, Err(Invalid(ErrVersionOnCreate)))
    else if k in w.objects then Step(f.after, Err(AlreadyExists))
    else
      var stored := d.(resourceVersion := Stamp(w.clock));
      Step(World(w.objects[k := stored], f.after.faults, w.clock + 1), Ok(stored))
  }

  /** An update commits only when it carries the stored version (compare-and-swap). */
  function UpdateCall(w: World, k: Key, d: Doc): (r: Step<Result<Doc>>)
    ensures r.out.Ok? ==> k in w.objects && d.resourceVersion == w.objects[k].resourceVersion
                          && Unversioned(r.out.value) == Unversioned(d)
                          && r.after.objects == w.objects[k := r.out.value]
    ensures r.out.Err? ==> r.after.objects == w.objects
    ensures Passes(w.faults) && k in w.objects && d.resourceVersion == w.objects[k].resourceVersion
            ==> r.out.Ok? && r.after.faults == Rest(w.faults)
  {
    var f := Draw(w);
    if f.out.Fail? then Step(f.after, Err(f.out.err))
    else if k !in w.objects then Step(f.after, Err(NotFound))
    else if d.resourceVersion != w.objects[k].resourceVersion then Step(f.after, Err(Conflict))
    else
      var stored := d.(resourceVersion := Stamp(w.clock));
      Step(World(w.objects[k := stored], f.after.faults, w.clock + 1), Ok(stored))
  }

  /** A delete removes a document only once it has no finalizers; otherwise the
      document stays until the controllers owning the finalizers release it. */
  function DeleteCall(w: World, k: Key): (r: Step<Option<Error>>)
    ensures r.out.None? ==> k in w.objects
                            && r.after.objects == if w.objects[k].finalizers == [] then w.objects - {k} else w.objects
    ensures r.out.Some? ==> r.after.objects == w.objects
    ensures Passes(w.faults) && k in w.objects ==> r.out.None? && r.after.faults == Rest(w.faults)
  {
    var f := Draw(w);
    if f.out.Fail? then Step(f.after, Some(f.out.err))
    else if k !in w.objects then Step(f.after, Some(NotFound))
    else if w.objects[k].finalizers == [] then Step(f.after.(objects := w.objects - {k}), None)
    else Step(f.after, None)
  }

  /** The store, updated in place by the remote calls. */
  class Cluster {
    var objects: map<Key, Doc>
    var faults: seq<Fault>
    var clock: nat

    function State(): World
      reads this
    {
      World(objects, faults, clock)
    }

    method NextFault() returns (f: Fault)
      modifies this`faults
      ensures Step(State(), f) == Draw(old(State()))
    {
      if |faults| == 0 {
        f := Pass;
      } else {
        f := faults[0];
        faults := faults[1..];
      }
    }

    method Get(k: Key) returns (r: Result<Doc>)
      modifies this
      ensures Step(State(), r) == GetCall(old(State()), k)
    {
      var f := NextFault();
      if f.Fail? {
        r := Err(f.err);
      } else if k in objects {
        r := Ok(objects[k]);
      } else {
        r := Err(NotFound);
      }
    }

    method Create(k: Key, d: Doc) returns (r: Result<Doc>)
      modifies this
      ensures Step(State(), r) == CreateCall(old(State()), k, d)
    {
      var f := NextFault();
      if f.Fail? {
        r := Err(f.err);
      } else if d.resourceVersion != Unset {
        r := Err(Invalid(ErrVersionOnCreate));
      } else if k in objects {
        r := Err(AlreadyExists);
      } else {
        var stored := d.(resourceVersion := Stamp(clock));
        objects := objects[k := stored];
        clock := clock + 1;
        r := Ok(stored);
      }
    }

    method Update(k: Key, d: Doc) returns (r: Result<Doc>)
      modifies this
      ensures Step(State(), r) == UpdateCall(old(State()), k, d)
    {
      var f := NextFault();
      if f.Fail? {
        r := Err(f.err);
      } else if k !in objects {
        r := Err(NotFound);
      } else if d.resourceVersion != objects[k].resourceVersion {
        r := Err(Conflict);
      } else {
        var stored := d.(resourceVersion := Stamp(clock));
        objects := objects[k := stored];
        clock := clock + 1;
        r := Ok(stored);
      }
    }

    method Delete(k: Key) returns (r: Option<Error>)
      modifies this
      ensures Step(State(), r) == DeleteCall(old(State()), k)
    {
      var f := NextFault();
      if f.Fail? {
        r := Some(f.err);
      } else if k !in objects {
        r := Some(NotFound);
      } else if objects[k].finalizers == [] {
        objects := objects - {k};
        r := None;
      } else {
        r := None;
      }
    }
  }
}

/** The claim migration of migrate/claim.go: the parsing of the user's
    TYPE[/NAME] token, and `Run`, which checks its preconditions against the
    store, then creates the destination claim, repoints the composite at it and
    retires the source claim, in that order and with no rollback. */
module Migrate {
  import opened Kube
  import opened Resource

  /** The command's arguments: the claim token, the source namespace, the
      destination namespace and the optional separately supplied name. */
  datatype Cmd = Cmd(claim: string, namespace: string, destNamespace: string, name: string)

  const ErrCreateDestClaim := "cannot create destination claim "
  const ErrGetResource := "cannot get requested resource"
  const ErrGetMapping := "cannot get mapping for resource"
  const ErrMissingName := "missing name, must be provided separately 'TYPE[.VERSION][.GROUP] [NAME]' or in the 'TYPE[.VERSION][.GROUP][/NAME]' format"
  const ErrNameDoubled := "name provided twice, must be provided separately 'TYPE[.VERSION][.GROUP] [NAME]' or in the 'TYPE[.VERSION][.GROUP][/NAME]' format"
  const ErrNotNamespaced := " resource not namespaces"
  const ErrInvalidResource := "invalid resource, must be provided in the 'TYPE[.VERSION][.GROUP][/NAME]' format"
  const ErrInvalidResourceAndName := "invalid resource and name"
  const ErrSourceNotFound := "source Claim not found"
  const ErrUpdateComposite := "unable to update composite"
  const ErrDeleteSource := "unable to delete source claim"
  const ErrNilReference := "invalid memory address or nil pointer dereference"

  function NamespaceMissing(ns: string): string
  {
    "\U{274C} cannot create new claim, namespace " + ns + " does not exist"
  }

  function DestinationTaken(name: string, ns: string): string
  {
    "Cannot create new claim: claim " + name + " in namespace " + ns + " already exists "
  }

  // ---------------------------------------------------------------------------
  // The TYPE[/NAME] token

  /** Number of '/' in a string. */
  function Slashes(s: string): nat
  {
    if |s| == 0 then 0 else (if s[0] == '/' then 1 else 0) + Slashes(s[1..])
  }

  /** The pieces joined back with '/'. */
  function Join(parts: seq<string>): string
    requires |parts| >= 1
  {
    if |parts| == 1 then parts[0] else parts[0] + "/" + Join(parts[1..])
  }

  /** strings.Split(s, "/"): one more piece than there are slashes, no piece holds
      a slash, and joining the pieces gives `s` back. */
  function Split(s: string): (parts: seq<string>)
    ensures |parts| == Slashes(s) + 1
    ensures forall i :: 0 <= i < |parts| ==> '/' !in parts[i]
    ensures Join(parts) == s
  {
    if |s| == 0 then [""]
    else
      var rest := Split(s[1..]);
      if s[0] == '/' then
        assert s == [s[0]] + s[1..];
        [""] + rest
      else
        var parts := [[s[0]] + rest[0]] + rest[1..];
        assert parts[1..] == rest[1..];
        assert s == [s[0]] + s[1..];
        parts
  }

  /** Splitting at a first slash: the part before it is the first piece. */
  lemma {:induction false} SplitAtSlash(a: string, b: string)
    requires '/' !in a
    ensures Split(a + "/" + b) == [a] + Split(b)
  {
    if |a| > 0 {
      SplitAtSlash(a[1..], b);
      assert (a + "/" + b)[1..] == a[1..] + "/" + b;
      assert [a[0]] + a[1..] == a;
      var rest := Split(a[1..] + "/" + b);
      assert rest[1..] == Split(b);
    } else {
      assert (a + "/" + b)[1..] == b;
    }
  }

  /** Joining slash-free pieces and splitting again gives the pieces back. */
  lemma {:induction false} SplitJoin(parts: seq<string>)
    requires |parts| >= 1
    requires forall i :: 0 <= i < |parts| ==> '/' !in parts[i]
    ensures Split(Join(parts)) == parts
  {
    if |parts| == 1 {
      var s := parts[0];
      assert Slashes(s) == 0 by { SlashFree(s); }
      assert Split(s) == [Split(s)[0]];
    } else {
      SplitJoin(parts[1..]);
      SplitAtSlash(parts[0], Join(parts[1..]));
      assert parts == [parts[0]] + parts[1..];
    }
  }

  lemma {:induction false} SlashFree(s: string)
    requires '/' !in s
    ensures Slashes(s) == 0
  {
    if |s| > 0 {
      SlashFree(s[1..]);
    }
  }

  /** Cmd.getResourceAndName: the type token and the claim name. */
  function GetResourceAndName(cmd: Cmd): (r: Result<(string, string)>)
    ensures cmd.claim == "" ==> r == Err(Message(ErrInvalidResource))
    ensures Slashes(cmd.claim) >= 2 ==> r == Err(Message(ErrInvalidResource))
    ensures r.Ok? ==> '/' !in r.value.0
  {
    if cmd.claim == "" then Err(Message(ErrInvalidResource))
    else
      var parts := Split(cmd.claim);
      if |parts| == 1 then
        if cmd.name == "" then Err(Message(ErrMissingName)) else Ok((parts[0], cmd.name))
      else if |parts| == 2 then
        if cmd.name != "" then Err(Message(ErrNameDoubled)) else Ok((parts[0], parts[1]))
      else Err(Message(ErrInvalidResource))
  }

  /** A token without a slash is the type alone: the name must come separately. */
  lemma TokenWithoutSlash(cmd: Cmd)
    requires cmd.claim != "" && '/' !in cmd.claim
    ensures GetResourceAndName(cmd)
            == if cmd.name == "" then Err(Message(ErrMissingName)) else Ok((cmd.claim, cmd.name))
  {
    SplitJoin([cmd.claim]);
  }

  /** A token with exactly one slash, at `i`, carries the name itself (possibly
      empty, as in "kind/"); a separately supplied name is then refused. */
  lemma TokenWithOneSlash(cmd: Cmd, i: nat)
    requires i < |cmd.claim| && cmd.claim[i] == '/'
    requires '/' !in cmd.claim[..i] && '/' !in cmd.claim[i + 1..]
    ensures GetResourceAndName(cmd)
            == if cmd.name != "" then Err(Message(ErrNameDoubled))
               else Ok((cmd.claim[..i], cmd.claim[i + 1..]))
  {
    var a, b := cmd.claim[..i], cmd.claim[i + 1..];
    assert Join([a, b]) == cmd.claim by {
      assert [a, b][1..] == [b];
      assert cmd.claim == a + "/" + b;
    }
    SplitJoin([a, b]);
  }

  /** Round trip: a slash-free type and name written as "type/name", with no
      separate name, parse back to that type and name. */
  lemma TokenRoundTrip(t: string, n: string, ns: string, dest: string)
    requires '/' !in t && '/' !in n
    ensures GetResourceAndName(Cmd(t + "/" + n, ns, dest, "")) == Ok((t, n))
  {
    SplitAtSlash(t, n);
    SplitJoin([n]);
  }

  // ---------------------------------------------------------------------------
  // The migration

  /** What the type resolver answers for a type token. */
  datatype Mapping = Mapping(group: string, version: string, kind: string, namespaced: bool)

  /** How Run ends: a nil error, a returned error, or a crash. */
  datatype Exit = Success | Failure(err: Error) | Panic(reason: string)

  function ExitOf(err: Option<Error>): Exit
  {
    if err.None? then Success else Failure(err.value)
  }

  /** The reference used to ask whether a namespace exists. */
  function NamespaceRef(ns: string): (r: ObjectRef)
    ensures KeyOf(r) == Key("", "v1", "namespaces", "", ns)
  {
    ObjectRef("Namespace", "", "v1", ns, "")
  }

  /** A claim reference of the resolved type: addressed by the type's group,
      version and plural, in namespace `ns`, under `name`. */
  function ClaimRef(m: Mapping, name: string, ns: string): (r: ObjectRef)
    ensures KeyOf(r) == Key(m.group, m.version, Plural(m.kind), ns, name)
  {
    ObjectRef(m.kind, m.group, m.version, name, ns)
  }

  /** The destination claim: the source document with the destination namespace and
      no resource version, so that the store creates it afresh. */
  function DestinationCopy(src: Doc, ns: string): (r: Doc)
    ensures r.namespace == ns && r.resourceVersion == Unset
    ensures r.(namespace := src.namespace, resourceVersion := src.resourceVersion) == src
  {
    src.(namespace := ns, resourceVersion := Unset)
  }

  /** The created claim's own reference, as handed to the composite. */
  function ClaimReference(dst: ObjectRef, created: Doc): (r: ObjectRef)
    ensures r.namespace == created.namespace && r.(namespace := dst.namespace) == dst
  {
    dst.(namespace := created.namespace)
  }

  /** Where the checks leave Run: stopped with an exit, or ready to mutate with the
      source and destination references and the fetched source document. */
  datatype Checked = Abort(exit: Exit) | Proceed(src: ObjectRef, dst: ObjectRef, doc: Doc)

  /** The checks of Run, in order: destination namespace, token, type, scope, source,
      destination. None of them writes. */
  function Checks(w: World, cmd: Cmd, resolve: string -> Result<Mapping>): (r: Step<Checked>)
    ensures r.after.objects == w.objects
    ensures r.out.Proceed? ==>
              && GetResourceAndName(cmd).Ok?
              && var res := GetResourceAndName(cmd).value;
              && resolve(res.0).Ok? && resolve(res.0).value.namespaced
              && r.out.src == ClaimRef(resolve(res.0).value, res.1, cmd.namespace)
              && r.out.dst == r.out.src.(namespace := cmd.destNamespace)
              && KeyOf(r.out.src) in w.objects && r.out.doc == w.objects[KeyOf(r.out.src)]
    ensures w.faults == [] ==> r.after.faults == []
    ensures r.out.Abort? ==> r.out.exit.Success? || r.out.exit.Failure?
    ensures var nsl := Lookup(w, NamespaceRef(cmd.destNamespace)); var p := GetResourceAndName(cmd);
            && (nsl.out.err.Some? ==> r.out == Abort(Failure(Wrapped(ErrGetResource, nsl.out.err.value))))
            && (nsl.out.found && p.Err? ==> r.out == Abort(Failure(Wrapped(ErrInvalidResourceAndName, p.error))))
            && (nsl.out.found && p.Ok? && resolve(p.value.0).Err? ==>
                  r.out == Abort(Failure(Wrapped(ErrGetMapping, resolve(p.value.0).error))))
            && (r.out == Abort(Success) ==>
                  && p.Ok? && resolve(p.value.0).Ok?
                  && var m := resolve(p.value.0).value;
                  (!m.namespaced
                   || Lookup(nsl.after, ClaimRef(m, p.value.1, cmd.namespace)).out == Fetched(None, false, None)))
  {
    var nsl := Lookup(w, NamespaceRef(cmd.destNamespace));
    if nsl.out.err.Some? then Step(nsl.after, Abort(Failure(Wrapped(ErrGetResource, nsl.out.err.value))))
    else if !nsl.out.found then Step(nsl.after, Abort(Failure(Message(NamespaceMissing(cmd.destNamespace)))))
    else match GetResourceAndName(cmd)
      case Err(e) => Step(nsl.after, Abort(Failure(Wrapped(ErrInvalidResourceAndName, e))))
      case Ok(res) =>
        match resolve(res.0)
        case Err(e) => Step(nsl.after, Abort(Failure(Wrapped(ErrGetMapping, e))))
        case Ok(m) =>
          if !m.namespaced then Step(nsl.after, Abort(ExitOf(Wrap(None, ErrNotNamespaced))))
          else
            var src := ClaimRef(m, res.1, cmd.namespace);
            var sl := Lookup(nsl.after, src);
            if sl.out.err.Some? then Step(sl.after, Abort(Failure(Wrapped(ErrGetResource, sl.out.err.value))))
            else if !sl.out.found then Step(sl.after, Abort(ExitOf(Wrap(sl.out.err, ErrSourceNotFound))))
            else
              var dst := src.(namespace := cmd.destNamespace);
              var dl := Lookup(sl.after, dst);
              if dl.out.err.Some? then Step(dl.after, Abort(Failure(Wrapped(ErrGetResource, dl.out.err.value))))
              else if dl.out.found then Step(dl.after, Abort(Failure(Message(DestinationTaken(res.1, cmd.destNamespace)))))
              else Step(dl.after, Proceed(src, dst, sl.out.u.value))
  }

  /** The three mutations of Run, each only if the previous one succeeded. */
  function Mutations(w: World, src: ObjectRef, dst: ObjectRef, doc: Doc): (r: Step<Exit>)
    ensures r.out.Panic? ==> r.out == Panic(ErrNilReference) && doc.resourceRef.None?
    ensures r.out.Failure? ==> r.out.err.Wrapped?
                               && r.out.err.context in {ErrCreateDestClaim, ErrUpdateComposite, ErrDeleteSource}
  {
    var cr := Creation(w, dst, DestinationCopy(doc, dst.namespace));
    if cr.out.Err? then Step(cr.after, Failure(Wrapped(ErrCreateDestClaim, cr.out.error)))
    else
      match cr.out.value.resourceRef
      case None => Step(cr.after, Panic(ErrNilReference))
      case Some(xr) =>
        var up := Retried(cr.after, RepairComposite(CompositeKey(xr), ClaimReference(dst, cr.out.value)), DefaultSteps, None);
        if up.out.Some? then Step(up.after, Failure(Wrapped(ErrUpdateComposite, up.out.value)))
        else
          var del := SourceRetirement(up.after, src);
          if del.out.Some? then Step(del.after, Failure(Wrapped(ErrDeleteSource, del.out.value)))
          else Step(del.after, Success)
  }

  /** Cmd.Run, from the store's point of view. */
  function Migration(w: World, cmd: Cmd, resolve: string -> Result<Mapping>): (r: Step<Exit>)
    ensures r.after.objects != w.objects ==> Checks(w, cmd, resolve).out.Proceed?
    ensures r.out.Panic? ==> r.out == Panic(ErrNilReference)
  {
    var ch := Checks(w, cmd, resolve);
    match ch.out
    case Abort(exit) => Step(ch.after, exit)
    case Proceed(src, dst, doc) => Mutations(ch.after, src, dst, doc)
  }

  method Run(c: Cluster, cmd: Cmd, resolve: string -> Result<Mapping>) returns (exit: Exit)
    modifies c
    ensures Step(c.State(), exit) == Migration(old(c.State()), cmd, resolve)
  {
    ghost var w0 := c.State();
    // check if destination Namespace exists
    var nsDoc, re, err := GetResource(c, NamespaceRef(cmd.destNamespace));
    if err.Some? {
      return Failure(Wrapped(ErrGetResource, err.value));
    }
    if !re {
      return Failure(Message(NamespaceMissing(cmd.destNamespace)));
    }
    ghost var w1 := c.State();

    var parsed := GetResourceAndName(cmd);
    if parsed.Err? {
      return Failure(Wrapped(ErrInvalidResourceAndName, parsed.error));
    }
    var res, name := parsed.value.0, parsed.value.1;

    var mapping := resolve(res);
    if mapping.Err? {
      return Failure(Wrapped(ErrGetMapping, mapping.error));
    }
    if !mapping.value.namespaced {
      return ExitOf(Wrap(None, ErrNotNamespaced));
    }

    var srcRef := ClaimRef(mapping.value, name, cmd.namespace);
    var srcClaim, found, srcErr := GetResource(c, srcRef);
    if srcErr.Some? {
      return Failure(Wrapped(ErrGetResource, srcErr.value));
    }
    if !found {
      return ExitOf(Wrap(srcErr, ErrSourceNotFound));
    }
    ghost var w2 := c.State();

    var dstRef := srcRef.(namespace := cmd.destNamespace);
    var dstDoc, taken, dstErr := GetResource(c, dstRef);
    if dstErr.Some? {
      return Failure(Wrapped(ErrGetResource, dstErr.value));
    }
    if taken {
      return Failure(Message(DestinationTaken(name, cmd.destNamespace)));
    }
    ghost var w3 := c.State();
    assert Checks(w0, cmd, resolve) == Step(w3, Proceed(srcRef, dstRef, srcClaim.value));

    // create the destination Claim
    var dstClaim := DestinationCopy(srcClaim.value, cmd.destNamespace);
    var created := CreateResource(c, dstRef, dstClaim);
    if created.Err? {
      return Failure(Wrapped(ErrCreateDestClaim, created.error));
    }
    if created.value.resourceRef.None? {
      return Panic(ErrNilReference);
    }
    var xr := created.value.resourceRef.value;

    // Update the Composite
    var updateErr := UpdateCompositeWithNewClaim(c, xr, ClaimReference(dstRef, created.value));
    if updateErr.Some? {
      return Failure(Wrapped(ErrUpdateComposite, updateErr.value));
    }

    // Delete the Source Claim
    var deleteErr := DeleteSourceClaim(c, srcRef);
    if deleteErr.Some? {
      return Failure(Wrapped(ErrDeleteSource, deleteErr.value));
    }
    return Success;
  }

  // ---------------------------------------------------------------------------
  // What Run does to the store

  /** The store once the destination claim exists, versions aside. */
  ghost function WithCopy(m: map<Key, Doc>, dst: ObjectRef, doc: Doc): map<Key, Doc>
  {
    m[KeyOf(dst) := DestinationCopy(doc, dst.namespace)]
  }

  /** The store once the composite named by `xr` points at `claim`, versions aside. */
  ghost function WithRepair(m: map<Key, Doc>, xr: ObjectRef, claim: ObjectRef): map<Key, Doc>
    requires CompositeKey(xr) in m
  {
    m[CompositeKey(xr) := Repaired(m[CompositeKey(xr)], claim)]
  }

  /** The keys the mutations may write: source, destination, and the composite the
      source claim refers to. */
  function Touched(src: ObjectRef, dst: ObjectRef, doc: Doc): set<Key>
  {
    {KeyOf(src), KeyOf(dst)} + (if doc.resourceRef.Some? then {CompositeKey(doc.resourceRef.value)} else {})
  }

  /** The states the mutations can end in, each reached only through the previous
      one: nothing written (creation failed); the destination claim created and
      nothing else (composite repair failed, or the claim has no resource reference
      and Run crashes); the composite repointed at the destination claim as well
      (retirement failed, the source claim intact or already severed); the source
      claim removed (success). */
  ghost predicate MutationsEnd(m: map<Key, Doc>, src: ObjectRef, dst: ObjectRef, doc: Doc, r: Step<Exit>)
  {
    var S, D := KeyOf(src), KeyOf(dst);
    var m1 := WithCopy(m, dst, doc);
    || (r.out.Failure? && r.out.err.Wrapped? && r.out.err.context == ErrCreateDestClaim && r.after.objects == m)
    || (D !in m && SameModuloVersions(r.after.objects, m1)
        && (if doc.resourceRef.None? then r.out == Panic(ErrNilReference)
            else r.out.Failure? && r.out.err.Wrapped? && r.out.err.context == ErrUpdateComposite))
    || (D !in m && doc.resourceRef.Some? && CompositeKey(doc.resourceRef.value) in m1 && S in m1
        && var m2 := WithRepair(m1, doc.resourceRef.value, dst);
        || (r.out.Failure? && r.out.err.Wrapped? && r.out.err.context == ErrDeleteSource
            && (SameModuloVersions(r.after.objects, m2)
                || SameModuloVersions(r.after.objects, m2[S := Severed(m2[S])])))
        || (r.out == Success && SameModuloVersions(r.after.objects, m2 - {S})))
  }

  /** Repairing the composite and retiring the source, from a store that holds,
      versions aside, `m1`: the composite repair either fails writing nothing, or
      commits and is followed by the retirement, which fails leaving the source
      intact or severed, or removes it. */
  lemma RepairThenRetire(w: World, src: ObjectRef, dst: ObjectRef, xr: ObjectRef, m1: map<Key, Doc>)
    requires SameModuloVersions(w.objects, m1) && KeyOf(src) in m1
    ensures var up := Retried(w, RepairComposite(CompositeKey(xr), dst), DefaultSteps, None);
            && (up.out.Some? ==> up.after.objects == w.objects)
            && (up.out.None? ==>
                  && CompositeKey(xr) in m1
                  && var m2 := WithRepair(m1, xr, dst);
                  && var del := SourceRetirement(up.after, src);
                  && (del.out.Some? ==>
                        SameModuloVersions(del.after.objects, m2)
                        || SameModuloVersions(del.after.objects, m2[KeyOf(src) := Severed(m2[KeyOf(src)])]))
                  && (del.out.None? ==> SameModuloVersions(del.after.objects, m2 - {KeyOf(src)})))
  {
    var S, X := KeyOf(src), CompositeKey(xr);
    var a := RepairComposite(X, dst);
    var up := Retried(w, a, DefaultSteps, None);
    RetriedOutcome(w, a, DefaultSteps, None);
    if up.out.None? {
      var m2 := WithRepair(m1, xr, dst);
      SameModuloVersionsUpdate(w.objects, m1, X, up.after.objects[X], Repaired(m1[X], dst));
      var del := SourceRetirement(up.after, src);
      SourceRetirementOutcome(up.after, src);
      if del.out.Some? {
        if del.after.objects != up.after.objects {
          SameModuloVersionsUpdate(up.after.objects, m2, S, del.after.objects[S], Severed(m2[S]));
        }
      } else {
        SameModuloVersionsRemove(up.after.objects, m2, S);
      }
    }
  }

  /** The mutations, whatever the store answers, end in one of the ordered end states. */
  lemma MutationsOutcome(w: World, src: ObjectRef, dst: ObjectRef, doc: Doc)
    requires KeyOf(src) in w.objects
    ensures MutationsEnd(w.objects, src, dst, doc, Mutations(w, src, dst, doc))
  {
    var m := w.objects;
    var D := KeyOf(dst);
    var copy := DestinationCopy(doc, dst.namespace);
    var cr := Creation(w, dst, copy);
    if cr.out.Ok? {
      var created := cr.out.value;
      var m1 := WithCopy(m, dst, doc);
      SameModuloVersionsUpdate(m, m, D, created, copy);
      assert created.resourceRef == doc.resourceRef;
      if created.resourceRef.Some? {
        assert ClaimReference(dst, created) == dst;
        RepairThenRetire(cr.after, src, dst, created.resourceRef.value, m1);
      }
    }
  }

  /** The mutations write nothing outside the source, the destination and the
      composite, and create no key but the destination. */
  lemma MutationsFrame(w: World, src: ObjectRef, dst: ObjectRef, doc: Doc)
    ensures var r := Mutations(w, src, dst, doc);
            && r.after.objects.Keys <= w.objects.Keys + {KeyOf(dst)}
            && forall k :: k in w.objects && k !in Touched(src, dst, doc)
                           ==> k in r.after.objects && r.after.objects[k] == w.objects[k]
  {
    var copy := DestinationCopy(doc, dst.namespace);
    var cr := Creation(w, dst, copy);
    if cr.out.Ok? && cr.out.value.resourceRef.Some? {
      var created := cr.out.value;
      assert created.resourceRef == doc.resourceRef;
      var a := RepairComposite(CompositeKey(created.resourceRef.value), ClaimReference(dst, created));
      var up := Retried(cr.after, a, DefaultSteps, None);
      RetriedOutcome(cr.after, a, DefaultSteps, None);
      if up.out.None? {
        SourceRetirementOutcome(up.after, src);
      }
    }
  }

  /** Run, whatever the store answers: a check that stops it writes nothing, and
      past the checks it ends in one of the ordered end states of the mutations,
      writing nothing outside the source, destination and composite keys. */
  lemma MigrationEndStates(w: World, cmd: Cmd, resolve: string -> Result<Mapping>)
    ensures var ch := Checks(w, cmd, resolve); var r := Migration(w, cmd, resolve);
            && (ch.out.Abort? ==> r.out == ch.out.exit && r.after.objects == w.objects)
            && (ch.out.Proceed? ==>
                  && MutationsEnd(w.objects, ch.out.src, ch.out.dst, ch.out.doc, r)
                  && r.after.objects.Keys <= w.objects.Keys + {KeyOf(ch.out.dst)}
                  && forall k :: k in w.objects && k !in Touched(ch.out.src, ch.out.dst, ch.out.doc)
                                 ==> k in r.after.objects && r.after.objects[k] == w.objects[k])
  {
    var ch := Checks(w, cmd, resolve);
    if ch.out.Proceed? {
      MutationsOutcome(ch.after, ch.out.src, ch.out.dst, ch.out.doc);
      MutationsFrame(ch.after, ch.out.src, ch.out.dst, ch.out.doc);
    }
  }

  /** The destination namespace is checked before anything else: when the store
      answers that it does not exist, Run fails naming it, whatever the token, and
      writes nothing. */
  lemma NamespaceCheckedFirst(w: World, cmd: Cmd, resolve: string -> Result<Mapping>)
    requires Passes(w.faults) && KeyOf(NamespaceRef(cmd.destNamespace)) !in w.objects
    ensures var r := Migration(w, cmd, resolve);
            r.out == Failure(Message(NamespaceMissing(cmd.destNamespace))) && r.after.objects == w.objects
  {
  }

  /** The two silent exits: with every call passing, a type that is not namespaced,
      or a source claim that is absent, ends Run with a nil error (the error it
      wraps is nil) and nothing written. */
  lemma SilentSuccess(w: World, cmd: Cmd, resolve: string -> Result<Mapping>)
    requires w.faults == [] && KeyOf(NamespaceRef(cmd.destNamespace)) in w.objects
    requires GetResourceAndName(cmd).Ok?
    requires var res := GetResourceAndName(cmd).value;
             && resolve(res.0).Ok?
             && (!resolve(res.0).value.namespaced
                 || KeyOf(ClaimRef(resolve(res.0).value, res.1, cmd.namespace)) !in w.objects)
    ensures var r := Migration(w, cmd, resolve);
            r.out == Success && r.after.objects == w.objects
  {
  }

  /** An existing claim of the same name in the destination namespace stops Run
      before any create, update or delete. */
  lemma DestinationTakenAborts(w: World, cmd: Cmd, resolve: string -> Result<Mapping>)
    requires w.faults == [] && KeyOf(NamespaceRef(cmd.destNamespace)) in w.objects
    requires GetResourceAndName(cmd).Ok?
    requires var res := GetResourceAndName(cmd).value;
             && resolve(res.0).Ok? && resolve(res.0).value.namespaced
             && var src := ClaimRef(resolve(res.0).value, res.1, cmd.namespace);
             && KeyOf(src) in w.objects && KeyOf(src.(namespace := cmd.destNamespace)) in w.objects
    ensures var r := Migration(w, cmd, resolve);
            && r.out == Failure(Message(DestinationTaken(GetResourceAndName(cmd).value.1, cmd.destNamespace)))
            && r.after.objects == w.objects
  {
  }

  /** The mutations complete when the store lets every call through apart from
      fewer conflicting composite updates than the retry budget: the destination
      claim holds the source document, the composite points at it, and the source
      claim is gone. */
  lemma MutationsComplete(w: World, src: ObjectRef, dst: ObjectRef, doc: Doc, n: nat)
    requires n < DefaultSteps && (w.faults == [] || w.faults == [Pass] + Conflicts(n))
    requires KeyOf(src) in w.objects && KeyOf(dst) !in w.objects
    requires doc.resourceRef.Some? && CompositeKey(doc.resourceRef.value) in w.objects
    ensures var r := Mutations(w, src, dst, doc);
            && r.out == Success
            && SameModuloVersions(r.after.objects,
                                  WithRepair(WithCopy(w.objects, dst, doc), doc.resourceRef.value, dst) - {KeyOf(src)})
  {
    var copy := DestinationCopy(doc, dst.namespace);
    var cr := Creation(w, dst, copy);
    assert cr.out.Ok?;
    var created := cr.out.value;
    assert created.resourceRef == doc.resourceRef;
    var X := CompositeKey(created.resourceRef.value);
    assert ClaimReference(dst, created) == dst;
    var a := RepairComposite(X, dst);
    if w.faults != [] {
      RetriedAbsorbsConflicts(cr.after, a, DefaultSteps, None, n);
    }
    var up := Retried(cr.after, a, DefaultSteps, None);
    RetriedOutcome(cr.after, a, DefaultSteps, None);
    assert up.out.None? && up.after.faults == [];
    SourceRetirementOutcome(up.after, src);
    MutationsOutcome(w, src, dst, doc);
  }

  /** Run is not atomic: when every composite update conflicts until the retry
      budget is spent, Run fails with the last conflict, wrapped, and leaves the
      destination claim created beside the untouched source claim and composite. */
  lemma MutationsStrandCopy(w: World, src: ObjectRef, dst: ObjectRef, doc: Doc)
    requires w.faults == [Pass] + Conflicts(DefaultSteps)
    requires KeyOf(src) in w.objects && KeyOf(dst) !in w.objects
    requires doc.resourceRef.Some? && CompositeKey(doc.resourceRef.value) in w.objects
    ensures var r := Mutations(w, src, dst, doc);
            && r.out == Failure(Wrapped(ErrUpdateComposite, Conflict))
            && KeyOf(dst) in r.after.objects
            && r.after.objects == w.objects[KeyOf(dst) := r.after.objects[KeyOf(dst)]]
            && Unversioned(r.after.objects[KeyOf(dst)]) == DestinationCopy(doc, dst.namespace)
  {
    var copy := DestinationCopy(doc, dst.namespace);
    var cr := Creation(w, dst, copy);
    assert cr.out.Ok? && cr.after.faults == Conflicts(DefaultSteps);
    var created := cr.out.value;
    assert created.resourceRef == doc.resourceRef;
    var a := RepairComposite(CompositeKey(doc.resourceRef.value), ClaimReference(dst, created));
    RetriedExhausts(cr.after, a, DefaultSteps, None);
  }

  /** The checks let a well-formed request through: three fetches that the store
      lets pass, then the source and destination references and the source document. */
  lemma ChecksPass(w: World, cmd: Cmd, resolve: string -> Result<Mapping>, tail: seq<Fault>)
    requires (w.faults == [] && tail == []) || w.faults == [Pass, Pass, Pass] + tail
    requires KeyOf(NamespaceRef(cmd.destNamespace)) in w.objects
    requires GetResourceAndName(cmd).Ok?
    requires var res := GetResourceAndName(cmd).value;
             && resolve(res.0).Ok? && resolve(res.0).value.namespaced
             && var src := ClaimRef(resolve(res.0).value, res.1, cmd.namespace);
             && KeyOf(src) in w.objects && KeyOf(src.(namespace := cmd.destNamespace)) !in w.objects
    ensures var res := GetResourceAndName(cmd).value;
            var src := ClaimRef(resolve(res.0).value, res.1, cmd.namespace);
            var ch := Checks(w, cmd, resolve);
            && ch.out == Proceed(src, src.(namespace := cmd.destNamespace), w.objects[KeyOf(src)])
            && ch.after.faults == tail
  {
    var res := GetResourceAndName(cmd).value;
    var src := ClaimRef(resolve(res.0).value, res.1, cmd.namespace);
    var nsl := Lookup(w, NamespaceRef(cmd.destNamespace));
    assert nsl.after.faults == [] || nsl.after.faults == [Pass, Pass] + tail;
    var sl := Lookup(nsl.after, src);
    assert sl.after.faults == [] || sl.after.faults == [Pass] + tail;
    var dl := Lookup(sl.after, src.(namespace := cmd.destNamespace));
    assert dl.after.faults == tail;
  }

  /** What the completed store holds, read off its description modulo versions. */
  lemma CompletedStore(m: map<Key, Doc>, r: map<Key, Doc>, src: ObjectRef, dst: ObjectRef, doc: Doc)
    requires KeyOf(src) != KeyOf(dst) && doc.resourceRef.Some?
    requires var X := CompositeKey(doc.resourceRef.value);
             X in m && X != KeyOf(src) && X != KeyOf(dst)
    requires SameModuloVersions(r, WithRepair(WithCopy(m, dst, doc), doc.resourceRef.value, dst) - {KeyOf(src)})
    ensures var X := CompositeKey(doc.resourceRef.value);
            && KeyOf(src) !in r
            && KeyOf(dst) in r && Unversioned(r[KeyOf(dst)]) == Unversioned(DestinationCopy(doc, dst.namespace))
            && X in r && r[X].claimRef == Some(dst)
            && ClaimNamespaceLabel in r[X].labels && r[X].labels[ClaimNamespaceLabel] == dst.namespace
  {
    var X := CompositeKey(doc.resourceRef.value);
    var m2 := WithRepair(WithCopy(m, dst, doc), doc.resourceRef.value, dst) - {KeyOf(src)};
    assert m2[X] == Repaired(m[X], dst);
    assert Unversioned(r[X]) == Unversioned(m2[X]);
  }

  /** The migration Run exists for. With the destination namespace present, a
      namespaced type, the source claim present and bound to a composite, and no
      claim of that name in the destination namespace, Run succeeds when every
      call passes, or when the only trouble is fewer conflicting composite updates
      than the retry budget: the source claim is gone, the destination claim holds
      the source document (its version aside), and the composite names the
      destination claim and carries its namespace as the claim-namespace label. */
  lemma MigrationCompletes(w: World, cmd: Cmd, resolve: string -> Result<Mapping>, n: nat)
    requires n < DefaultSteps && (w.faults == [] || w.faults == [Pass, Pass, Pass, Pass] + Conflicts(n))
    requires KeyOf(NamespaceRef(cmd.destNamespace)) in w.objects
    requires GetResourceAndName(cmd).Ok?
    requires var res := GetResourceAndName(cmd).value;
             && resolve(res.0).Ok? && resolve(res.0).value.namespaced
             && var src := ClaimRef(resolve(res.0).value, res.1, cmd.namespace);
             && KeyOf(src) in w.objects && KeyOf(src.(namespace := cmd.destNamespace)) !in w.objects
             && w.objects[KeyOf(src)].resourceRef.Some?
             && var X := CompositeKey(w.objects[KeyOf(src)].resourceRef.value);
             && X in w.objects && X != KeyOf(src)
    ensures var res := GetResourceAndName(cmd).value;
            var src := ClaimRef(resolve(res.0).value, res.1, cmd.namespace);
            var dst := src.(namespace := cmd.destNamespace);
            var doc := w.objects[KeyOf(src)];
            var X := CompositeKey(doc.resourceRef.value);
            var r := Migration(w, cmd, resolve);
            && r.out == Success
            && KeyOf(src) !in r.after.objects
            && KeyOf(dst) in r.after.objects
            && Unversioned(r.after.objects[KeyOf(dst)]) == Unversioned(DestinationCopy(doc, cmd.destNamespace))
            && X in r.after.objects
            && r.after.objects[X].claimRef == Some(dst)
            && ClaimNamespaceLabel in r.after.objects[X].labels
            && r.after.objects[X].labels[ClaimNamespaceLabel] == cmd.destNamespace
  {
    var res := GetResourceAndName(cmd).value;
    var src := ClaimRef(resolve(res.0).value, res.1, cmd.namespace);
    var dst := src.(namespace := cmd.destNamespace);
    var doc := w.objects[KeyOf(src)];
    var tail := if w.faults == [] then [] else [Pass] + Conflicts(n);
    assert w.faults != [] ==> w.faults == [Pass, Pass, Pass] + tail;
    ChecksPass(w, cmd, resolve, tail);
    var ch := Checks(w, cmd, resolve);
    var r := Mutations(ch.after, src, dst, doc);
    assert Migration(w, cmd, resolve) == r;
    MutationsComplete(ch.after, src, dst, doc, n);
    assert KeyOf(src) != KeyOf(dst) && CompositeKey(doc.resourceRef.value) != KeyOf(dst);
    CompletedStore(w.objects, r.after.objects, src, dst, doc);
  }
}

/** The gateway helpers of resource/resource.go: addressing a reference in the
    store, the tri-state get, creation, and the two conflict-retried
    read-modify-write helpers that repair a composite and retire a claim. */
module Resource {
  import opened Kube

  function LowerChar(c: char): char
  {
    if 'A' <= c <= 'Z' then (c as int + 32) as char else c
  }

  /** strings.ToLower, on ASCII letters: each capital becomes its small letter,
      every other character is kept. */
  function Lower(s: string): (r: string)
    ensures |r| == |s|
    ensures forall i :: 0 <= i < |s| && 'A' <= s[i] <= 'Z' ==> r[i] as int == s[i] as int + 32
    ensures forall i :: 0 <= i < |s| && !('A' <= s[i] <= 'Z') ==> r[i] == s[i]
  {
    seq(|s|, i requires 0 <= i < |s| => LowerChar(s[i]))
  }

  /** The resource segment of every request: the kind, lower-cased, plus "s". */
  function Plural(kind: string): (r: string)
    ensures |r| == |kind| + 1 && r[|kind|] == 's'
    ensures forall i :: 0 <= i < |r| ==> !('A' <= r[i] <= 'Z')
    ensures forall i :: 0 <= i < |kind| && 'A' <= kind[i] <= 'Z' ==> r[i] as int == kind[i] as int + 32
    ensures forall i :: 0 <= i < |kind| && !('A' <= kind[i] <= 'Z') ==> r[i] == kind[i]
  {
    Lower(kind) + "s"
  }

  /** Two kinds address the same resource exactly when they agree up to letter case. */
  lemma PluralFoldsCase(a: string, b: string)
    ensures Plural(a) == Plural(b) <==> Lower(a) == Lower(b)
  {
    if Plural(a) == Plural(b) {
      assert Lower(a) == Plural(a)[..|a|];
      assert Lower(b) == Plural(b)[..|b|];
    }
  }

  /** The store address of a reference: group and version of the reference, the
      plural of its kind, its namespace and its name. */
  function KeyOf(ref: ObjectRef): (k: Key)
    ensures k.group == ref.group && k.version == ref.version
    ensures k.namespace == ref.namespace && k.name == ref.name
    ensures k.plural == Plural(ref.kind)
  {
    Key(ref.group, ref.version, Plural(ref.kind), ref.namespace, ref.name)
  }

  /** The composite is addressed without a namespace, whatever its reference says. */
  function CompositeKey(xrRef: ObjectRef): (k: Key)
    ensures k.namespace == "" && k == KeyOf(xrRef).(namespace := "")
  {
    KeyOf(xrRef.(namespace := ""))
  }

  /** The (object, found, error) triple GetResource returns. */
  datatype Fetched = Fetched(u: Option<Doc>, found: bool, err: Option<Error>)

  /** GetResource: a not-found answer becomes (none, false, no error), any other
      error (none, false, err), success (doc, true, no error). */
  function Lookup(w: World, ref: ObjectRef): (r: Step<Fetched>)
    ensures r.after.objects == w.objects && r.after.clock == w.clock
    ensures var g := GetCall(w, KeyOf(ref)).out;
            && r.after == GetCall(w, KeyOf(ref)).after
            && (r.out.found <==> g.Ok?)
            && (r.out.found ==> r.out.u == Some(g.value) && r.out.err.None?)
            && (!r.out.found ==> r.out.u.None?)
            && (!r.out.found && r.out.err.None? <==> g == Err(NotFound))
            && (r.out.err.Some? <==> g.Err? && g.error != NotFound)
            && (r.out.err.Some? ==> r.out.err.value == g.error)
    ensures r.out.found ==> KeyOf(ref) in w.objects && r.out.u.value == w.objects[KeyOf(ref)]
    ensures Passes(w.faults) ==> r.after.faults == Rest(w.faults) && r.out.err.None?
                                 && (r.out.found <==> KeyOf(ref) in w.objects)
  {
    var g := GetCall(w, KeyOf(ref));
    match g.out
    case Ok(d) => Step(g.after, Fetched(Some(d), true, None))
    case Err(e) =>
      if e == NotFound then Step(g.after, Fetched(None, false, None))
      else Step(g.after, Fetched(None, false, Some(e)))
  }

  method GetResource(c: Cluster, ref: ObjectRef) returns (u: Option<Doc>, found: bool, err: Option<Error>)
    modifies c
    ensures Step(c.State(), Fetched(u, found, err)) == Lookup(old(c.State()), ref)
  {
    var g := c.Get(KeyOf(ref));
    if g.Err? {
      if g.error == NotFound {
        return None, false, None;
      }
      return None, false, Some(g.error);
    }
    return Some(g.value), true, None;
  }

  method ResourceExists(c: Cluster, ref: ObjectRef) returns (found: bool, err: Option<Error>)
    modifies c
    ensures var l := Lookup(old(c.State()), ref);
            c.State() == l.after && found == l.out.found && err == l.out.err
  {
    var u;
    u, found, err := GetResource(c, ref);
  }

  const ErrCreateClaim := "unable to create new claim"

  /** CreateResource: either the stored document, or the store's error wrapped as a
      claim-creation failure with nothing written. */
  function Creation(w: World, ref: ObjectRef, u: Doc): (r: Step<Result<Doc>>)
    ensures r.out.Ok? ==> KeyOf(ref) !in w.objects && u.resourceVersion == Unset
                          && Unversioned(r.out.value) == u
                          && r.after.objects == w.objects[KeyOf(ref) := r.out.value]
    ensures r.out.Err? ==> r.after.objects == w.objects
                           && r.out.error.Wrapped? && r.out.error.context == ErrCreateClaim
    ensures Passes(w.faults) && KeyOf(ref) !in w.objects && u.resourceVersion == Unset
            ==> r.out.Ok? && r.after.faults == Rest(w.faults)
  {
    var c := CreateCall(w, KeyOf(ref), u);
    match c.out
    case Ok(_) => c
    case Err(e) => Step(c.after, Err(Wrapped(ErrCreateClaim, e)))
  }

  method CreateResource(c: Cluster, ref: ObjectRef, u: Doc) returns (created: Result<Doc>)
    modifies c
    ensures Step(c.State(), created) == Creation(old(c.State()), ref, u)
  {
    created := c.Create(KeyOf(ref), u);
    if created.Err? {
      created := Err(Wrapped(ErrCreateClaim, created.error));
    }
  }

  const ClaimNamespaceLabel := "crossplane.io/claim-namespace"

  /** The composite pointed at a claim: claimRef set to the claim's reference and the
      claim-namespace label set to the claim's namespace; every other field and
      every other label as fetched. */
  function Repaired(xr: Doc, claim: ObjectRef): (r: Doc)
    ensures r.claimRef == Some(claim) && ClaimNamespaceLabel in r.labels
            && r.labels[ClaimNamespaceLabel] == claim.namespace
    ensures r.labels.Keys == xr.labels.Keys + {ClaimNamespaceLabel}
    ensures forall l :: l in xr.labels && l != ClaimNamespaceLabel ==> r.labels[l] == xr.labels[l]
    ensures r.(claimRef := xr.claimRef, labels := xr.labels) == xr
  {
    xr.(claimRef := Some(claim), labels := xr.labels[ClaimNamespaceLabel := claim.namespace])
  }

  /** The claim cut loose from its composite: no resource reference, no finalizers. */
  function Severed(u: Doc): (r: Doc)
    ensures r.resourceRef.None? && r.finalizers == []
    ensures r.(resourceRef := u.resourceRef, finalizers := u.finalizers) == u
  {
    u.(resourceRef := None, finalizers := [])
  }

  /** The closures handed to retry.RetryOnConflict, one constructor per closure. */
  datatype Attempt =
    | RepairComposite(key: Key, claim: ObjectRef)
    | SeverClaim(key: Key)
    | DeleteClaim(key: Key)

  /** What one successful attempt does to the documents. */
  ghost predicate Committed(a: Attempt, m: map<Key, Doc>, m': map<Key, Doc>)
  {
    a.key in m &&
    match a
    case RepairComposite(k, claim) =>
      k in m' && m' == m[k := m'[k]] && Unversioned(m'[k]) == Unversioned(Repaired(m[k], claim))
    case SeverClaim(k) =>
      k in m' && m' == m[k := m'[k]] && Unversioned(m'[k]) == Unversioned(Severed(m[k]))
    case DeleteClaim(k) =>
      m' == if m[k].finalizers == [] then m - {k} else m
  }

  /** One run of a closure: fetch the current document afresh, then update or delete it. */
  function Attempted(w: World, a: Attempt): (r: Step<Option<Error>>)
    ensures r.out.None? ==> Committed(a, w.objects, r.after.objects)
    ensures r.out.Some? ==> r.after.objects == w.objects
    ensures w.faults == [] && a.key in w.objects ==> r.out.None? && r.after.faults == []
  {
    var g := GetCall(w, a.key);
    if g.out.Err? then Step(g.after, Some(g.out.error))
    else
      match a
      case RepairComposite(k, claim) =>
        var u := UpdateCall(g.after, k, Repaired(g.out.value, claim));
        Step(u.after, if u.out.Ok? then None else Some(u.out.error))
      case SeverClaim(k) =>
        var u := UpdateCall(g.after, k, Severed(g.out.value));
        Step(u.after, if u.out.Ok? then None else Some(u.out.error))
      case DeleteClaim(k) =>
        DeleteCall(g.after, k)
  }

  /** The attempt budget of client-go's retry.DefaultRetry. */
  const DefaultSteps: nat := 5

  /** retry.RetryOnConflict: rerun the attempt while it fails with a conflict, at most
      `steps` more times; any other outcome ends the loop. When the budget runs out
      the last conflict is returned. */
  function Retried(w: World, a: Attempt, steps: nat, last: Option<Error>): (r: Step<Option<Error>>)
    ensures w.faults == [] && a.key in w.objects && steps > 0 ==> r.out.None? && r.after.faults == []
    decreases steps
  {
    if steps == 0 then Step(w, last)
    else
      var t := Attempted(w, a);
      if t.out == Some(Conflict) then Retried(t.after, a, steps - 1, t.out) else t
  }

  /** A failed retry loop leaves the documents as they were; a successful one has
      committed exactly one attempt, on the document as it stood. */
  lemma {:induction false} RetriedOutcome(w: World, a: Attempt, steps: nat, last: Option<Error>)
    requires steps > 0 || last.Some?
    decreases steps
    ensures var r := Retried(w, a, steps, last);
            && (r.out.None? ==> Committed(a, w.objects, r.after.objects))
            && (r.out.Some? ==> r.after.objects == w.objects)
  {
    if steps > 0 {
      var t := Attempted(w, a);
      if t.out == Some(Conflict) {
        RetriedOutcome(t.after, a, steps - 1, t.out);
      }
    }
  }

  /** The store's answers to `n` attempts that each fetch and then meet a conflict. */
  function Conflicts(n: nat): (f: seq<Fault>)
    ensures |f| == 2 * n
  {
    if n == 0 then [] else [Pass, Fail(Conflict)] + Conflicts(n - 1)
  }

  /** Fewer conflicting attempts than the budget are absorbed: the loop retries with
      a fresh fetch each time and finally commits. */
  lemma {:induction false} RetriedAbsorbsConflicts(w: World, a: Attempt, steps: nat, last: Option<Error>, n: nat)
    requires a.key in w.objects && n < steps && w.faults == Conflicts(n)
    decreases steps
    ensures var r := Retried(w, a, steps, last);
            r.out.None? && r.after.faults == [] && Committed(a, w.objects, r.after.objects)
  {
    var t := Attempted(w, a);
    if n == 0 {
      assert w.faults == [];
    } else {
      var g := GetCall(w, a.key);
      assert g.after.faults == [Fail(Conflict)] + Conflicts(n - 1);
      assert t.out == Some(Conflict) && t.after.faults == Conflicts(n - 1);
      RetriedAbsorbsConflicts(t.after, a, steps - 1, t.out, n - 1);
    }
  }

  /** As many conflicting attempts as the budget exhaust it: the loop gives up with
      the last conflict, not with an error of its own, and nothing is written. */
  lemma {:induction false} RetriedExhausts(w: World, a: Attempt, steps: nat, last: Option<Error>)
    requires a.key in w.objects && w.faults == Conflicts(steps) && (steps > 0 || last == Some(Conflict))
    decreases steps
    ensures var r := Retried(w, a, steps, last);
            r.out == Some(Conflict) && r.after.objects == w.objects
  {
    if steps > 0 {
      var g := GetCall(w, a.key);
      assert g.after.faults == [Fail(Conflict)] + Conflicts(steps - 1);
      var t := Attempted(w, a);
      assert t.out == Some(Conflict) && t.after.faults == Conflicts(steps - 1);
      RetriedExhausts(t.after, a, steps - 1, t.out);
    }
  }

  /** Only a conflict is retried: after fewer conflicts than the budget, an attempt
      whose fetch fails with any other error (or, with `afterFetch`, whose update or
      delete does) ends the loop at once with that error, and nothing is written. */
  lemma {:induction false} RetriedStopsOnError(w: World, a: Attempt, steps: nat, last: Option<Error>,
                                               n: nat, e: Error, afterFetch: bool)
    requires a.key in w.objects && e != Conflict && n < steps
    requires w.faults == Conflicts(n) + (if afterFetch then [Pass, Fail(e)] else [Fail(e)])
    decreases steps
    ensures var r := Retried(w, a, steps, last);
            r.out == Some(e) && r.after.objects == w.objects && r.after.faults == []
  {
    var tail := if afterFetch then [Pass, Fail(e)] else [Fail(e)];
    var t := Attempted(w, a);
    if n == 0 {
      assert w.faults == tail;
    } else {
      assert w.faults == [Pass, Fail(Conflict)] + (Conflicts(n - 1) + tail);
      var g := GetCall(w, a.key);
      assert g.after.faults == [Fail(Conflict)] + (Conflicts(n - 1) + tail);
      assert t.out == Some(Conflict) && t.after.faults == Conflicts(n - 1) + tail;
      RetriedStopsOnError(t.after, a, steps - 1, t.out, n - 1, e, afterFetch);
    }
  }

  method RunAttempt(c: Cluster, a: Attempt) returns (err: Option<Error>)
    modifies c
    ensures Step(c.State(), err) == Attempted(old(c.State()), a)
  {
    var g := c.Get(a.key);
    if g.Err? {
      return Some(g.error);
    }
    match a
    case RepairComposite(k, claim) =>
      var u := c.Update(k, Repaired(g.value, claim));
      err := if u.Ok? then None else Some(u.error);
    case SeverClaim(k) =>
      var u := c.Update(k, Severed(g.value));
      err := if u.Ok? then None else Some(u.error);
    case DeleteClaim(k) =>
      err := c.Delete(k);
  }

  method RetryOnConflict(c: Cluster, a: Attempt) returns (err: Option<Error>)
    modifies c
    ensures Step(c.State(), err) == Retried(old(c.State()), a, DefaultSteps, None)
  {
    var steps := DefaultSteps;
    var last: Option<Error> := None;
    while steps > 0
      invariant Retried(old(c.State()), a, DefaultSteps, None) == Retried(c.State(), a, steps, last)
    {
      err := RunAttempt(c, a);
      if err != Some(Conflict) {
        return;
      }
      last := err;
      steps := steps - 1;
    }
    err := last;
  }

  method UpdateCompositeWithNewClaim(c: Cluster, xrRef: ObjectRef, claim: ObjectRef) returns (err: Option<Error>)
    modifies c
    ensures Step(c.State(), err) == Retried(old(c.State()), RepairComposite(CompositeKey(xrRef), claim), DefaultSteps, None)
    ensures err.None? ==> Committed(RepairComposite(CompositeKey(xrRef), claim), old(c.objects), c.objects)
    ensures err.Some? ==> c.objects == old(c.objects)
  {
    err := RetryOnConflict(c, RepairComposite(CompositeKey(xrRef), claim));
    RetriedOutcome(old(c.State()), RepairComposite(CompositeKey(xrRef), claim), DefaultSteps, None);
  }

  /** DeleteSourceClaim: a retried update that clears the resource reference and the
      finalizers, then, only if that committed, a retried fetch-and-delete. */
  function SourceRetirement(w: World, ref: ObjectRef): (r: Step<Option<Error>>)
    ensures r.out.None? ==> Retried(w, SeverClaim(KeyOf(ref)), DefaultSteps, None).out.None?
  {
    var sever := Retried(w, SeverClaim(KeyOf(ref)), DefaultSteps, None);
    if sever.out.Some? then sever
    else Retried(sever.after, DeleteClaim(KeyOf(ref)), DefaultSteps, None)
  }

  /** Retiring the claim either removes exactly that claim, or fails leaving it as it
      was or severed from its composite but still present; it never deletes a claim
      that still holds its finalizers or its reference. */
  lemma SourceRetirementOutcome(w: World, ref: ObjectRef)
    ensures var r := SourceRetirement(w, ref); var k := KeyOf(ref);
            && (r.out.None? ==> k in w.objects && r.after.objects == w.objects - {k})
            && (r.out.Some? ==> r.after.objects == w.objects
                                || (k in w.objects && k in r.after.objects
                                    && r.after.objects == w.objects[k := r.after.objects[k]]
                                    && Unversioned(r.after.objects[k]) == Unversioned(Severed(w.objects[k]))))
            && (w.faults == [] && k in w.objects ==> r.out.None? && r.after.faults == [])
  {
    var k := KeyOf(ref);
    var sever := Retried(w, SeverClaim(k), DefaultSteps, None);
    RetriedOutcome(w, SeverClaim(k), DefaultSteps, None);
    if sever.out.None? {
      var m1 := sever.after.objects;
      assert m1[k].finalizers == [];
      RetriedOutcome(sever.after, DeleteClaim(k), DefaultSteps, None);
      assert m1 - {k} == w.objects - {k};
    }
  }

  method DeleteSourceClaim(c: Cluster, ref: ObjectRef) returns (err: Option<Error>)
    modifies c
    ensures Step(c.State(), err) == SourceRetirement(old(c.State()), ref)
  {
    err := RetryOnConflict(c, SeverClaim(KeyOf(ref)));
    if err.Some? {
      return;
    }
    err := RetryOnConflict(c, DeleteClaim(KeyOf(ref)));
  }
}

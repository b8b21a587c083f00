# claim-migrator, modelled in Dafny

claim-migrator moves a Crossplane claim from one namespace to another. `Cmd.Run`
does this in order:

1. It checks that the destination namespace exists.
2. It parses the `TYPE[/NAME]` token and resolves the type.
3. It fetches the source claim and checks that no claim of that name exists in the destination namespace.
4. It creates a copy of the claim in the destination namespace.
5. It repoints the claim's composite at the copy: `spec.claimRef` and the `crossplane.io/claim-namespace` label.
6. It retires the source claim: it clears the source's resource reference and finalizers, then deletes it.

Nothing is rolled back when a later step fails.

The project has three modules:

- `Kube` (`kube.dfy`) models the Kubernetes API server as this program uses it.
  - Documents are addressed by group, version, plural, namespace and name.
  - There are four verbs. Create refuses a set `resourceVersion` and an existing name. Update is a compare-and-swap on `resourceVersion`, so a mismatch is a `Conflict`. Delete removes a document only when it has no finalizers.
  - A script of faults stands for every answer the program does not control, such as conflicting writers and transport errors. Each remote call consumes one entry, `Pass` or `Fail(err)`. Once the script is exhausted, every call passes.
  - Each verb is a function on a `World` value. It is also a method of the class `Cluster`, which updates its fields in place and is proved equal to that function.
- `Resource` (`resource.dfy`) models `resource/resource.go`:
  - the plural rule `lower(kind) + "s"` and the key of a reference;
  - the tri-state `GetResource`, `ResourceExists` and `CreateResource`;
  - the two conflict-retried read-modify-write helpers. `retry.RetryOnConflict` is a loop (`RetryOnConflict`) proved equal to a recursive specification (`Retried`). Its closures are the constructors of `Attempt`.
- `Migrate` (`migrate.dfy`) models `migrate/claim.go`:
  - the token parser;
  - `Run`, as an imperative method proved equal to the function `Migration`. That function is the read-only `Checks` followed by the `Mutations`.

The type resolver (the REST mapper) is a parameter `resolve` of `Run`.

Some behaviours of the code are kept as written:

- A type that is not namespaced makes `Run` return `errors.Wrap(err, …)` with a nil `err`. So does a source claim that is not found. Both return nil, so `Run` succeeds without writing anything (`SilentSuccess`).
- A created claim without `spec.resourceRef` makes `UpdateCompositeWithNewClaim` dereference a nil reference. This is modelled as `Exit.Panic`.
- When the retry budget runs out, `RetryOnConflict` returns the last conflict error. It has no error of its own.

## Model

| member | source | states |
|---|---|---|
| Kube.Wrap | migrate/claim.go:100 | the wrapped error is nil exactly when the wrapped cause is nil |
| Kube.GetCall | resource/resource.go:28 | a get never writes; it returns the stored document or fails; when the store lets it pass it returns the document exactly when the key is present, otherwise NotFound |
| Kube.CreateCall | resource/resource.go:53 | a create succeeds only for an absent key and an unset resourceVersion; it then stores the document under a fresh version; a failure writes nothing; when the store lets it pass on an absent key it succeeds |
| Kube.UpdateCall | resource/resource.go:85 | an update commits only when it carries the stored version (compare-and-swap), and then replaces that one document; a failure writes nothing |
| Kube.DeleteCall | resource/resource.go:129 | a delete on a present key succeeds; it removes the document when it has no finalizers and otherwise leaves it; a failure writes nothing |
| Kube.Cluster.NextFault | resource/resource.go:28 | consumes exactly the next entry of the fault script |
| Kube.Cluster.Get | resource/resource.go:28 | the in-place get leaves the store as GetCall describes and returns what it returns |
| Kube.Cluster.Create | resource/resource.go:53 | the in-place create leaves the store as CreateCall describes |
| Kube.Cluster.Update | resource/resource.go:85 | the in-place update leaves the store as UpdateCall describes |
| Kube.Cluster.Delete | resource/resource.go:129 | the in-place delete leaves the store as DeleteCall describes |
| Resource.Lower | resource/resource.go:25 | lower-casing keeps the length, turns each capital into its small letter, and keeps every other character |
| Resource.Plural | resource/resource.go:22-26 | the resource segment is the kind with each capital turned into its small letter and every other character kept, followed by 's'; it has no capital |
| Resource.KeyOf | resource/resource.go:22-28 | a reference is addressed by its group, version, namespace and name, with the plural of its kind as the resource |
| Resource.CompositeKey | resource/resource.go:63-71 | the composite is addressed like any reference but with no namespace, whatever its reference says |
| Resource.PluralFoldsCase | resource/resource.go:25 | two kinds address the same resource if and only if they agree up to letter case |
| Resource.Lookup | resource/resource.go:21-37 | NotFound becomes (none, false, no error); another error becomes (none, false, err); success becomes (doc, true, no error); nothing is written; when the store lets the get pass, found holds exactly when the key is present |
| Resource.GetResource | resource/resource.go:21-37 | the in-place GetResource returns the triple and leaves the store as Lookup describes |
| Resource.ResourceExists | resource/resource.go:40-43 | it returns the found flag and the error of GetResource, with the same effect on the store |
| Resource.Creation | resource/resource.go:46-59 | success stores the document, versioned, under an absent key; any failure is wrapped as "unable to create new claim" and writes nothing |
| Resource.CreateResource | resource/resource.go:46-59 | the in-place CreateResource leaves the store as Creation describes |
| Resource.Repaired | resource/resource.go:76-83 | the composite's claimRef is the claim's reference and its claim-namespace label is the claim's namespace; every other label and field is kept |
| Resource.Severed | resource/resource.go:109-113 | the claim's resourceRef is cleared and its finalizers are empty; every other field is kept |
| Resource.Attempted | resource/resource.go:71-86 | one closure run either commits its change to the freshly fetched document or writes nothing; on a calm store with the key present it commits |
| Resource.RunAttempt | resource/resource.go:71-86 | the in-place closure run leaves the store as Attempted describes |
| Resource.Retried | resource/resource.go:70 | on a calm store with the key present, the retried attempt succeeds and consumes no more faults |
| Resource.RetriedOutcome | resource/resource.go:70-91 | a failed retry loop writes nothing; a successful one commits exactly one attempt on the document as it stood |
| Resource.RetriedAbsorbsConflicts | resource/resource.go:69-70 | fewer conflicting attempts than the budget are absorbed, and the loop commits |
| Resource.RetriedStopsOnError | resource/resource.go:70-87 | only a conflict is retried: after fewer conflicts than the budget, a fetch, update or delete failing with any other error ends the loop at once with that error, and nothing is written |
| Resource.RetriedExhausts | resource/resource.go:70 | as many conflicts as the budget end the loop with the last Conflict, not an error of its own, and nothing written |
| Resource.RetryOnConflict | resource/resource.go:70-87 | the loop ends in the state and with the error of the recursive specification Retried, with the budget of DefaultRetry |
| Resource.UpdateCompositeWithNewClaim | resource/resource.go:62-92 | on success the composite, and nothing else, is replaced by its repaired version; on failure nothing is written |
| Resource.SourceRetirement | resource/resource.go:119-131 | the delete loop runs, and can succeed, only after the sever loop has committed |
| Resource.SourceRetirementOutcome | resource/resource.go:95-137 | success removes exactly the claim; failure leaves the claim as it was, or present but severed; on a calm store with the claim present it succeeds |
| Resource.DeleteSourceClaim | resource/resource.go:95-137 | the in-place helper leaves the store as the sever-then-delete specification describes |
| Migrate.Split | migrate/claim.go:179 | strings.Split on '/' gives one more piece than there are slashes, no piece holds a slash, and joining the pieces gives the token back |
| Migrate.SplitAtSlash | migrate/claim.go:179 | splitting at a first slash makes the part before it the first piece |
| Migrate.SplitJoin | migrate/claim.go:179 | splitting the slash-joined slash-free pieces gives the pieces back |
| Migrate.GetResourceAndName | migrate/claim.go:171-204 | an empty token and a token with two or more slashes are invalid; a parsed type never holds a slash |
| Migrate.TokenWithoutSlash | migrate/claim.go:182-190 | a token without a slash is the type; it needs the separate name and fails with the missing-name error without it |
| Migrate.TokenWithOneSlash | migrate/claim.go:192-200 | a token with one slash is type/name; a separate name is then refused as given twice |
| Migrate.TokenRoundTrip | migrate/claim.go:171-200 | a slash-free type and name written as type/name parse back to that type and name |
| Migrate.NamespaceRef | migrate/claim.go:70-74 | the destination namespace is looked up at the core group, version v1, resource "namespaces", with no namespace of its own |
| Migrate.ClaimRef | migrate/claim.go:103-108 | a claim reference of the resolved type is addressed by the type's group, version and plural, in the given namespace, under the given name |
| Migrate.ClaimReference | resource/resource.go:79 | the claim reference given to the composite is the destination reference, carrying the created claim's namespace |
| Migrate.DestinationCopy | migrate/claim.go:137-139 | the copy has the destination namespace and no resourceVersion; apart from those it equals the source document |
| Migrate.Checks | migrate/claim.go:69-134 | the checks never write; they proceed only with a parsed token, a namespaced type, the source reference built from it, the destination reference that differs only in namespace, and the fetched source document; a failed namespace fetch, a bad token or a resolver error each stop Run with its own wrapped failure; a stop never panics, and it is a success only for a type that is not namespaced or a source the store answered NotFound for |
| Migrate.Mutations | migrate/claim.go:136-168 | the mutations panic only on a claim without a resource reference; every failure is wrapped as the create, composite-update or source-delete step that failed |
| Migrate.Migration | migrate/claim.go:52-169 | Run writes to the store only once every check has passed, and its only panic is the nil resource reference |
| Migrate.Run | migrate/claim.go:52-169 | the imperative Run ends in the state and with the exit of the Migration specification |
| Migrate.RepairThenRetire | migrate/claim.go:153-165 | after creation, the composite repair fails writing nothing or commits; then retirement fails leaving the source intact or severed, or removes it |
| Migrate.MutationsOutcome | migrate/claim.go:136-168 | the mutations end in one of four ordered states: nothing written; only the copy created; the composite repointed as well; the source removed (success) |
| Migrate.MutationsFrame | migrate/claim.go:136-168 | the mutations create no key but the destination and change nothing outside the source, destination and composite |
| Migrate.MigrationEndStates | migrate/claim.go:52-169 | a failed check writes nothing and its exit is Run's exit; past the checks Run ends in one of the ordered states, within the frame |
| Migrate.NamespaceCheckedFirst | migrate/claim.go:76-82 | a missing destination namespace fails Run, naming the namespace, before the token is parsed, and writes nothing |
| Migrate.SilentSuccess | migrate/claim.go:99-117 | a type that is not namespaced, or a missing source claim, ends Run with a nil error and nothing written |
| Migrate.DestinationTakenAborts | migrate/claim.go:127-134 | an existing claim of that name in the destination namespace fails Run before any write |
| Migrate.MutationsComplete | migrate/claim.go:136-168 | when calls pass, apart from fewer composite conflicts than the budget, the mutations succeed: copy created, composite repaired, source removed |
| Migrate.MutationsStrandCopy | migrate/claim.go:153-157 | when every composite update conflicts, Run fails with the wrapped last conflict and leaves the copy beside the untouched source and composite |
| Migrate.ChecksPass | migrate/claim.go:69-134 | a well-formed request with the namespace and source present and the destination free passes the checks after exactly three fetches |
| Migrate.MigrationCompletes | migrate/claim.go:52-169 | in that case Run succeeds: the source is gone; the destination holds the source document; the composite names the destination claim and carries its namespace as the label |

## Left out

- Loading the kubeconfig and building the dynamic client (`migrate/claim.go:56-67`): these are environment I/O. The model starts with a store.
- The REST mapper and `MappingFor` (`migrate/claim.go:85-98`): building and querying them is library code. The resolver is the parameter `resolve`, with its answers as `Mapping`.
- `main.go` and the command-line parsing: these are not part of this model.
- Logging: it has no effect on the store or the result.
- The exponential backoff of `retry.DefaultRetry`: only its budget of five attempts is modelled. The delays are timing.
- Concurrent writers and transport failures are not modelled as processes. The fault script only decides what each call answers. No outside writer ever changes a stored document: a `Conflict` leaves the store as it was. So "commits on the document as it stood" (`RetriedOutcome`), the exact end states of `MutationsOutcome`, and the value of re-fetching on each attempt are stated for a store that only this program writes.
- Resource.Lower: folds only ASCII letters. Go's `strings.ToLower` folds all of Unicode.
- Resource.Repaired: assumes the composite's labels map always exists. In Go, a composite with no labels makes `labels[...] =` panic on a nil map. This panic is not modelled.
- The `apiVersion` string: a reference carries group and version separately. Formatting `GroupVersion().String()` and parsing it back is library code.
- A document carries no kind, apiVersion or name. It carries only the fields this program reads or writes, plus an opaque rest. The claim reference handed to the composite is built from the destination reference and the created claim's namespace.
- Finalizer controllers do not run. A delete of a document that still has finalizers leaves the document in the store.
- The client's validation of empty names is not modelled. An empty name addresses a key like any other. As a result, for the token `kind/` (an empty name) with no such claim in the source namespace, `SilentSuccess` proves a nil error. The real client refuses the empty name, so Run fails with "cannot get requested resource".
- Resource.RetriedExhausts: some descriptions of the tool give an exhausted retry budget an error of its own. The code returns the last conflict from `retry.RetryOnConflict`, and the model follows the code.

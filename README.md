# Devfile parent resolution and merge, in Dafny

This project models how odo resolves a devfile that names a parent devfile.
A devfile is a versioned YAML/JSON document. It holds metadata, projects,
components and commands. Resolving one means four things:

- reading the parent URI out of the decoded document (`parent.uri`);
- validating that URI and dispatching on its scheme (`file` gives a local path,
  `http`/`https` a download);
- parsing the parent first, refusing a parent whose apiVersion differs, and
  merging the parent into the local document;
- validating the context (the JSON schema check of the raw bytes) and then the
  data.

The merge of version 1.0.0 is child-dominant. Metadata is replaced wholesale,
and only when the local metadata is the zero value. Projects and commands each
keep the local list unchanged and append, in parent order, the parent entries
whose name is not a local name. Components are not touched.

Files:

- `wrappers.dfy` (module `Wrappers`): `Option` and `Result`.
- `common.dfy` (module `Common`): metadata, projects, commands, components and
  the `Devfile` value.
- `merge.dfy` (module `Version100`): the merge specification on values, its
  lemmas, and the class `Devfile100`. Its methods update the fields in place,
  with loops, and are proved against the specification.
- `uri.dfy` (module `Uri`): `fetchFilePath` as a function over the parsed URL
  components.
- `context.dfy` (module `DevfileContext`): the decoded JSON value, the
  parent-path extraction, and the class `DevfileCtx` whose
  `SetDevfileParentPath` writes the `parentPath` field.
- `parse.dfy` (module `DevfileParse`): `Parse` as a recursive function over a
  `World` that supplies the outcome of every step the source delegates.

Two consequences of the code are worth stating:

- The merge does not deduplicate components. The `"Components"` case of the
  switch (`merge.go`:56) is empty, and Go does not fall through.
- Names are not made unique. Parent entries are checked only against the local
  names, so two parent entries that share a name missing locally are both
  appended (`DuplicateParentNamesBothAppended`).

## Model

| member | source | states |
|---|---|---|
| `Version100.MissingFrom` | pkg/devfile/versions/1.0.0/merge.go:88-93 | an item is appended if and only if it is a parent item whose name is not among the local names; the tail is never longer than the parent list |
| `Version100.MissingFromAppend` | pkg/devfile/versions/1.0.0/merge.go:89-93 | the selection distributes over concatenation of the parent list, so the appended items keep the parent order |
| `Version100.MissingFromMultiplicity` | pkg/devfile/versions/1.0.0/merge.go:83-93 | a parent item whose name is missing locally is appended as many times as it occurs in the parent; any other item is appended zero times |
| `Version100.MergedIsLocalThenMissing` | pkg/devfile/versions/1.0.0/merge.go:68-97 | the three cases of mergeProjects (empty parent, empty local, general) are one rule: the local list followed by the parent items with missing names |
| `Version100.MergedContents` | pkg/devfile/versions/1.0.0/merge.go:68-97 | the local list is an unchanged prefix of the result; nothing after it has a local name; membership and multiplicity of every item in the result are those of the local list plus the missing-name parent items |
| `Version100.MergedCoversParentNames` | pkg/devfile/versions/1.0.0/merge.go:83-93 | after the merge every local name and every parent name is a name of the result |
| `Version100.MergedByNameIdempotent` | pkg/devfile/versions/1.0.0/merge.go:68-127 | merging the same parent list a second time changes nothing |
| `Version100.LocalEntryWinsExample` | pkg/devfile/versions/1.0.0/merge.go:83-93 | local [a] with parent [a', b] gives [a, b]: the local "a" stays and the parent's "a" is dropped |
| `Version100.DuplicateParentNamesBothAppended` | pkg/devfile/versions/1.0.0/merge.go:83-93 | the name map is built before the loop and never updated, so two parent projects named "b" are both appended to local [a] |
| `Version100.MergeMetadata` | pkg/devfile/versions/1.0.0/merge.go:46-49 | the result is the parent's metadata when the local metadata is the zero value, and the local metadata otherwise |
| `Version100.FieldLoopIsFieldwise` | pkg/devfile/versions/1.0.0/merge.go:38-64 | running the switch over "Metadata", "Projects", "Components", "Commands" in turn gives the field-by-field merge, with the empty "Components" case |
| `Version100.MergedDevfileIdempotent` | pkg/devfile/versions/1.0.0/merge.go:33-66 | merging the same parent devfile twice gives the same devfile as merging it once |
| `Version100.MergedByName` | pkg/devfile/versions/1.0.0/merge.go:68-127 | an empty parent list leaves the local list; an empty local list becomes the parent list exactly, duplicates included; the local list is always an unchanged prefix; nothing comes from outside the two lists |
| `Version100.MergeField` | pkg/devfile/versions/1.0.0/merge.go:45-63 | one case of the switch changes only the field it names, and never the apiVersion or the components |
| `Version100.MergeFields` | pkg/devfile/versions/1.0.0/merge.go:44-64 | running the switch over a list of field names never changes the apiVersion or the components, nor a field whose name is not in the list |
| `Version100.MergedDevfile` | pkg/devfile/versions/1.0.0/merge.go:33-66 | the merged devfile keeps the local apiVersion and components, has the parent's metadata exactly when the local one is zero, and keeps the local projects and commands as unchanged prefixes |
| `Version100.NameMap` | pkg/devfile/versions/1.0.0/merge.go:83-86 | the loop builds a map whose keys are exactly the names of the local list, each mapped to true |
| `Version100.Devfile100.MergeDevfiles` | pkg/devfile/versions/1.0.0/merge.go:33-66 | returns no error, and the receiver's new value is the field-by-field merge of its old value with the parent's |
| `Version100.Devfile100.MergeProjects` | pkg/devfile/versions/1.0.0/merge.go:68-97 | the new project list is the three-case merge of the old list with the parent's projects; no other field changes |
| `Version100.Devfile100.MergeCommands` | pkg/devfile/versions/1.0.0/merge.go:99-127 | the new command list is the three-case merge of the old list with the parent's commands; no other field changes |
| `Uri.FetchFilePath` | pkg/devfile/parser/uri.go:60-83 | a parse failure gives an error and an empty path; the result is "invalid" exactly when the URL parsed but has no scheme or no path, or has user info, a raw path, a forced query, a query or a fragment, whatever its scheme; a valid `file` URI gives host + path with no error; a valid `http`/`https` URI gives the download's outcome; any other scheme is "not supported", naming the scheme; every error comes with an empty path |
| `Uri.PointsAtOneFile` | pkg/devfile/parser/uri.go:70 | a URL passes the shape check exactly when it has none of the seven defects: no scheme, no path, user info, a raw path, a forced query, a query, a fragment |
| `Uri.FetchOnlyForHttp` | pkg/devfile/parser/uri.go:74-82 | the download's outcome matters only for a valid http or https URI |
| `Uri.QueryIsAlwaysInvalid` | pkg/devfile/parser/uri.go:70-72 | a URI with a query string is invalid whatever its scheme |
| `DevfileContext.ParentPathOf` | pkg/devfile/parser/parentPath.go:25-45 | no `parent` key gives ""; a `parent` object without `uri` gives ""; otherwise the `uri` string |
| `DevfileContext.ParentPathIsLookup` | pkg/devfile/parser/parentPath.go:33-45 | the parent path is the string found at the key path parent.uri, and "" when nothing is there |
| `DevfileContext.DevfileCtx.SetDevfileParentPath` | pkg/devfile/parser/parentPath.go:16-46 | returns an error exactly when the decoder reports one, and then changes nothing (content that decodes to an empty map, such as `null`, is no error and gives ""); otherwise the parent path read back by GetParentPath is the one extracted from the content, and no other field of the context changes |
| `DevfileContext.DevfileCtx.GetParentPath` | pkg/devfile/parser/parentPath.go:11-13 | returns the parent path stored in the context |
| `DevfileContext.DevfileCtx.constructor` | pkg/devfile/parser/context.go:37-42 | a new context holds only its relative path |
| `DevfileParse.Load` | pkg/devfile/parse.go:17-35 | succeeds exactly when Populate succeeds, the apiVersion is supported and the content decodes, and then holds that context and data; a Populate failure and an unsupported version are reported as such |
| `DevfileParse.Validate` | pkg/devfile/parse.go:59-72 | succeeds exactly when both validations pass and then returns the devfile unchanged; a context failure is reported whatever the data validation says |
| `DevfileParse.Parse` | pkg/devfile/parse.go:14-73 | a success comes from a local document that loaded, keeps its context and apiVersion, passed both validations, and, when it names a parent, from a parent that parsed with the same apiVersion |
| `DevfileParse.LoadFailureIsReturned` | pkg/devfile/parse.go:17-35 | a failure of Populate, of creating the version's data or of decoding is returned as it is, before any parent handling |
| `DevfileParse.NoParentNoMerge` | pkg/devfile/parse.go:37-72 | with an empty parent path there is no recursion and no merge: the result is the decoded local document, validated |
| `DevfileParse.ParentOutcomes` | pkg/devfile/parse.go:38-57 | a parent parse failure is wrapped and returned without merging; a parent of another apiVersion gives a mismatch error without merging; otherwise the parent's data is merged into the local data and the result validated |
| `DevfileParse.ContextValidatedFirst` | pkg/devfile/parse.go:59-69 | context validation runs before data validation, so when both fail the context's failure is reported |
| `DevfileParse.ParseLocalWins` | pkg/devfile/parse.go:52-57 | a parsed devfile keeps its own context, apiVersion, components and non-zero metadata, and its own projects and commands in front, unchanged |
| `DevfileParse.ParseInheritsChain` | pkg/devfile/parse.go:37-57 | after a successful parse every document on the parent chain has the result's apiVersion, and every project and command name of every ancestor is in the result |
| `DevfileParse.ParseIgnoresBound` | pkg/devfile/parse.go:42 | the bound on the parent chain only makes the recursion well founded; it never changes the result |
| `DevfileParse.CyclicChainNeverTerminates` | pkg/devfile/parse.go:37-45 | a parent chain that comes back to a path it has already visited (after any number of steps) admits no bound: there is no cycle check, so the recursion never ends |
| `DevfileParse.CycleAdmitsNoBound` | pkg/devfile/parse.go:42 | a path that the parent chain leads back to after one or more steps admits no bound |

## Left out

- `fetchFileHttp` (the HTTP GET, reading the body, writing a temporary file): network and file I/O. Its outcome is the `fetched` parameter of `FetchFilePath`. Nothing cleans up the temporary file; that is not modelled either.
- `url.Parse`: the URL parser of Go's standard library. Its outcome, a parse error or the URL's components, is the `parsed` parameter.
- `IsFieldPresentInStruct`: run-time reflection. For `Devfile100` it is true for all four field names, so the conditions that use it are written without it.
- `reflect.DeepEqual` on the metadata: modelled as equality with `ZeroMetadata`, whose pointer fields are all `None`.
- `Populate` (absolute path, reading the file, apiVersion, the supported-version check, the parent path, the schema), `NewDevfileData`, decoding the content into the version's data, the JSON schema validation and the data's own `Validate`: their bodies are not part of this model. `Parse` takes their outcomes from the `World` parameter. `Populate`'s parent-path step is modelled on its own by `SetDevfileParentPath`.
- JSON decoding into an untyped map: the decoder's outcome is the `unmarshal` parameter of `SetDevfileParentPath`.
- `SetDevfileParentPath` panics when `parent` is not an object or `uri` is not a string. The model makes both a precondition (`ParentWellTyped`).
- `DevfileParse.Parse`: the source returns the partly filled devfile object together with an error. The model returns only the error. It also needs a bound `n` on the parent chain (`Terminates`), because the source has no depth limit and no cycle check and recurses forever on a cyclic chain.
- `Version100.Devfile100.MergeDevfiles`: the source reads the parent's fields as each case runs; the model reads the parent's value once on entry. Each case reads a field that no earlier case has changed, so the result is the same even when the parent is the receiver itself.
- The error results of `mergeProjects` and `mergeCommands` are always nil and ignored by their caller, so the methods return nothing. `MergeDevfiles` always returns nil, so the merge-failure branch of `Parse` cannot be taken and is not modelled.
- Only devfile version 1.0.0 exists in this code; the other versions behind the `DevfileData` interface are not modelled.
- Logging (`glog`, `fmt.Println`) and the context's filesystem field `Fs` have no effect on the results and are left out.
- The fields of projects, commands and components are only those needed to tell entries apart. The merge never looks inside an entry.

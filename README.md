# vipsgen code generator driver, in Dafny

vipsgen generates Go bindings for libvips from Go templates. This project
models the driver that does the generating: `Generate` in
`internal/generator/generate.go`, and the snapshot record it renders every
template from, `TemplateData` / `NewTemplateData` in
`internal/generator/templatedata.go`.

`Generate` creates the output directory and asks the template loader for its
template names. It then walks them in list order. Each template's output path
is the template's base name with one trailing `.tmpl` removed, joined to the
output directory. A template whose base name ends in `_test.go.tmpl` is
skipped unless the snapshot's `IncludeTest` is set. Every other template is
handed to the loader for rendering. Its output path is collected in
`generatedFiles`. The first failure ends the run with an error, and files
already written stay in place.

Files:

- `optional.dfy`, module `Optional`: the `Option` type used for Go's
  `error`/`nil` and for results that may be missing.
- `paths.dfy`, module `Paths`: the Go library functions the output path is
  built from, namely `filepath.Base`, `strings.HasSuffix`,
  `strings.TrimSuffix` and `filepath.Join`, over `/`-separated paths. It also
  holds lemmas saying what each function returns.
- `templatedata.dfy`, module `Snapshot`: the `TemplateData` record and
  `NewTemplateData`. The libvips catalogue entry types are opaque.
- `loader.dfy`, module `Loader`: the two collaborators `Generate` calls, as
  classes whose calls may succeed or fail on any input.
  - `FileSystem.MkdirAll` stands for `os.MkdirAll`.
  - `TemplateLoader` stands for the `TemplateLoader` interface, with
    `ListFiles` and `GenerateFile`. It keeps a log of every call it
    receives, with the call's arguments (the snapshot included) and whether
    it answered with an error.
- `generate.dfy`, module `Generator`:
  - **Specification functions.** `OutputName`, `OutputPath`,
    `IsTestTemplate`, `Skipped`, `JobFor`, `Step` and `Plan`. `Plan` is the
    list of render requests a full run makes, each carrying the run's
    snapshot. `Outputs` is the list of their output paths. `Succeeded` is
    the loader log of those requests when all of them succeed.
  - **Lemmas** about those functions.
  - **Methods.** `Generate`, with its loop as `RenderTemplates` and the loop
    body as `RenderTemplate`. All three are proved against the
    specification functions.

The method contracts say what happens whatever the collaborators answer:

- **Error policy.** The error is nil exactly when the output directory
  exists afterwards and every call made to the loader succeeded.
- **Success.** The listing succeeded, the loader received exactly the
  planned render requests, in order, all of them succeeded, and
  `generatedFiles` is their output paths.
- **Failed render.** The requests made are a prefix of the plan. All of
  them succeeded except the last, which failed. The error names that
  request's output path, and `generatedFiles` lists the outputs of the
  requests before it.
- **Listing failure.** The one listing call failed, no render request was
  made and nothing was generated.
- **Directory failure.** The output directory does not exist, the loader
  was not called and nothing was generated.

## Model

| member | source | states |
|---|---|---|
| Paths.Base | internal/generator/generate.go:34 | `filepath.Base` for `/`-separated names: the text after the last `/`, or the whole path when it has none; what it returns is stated by `BaseIsLastSegment` |
| Paths.BaseIsLastSegment | internal/generator/generate.go:34 | `filepath.Base` gives the last segment: it ends the path, holds no `/`, and is preceded by `/` unless it is the whole path |
| Paths.HasSuffix | internal/generator/generate.go:37 | `strings.HasSuffix`: the string is at least as long as `suffix` and its tail of that length is `suffix`; `HasSuffixIffEndsWith` states its meaning |
| Paths.HasSuffixIffEndsWith | internal/generator/generate.go:37 | `HasSuffix(s, suffix)` holds iff `s` is some string followed by `suffix` |
| Paths.TrimSuffix | internal/generator/generate.go:34 | `strings.TrimSuffix`: drops one trailing copy of the suffix when present; `TrimSuffixRemovesOne` states its effect |
| Paths.TrimSuffixRemovesOne | internal/generator/generate.go:34 | `strings.TrimSuffix` removes exactly one copy of the suffix (appending it again gives the input) and leaves a string without the suffix unchanged |
| Paths.Join | internal/generator/generate.go:34 | `filepath.Join(dir, name)` for a clean `dir`: an empty element is dropped, otherwise `dir`, one `/` unless `dir` ends with one, then `name`; `JoinPlacesNameInDir` states its shape |
| Paths.JoinPlacesNameInDir | internal/generator/generate.go:34 | `filepath.Join(dir, name)`: an empty element is ignored; otherwise the result starts with `dir`, ends with `name`, and has only the one `/` that `dir` may lack between them |
| Paths.BaseOfLastSegment | internal/generator/generate.go:34 | `/`-free text after a `/` (or at the start) is what `Base` returns |
| Paths.BaseOfJoin | internal/generator/generate.go:34 | the base name of `Join(dir, name)` is `name` for a non-empty, `/`-free `name` |
| Paths.Parents | internal/generator/generate.go:18 | the parent directories `os.MkdirAll` may create are proper prefixes of the directory, and the directory is not among them |
| Generator.OutputName | internal/generator/generate.go:34 | the output file name, `strings.TrimSuffix(filepath.Base(templateFile), ".tmpl")`; `OutputNameTrimsExtension` states what it is |
| Generator.OutputPath | internal/generator/generate.go:34 | the output path, `filepath.Join(outputDir, OutputName(templateFile))`; `OutputPathInsideDir` states its shape |
| Generator.OutputPathInsideDir | internal/generator/generate.go:34 | for a non-empty output name, the output path is the output directory, then one `/` unless the directory is empty or already ends with `/`, then the output name; so it starts with the directory and its last segment is the output name. The lemma requires a non-empty output name: for a template whose base name is exactly `.tmpl`, the output path is the output directory itself, as `filepath.Join(dir, "")` gives |
| Generator.OutputNameTrimsExtension | internal/generator/generate.go:34 | the output name is the template's base name less exactly one `.tmpl`: appending `.tmpl` gives the base name back; a base name without `.tmpl` is the output name unchanged; it holds no `/` |
| Generator.IsTestTemplate | internal/generator/generate.go:37 | a test template is one whose base name ends in `_test.go.tmpl`; `SkippedIffTestOutput` states what that means for its output |
| Generator.Skipped | internal/generator/generate.go:37-40 | a template is skipped iff `IncludeTest` is false and it is a test template; `SkippedIffTestOutput` restates this in terms of the output name |
| Generator.SkippedIffTestOutput | internal/generator/generate.go:37-40 | a template is skipped iff `IncludeTest` is false, its base name ends in `.tmpl`, and its output name ends in `_test.go`, the name of a Go test file |
| Generator.OutputPathIgnoresTemplateDirs | internal/generator/generate.go:34 | directories in a template's name do not affect its output path; only the base name matters |
| Generator.OutputNameOfTopLevelTemplate | internal/generator/generate.go:33-34 | `vips.go.tmpl` becomes `vips.go` |
| Generator.OutputNameOfNestedTestTemplate | internal/generator/generate.go:33-34 | `templates/image_test.go.tmpl` becomes `image_test.go`: the directory is dropped and only `.tmpl` is trimmed |
| Generator.OutputNameTrimsOnce | internal/generator/generate.go:33-34 | only one trailing `.tmpl` is removed: `twice.tmpl.tmpl` becomes `twice.tmpl` |
| Generator.OutputNameWithoutExtension | internal/generator/generate.go:33-34 | a base name without `.tmpl` is used unchanged: `static/README` becomes `README` |
| Generator.Outputs | internal/generator/generate.go:46 | the output paths appended to `generatedFiles`, one per render request, in order; `OutputsInOrder` and `OutputsAppend` state this |
| Generator.OutputsInOrder | internal/generator/generate.go:46 | the collected output paths correspond one to one, in order, to the render requests |
| Generator.OutputsAppend | internal/generator/generate.go:46 | collecting the outputs of two runs of requests, one after the other, concatenates their outputs |
| Generator.Succeeded | internal/generator/generate.go:43-46 | the loader log of render requests that all succeeded; `SucceededInOrder` and `SucceededAppend` state this |
| Generator.SucceededInOrder | internal/generator/generate.go:43-46 | the log of a run of successful renders has one successful render call per request, in order |
| Generator.SucceededAppend | internal/generator/generate.go:43-46 | the log of two runs of successful renders, one after the other, is the concatenation of their logs |
| Generator.SuccessfulRunAllOk | internal/generator/generate.go:23-53 | after a successful listing and successful renders of the plan, every call made was answered without error |
| Generator.FailedRenderNotAllOk | internal/generator/generate.go:43-45 | a run that ends with a failed render made a call answered with an error |
| Generator.JobFor | internal/generator/generate.go:34-43 | the `GenerateFile` call made for a template: the template, its output path and the run's snapshot; `PlanMembership` states that every request is this one |
| Generator.Step | internal/generator/generate.go:36-43 | one loop iteration's requests: none for a skipped template, otherwise its one request; `PlanOfOne` ties it to the plan |
| Generator.Plan | internal/generator/generate.go:31-47 | the requests of a full run, in list order: at most one per template; `PlanAppend`, `PlanMembership` and `PlanLength` state the rest |
| Generator.PlanAppend | internal/generator/generate.go:31-47 | the requests for a concatenated template list are those for the first part followed by those for the second, so list order is kept |
| Generator.PlanOfOne | internal/generator/generate.go:31-47 | a single template contributes exactly its own step: no request when skipped, otherwise one request for its output path |
| Generator.PlanMembership | internal/generator/generate.go:36-46 | a template is requested iff it is listed and not skipped; every request is the one for its template, with its output path and the run's snapshot |
| Generator.PlanExcludesTestTemplates | internal/generator/generate.go:36-40 | when `IncludeTest` is false, no template whose base name ends in `_test.go.tmpl` is ever requested |
| Generator.PlanWithTestsKeepsAll | internal/generator/generate.go:37 | when `IncludeTest` is true, nothing is skipped: request `i` is for template `i` |
| Generator.PlanLength | internal/generator/generate.go:31-47 | a full run makes one request per listed template minus the skipped ones |
| Generator.GeneratedCount | internal/generator/generate.go:29-53 | on success the number of generated files is the number of templates minus the number skipped |
| Generator.Generate | internal/generator/generate.go:12-54 | the error is nil iff the output directory exists and every loader call succeeded. A failed directory creation is the only case where the directory is missing: then the loader is not called. A failed listing: the one listing call failed and no render was requested. Success: the listing succeeded, the loader received exactly the planned requests (each with the snapshot) in order, all succeeded, and `generatedFiles` is their outputs. A failed render: the requests made are a prefix of the plan, all succeeded but the last, which failed; the error names its output, and `generatedFiles` holds the outputs before it. `MkdirAll` is called exactly once, for the output directory, and its answer is whether the directory exists afterwards. Only the directory and its parents can be created |
| Generator.RenderTemplates | internal/generator/generate.go:29-47 | the loop over the listed templates: on success every planned request was made and succeeded and every planned output was collected; otherwise the requests made are the plan up to the failing one, all succeeded but that one, the error names its output, and nothing after it was attempted |
| Generator.RenderTemplate | internal/generator/generate.go:32-46 | one template: when skipped, no request; otherwise one request for its output path with the snapshot. A failure is reported iff the loader answered that request with an error, and it names the output path; on success the output path is collected |
| Snapshot.NewTemplateData | internal/generator/templatedata.go:17-31 | each of the five arguments is stored unchanged in its field: version, the three catalogues (same elements, same order), and `IncludeTest` |
| Snapshot.NewTemplateDataDeterminedByArguments | internal/generator/templatedata.go:17-31 | the constructor depends on its arguments alone and loses none of them: two results are equal iff their arguments are |
| Loader.FileSystem.MkdirAll | internal/generator/generate.go:18 | succeeds at once when the directory exists; otherwise it succeeds iff the directory exists afterwards; only the directory and its parents may be created; the call and its answer are logged |
| Loader.TemplateLoader.ListFiles | internal/generator/generate.go:23 | on success, the loader's template names in its own order; the call and whether it failed are logged |
| Loader.TemplateLoader.GenerateFile | internal/generator/generate.go:43 | every render request is logged in call order, with its template, output path, snapshot and whether it failed |
## Left out

- `log.Printf` output (generate.go:38, 49-52) is not modelled. It is logging only.
- The cause carried by each error (`%v` of the underlying error) is dropped. The model keeps only the kind of failure and, for a failed render, the output path.
- Generate: Go returns only the error. The model also returns `generatedFiles`, which Go only logs, so that the contract can state it.
- Generate: the files on disk are not modelled. That outputs written before a failed render stay in place shows only in two ways. `generatedFiles` lists them, and the model has no operation that removes a file.
- Generate: the loop is split into `RenderTemplates` and its body into `RenderTemplate`. This shapes the proof only: the order of computation, the skip test and the early return are Go's.
- The snapshot is treated as immutable. Go passes `*TemplateData` by pointer (generate.go:14, 43), so a `GenerateFile` could in principle change it, `IncludeTest` included, during the loop. The model passes it as a value, following the rule that templates only read the snapshot.
- `os.MkdirAll`, `ListFiles` and `GenerateFile` are oracles. Their success or failure is chosen nondeterministically. Permissions, template parsing and the text of rendered files are not modelled.
- Loader.FileSystem.MkdirAll: which missing parent directories get created is not pinned down. The model states only that nothing outside the directory and its parents appears, and that the directory exists afterwards exactly when the call succeeds.
- Paths.Base: `filepath.Base` of an empty path (`.`) and of a path with trailing slashes (Go strips them first) are not modelled. Template names are assumed to be `/`-separated with non-empty segments.
- Paths.Join: the `filepath.Clean` step of `filepath.Join` is not modelled, so `.`, `..` and doubled separators inside the output directory are kept as given.
- Windows path separators are not modelled.
- The introspection package that builds the catalogue entries is not part of this model. `Operation`, `EnumTypeInfo` and `ImageTypeInfo` are opaque types compared only for equality.
- `cmd/vipsgen/main.go` (flag parsing, loader choice, default output directory, template extraction) is not part of this model.

/** The generation driver (internal/generator/generate.go): every listed
    template is mapped to an output file directly inside the output
    directory, test templates are skipped unless the snapshot asks for them,
    and the rest are rendered one by one, in list order, stopping at the
    first failure. */
module Generator {
  import opened Optional
  import opened Paths
  import opened Snapshot
  import opened Loader

  /** The extension every template name carries and the output drops. */
  const TemplateExtension := ".tmpl"
  /** The name ending that marks a template producing a Go test file. */
  const TestTemplateSuffix := "_test.go.tmpl"
  /** The name ending of a Go test file. */
  const TestOutputSuffix := "_test.go"

  /** The three ways Generate fails, in the order it can meet them. */
  datatype GenerateError =
    | CreateDirFailed(dir: string)
    | ListFailed
    | RenderFailed(output: string)

  // ---------------------------------------------------------------------
  // Specification: what one template becomes

  /** The output file name: the template's base name with exactly one
      trailing `.tmpl` removed, or the base name itself when it has none. */
  function OutputName(templateFile: string): (name: string)
  {
    TrimSuffix(Base(templateFile), TemplateExtension)
  }

  /** The output path of a template in `outputDir`. */
  function OutputPath(outputDir: string, templateFile: string): (path: string)
  {
    Join(outputDir, OutputName(templateFile))
  }

  /** Whether a template's base name marks it as a test template. */
  predicate IsTestTemplate(templateFile: string)
  {
    HasSuffix(Base(templateFile), TestTemplateSuffix)
  }

  /** Whether Generate skips a template: only test templates, and only when
      the snapshot does not ask for them. */
  predicate Skipped(includeTest: bool, templateFile: string)
  {
    !includeTest && IsTestTemplate(templateFile)
  }

  /** The render request Generate makes for a template: its output path and
      the run's snapshot. */
  function JobFor(data: TemplateData, outputDir: string, templateFile: string): (job: Job)
  {
    Job(templateFile, OutputPath(outputDir, templateFile), data)
  }

  /** The render requests one template contributes: none when skipped,
      otherwise the one request for it. */
  function Step(data: TemplateData, outputDir: string, templateFile: string): (jobs: seq<Job>)
  {
    if Skipped(data.IncludeTest, templateFile) then [] else [JobFor(data, outputDir, templateFile)]
  }

  /** The render requests a complete run over `templates` makes, in order:
      at most one per template. */
  function Plan(templates: seq<string>, data: TemplateData, outputDir: string): (jobs: seq<Job>)
    ensures |jobs| <= |templates|
  {
    if templates == [] then []
    else
      Plan(templates[..|templates| - 1], data, outputDir)
        + Step(data, outputDir, templates[|templates| - 1])
  }

  /** The output paths of a sequence of render requests. */
  function Outputs(jobs: seq<Job>): (paths: seq<string>)
  {
    if jobs == [] then [] else Outputs(jobs[..|jobs| - 1]) + [jobs[|jobs| - 1].output]
  }

  /** One output path per request, in the same order. */
  lemma {:induction false} OutputsInOrder(jobs: seq<Job>)
    ensures |Outputs(jobs)| == |jobs|
    ensures forall k :: 0 <= k < |jobs| ==> Outputs(jobs)[k] == jobs[k].output
  {
    if jobs != [] {
      OutputsInOrder(jobs[..|jobs| - 1]);
    }
  }

  /** The outputs of two runs of requests, one after the other. */
  lemma {:induction false} OutputsAppend(a: seq<Job>, b: seq<Job>)
    ensures Outputs(a + b) == Outputs(a) + Outputs(b)
    decreases |b|
  {
    if b == [] {
      assert a + b == a;
    } else {
      var init, last := b[..|b| - 1], b[|b| - 1];
      assert a + b == (a + init) + [last];
      assert b == init + [last];
      OutputsSnoc(a + init, last);
      OutputsSnoc(init, last);
      OutputsAppend(a, init);
    }
  }

  lemma OutputsSnoc(jobs: seq<Job>, j: Job)
    ensures Outputs(jobs + [j]) == Outputs(jobs) + [j.output]
  {
  }

  /** The loader log of a run of render requests that all succeeded. */
  function Succeeded(jobs: seq<Job>): (log: seq<Call>)
  {
    if jobs == [] then [] else Succeeded(jobs[..|jobs| - 1]) + [RenderCall(jobs[|jobs| - 1], true)]
  }

  /** One successful render call per request, in the same order. */
  lemma {:induction false} SucceededInOrder(jobs: seq<Job>)
    ensures |Succeeded(jobs)| == |jobs|
    ensures forall k :: 0 <= k < |jobs| ==> Succeeded(jobs)[k] == RenderCall(jobs[k], true)
  {
    if jobs != [] {
      SucceededInOrder(jobs[..|jobs| - 1]);
    }
  }

  /** The log of two runs of successful requests, one after the other. */
  lemma {:induction false} SucceededAppend(a: seq<Job>, b: seq<Job>)
    ensures Succeeded(a + b) == Succeeded(a) + Succeeded(b)
    decreases |b|
  {
    if b == [] {
      assert a + b == a;
    } else {
      var init, last := b[..|b| - 1], b[|b| - 1];
      assert (a + b)[..|a + b| - 1] == a + init;
      SucceededAppend(a, init);
    }
  }

  /** Whether every call in a log was answered without error. */
  predicate AllOk(log: seq<Call>)
  {
    forall k :: 0 <= k < |log| ==> log[k].ok
  }

  /** How many of `templates` are skipped, counted from the front. */
  function SkipCount(templates: seq<string>, includeTest: bool): (n: nat)
    ensures n <= |templates|
  {
    if templates == [] then 0
    else (if Skipped(includeTest, templates[0]) then 1 else 0) + SkipCount(templates[1..], includeTest)
  }

  // ---------------------------------------------------------------------
  // Properties of the output path

  /** The output path lies directly inside `outputDir`: it is `outputDir`,
      one separator unless `outputDir` already ends with one, and the output
      name, which is its last segment. */
  lemma OutputPathInsideDir(outputDir: string, templateFile: string)
    requires OutputName(templateFile) != []
    ensures outputDir == [] ==> OutputPath(outputDir, templateFile) == OutputName(templateFile)
    ensures outputDir != [] && outputDir[|outputDir| - 1] == Separator ==>
      OutputPath(outputDir, templateFile) == outputDir + OutputName(templateFile)
    ensures outputDir != [] && outputDir[|outputDir| - 1] != Separator ==>
      OutputPath(outputDir, templateFile) == outputDir + [Separator] + OutputName(templateFile)
    ensures outputDir <= OutputPath(outputDir, templateFile)
    ensures Base(OutputPath(outputDir, templateFile)) == OutputName(templateFile)
  {
    OutputNameTrimsExtension(templateFile);
    BaseOfJoin(outputDir, OutputName(templateFile));
    JoinPlacesNameInDir(outputDir, OutputName(templateFile));
  }

  /** The output name is the base name less exactly one `.tmpl`: adding the
      extension back gives the base name; a base name without it is kept.
      Being part of the base name, it holds no separator. */
  lemma OutputNameTrimsExtension(templateFile: string)
    ensures HasSuffix(Base(templateFile), TemplateExtension) ==>
      OutputName(templateFile) + TemplateExtension == Base(templateFile)
    ensures !HasSuffix(Base(templateFile), TemplateExtension) ==>
      OutputName(templateFile) == Base(templateFile)
    ensures Separator !in OutputName(templateFile)
  {
    var base, name := Base(templateFile), OutputName(templateFile);
    BaseIsLastSegment(templateFile);
    TrimSuffixRemovesOne(base, TemplateExtension);
    assert name <= base;
    forall k | 0 <= k < |name|
      ensures name[k] != Separator
    {
      assert name[k] == base[k];
    }
  }

  /** A template is skipped exactly when tests are not wanted and it is a
      `.tmpl` template whose output is a Go test file. */
  lemma SkippedIffTestOutput(includeTest: bool, templateFile: string)
    ensures Skipped(includeTest, templateFile) <==>
      && !includeTest
      && HasSuffix(Base(templateFile), TemplateExtension)
      && HasSuffix(OutputName(templateFile), TestOutputSuffix)
  {
    var base, name := Base(templateFile), OutputName(templateFile);
    TrimSuffixRemovesOne(base, TemplateExtension);
    assert TestTemplateSuffix == TestOutputSuffix + TemplateExtension;
    if HasSuffix(base, TemplateExtension) {
      assert base == name + TemplateExtension;
      if |name| >= |TestOutputSuffix| {
        assert base[|base| - |TestTemplateSuffix|..] == name[|name| - |TestOutputSuffix|..] + TemplateExtension;
      }
    }
  }

  /** The directories in a template's name play no part in its output path. */
  lemma OutputPathIgnoresTemplateDirs(outputDir: string, templateDir: string, name: string)
    requires Separator !in name
    ensures OutputPath(outputDir, templateDir + [Separator] + name) == OutputPath(outputDir, name)
  {
    BaseOfLastSegment(templateDir + [Separator], name);
    BaseOfLastSegment([], name);
    assert [] + name == name;
  }

  /** A template at the top level: `vips.go.tmpl` becomes `vips.go`. */
  lemma OutputNameOfTopLevelTemplate()
    ensures OutputName("vips.go.tmpl") == "vips.go"
  {
    BaseOfLastSegment([], "vips.go.tmpl");
    assert [] + "vips.go.tmpl" == "vips.go.tmpl";
  }

  /** The directory goes, and only `.tmpl` is removed from a test template. */
  lemma OutputNameOfNestedTestTemplate()
    ensures OutputName("templates/image_test.go.tmpl") == "image_test.go"
  {
    BaseOfLastSegment("templates/", "image_test.go.tmpl");
    assert "templates/" + "image_test.go.tmpl" == "templates/image_test.go.tmpl";
  }

  /** Only one trailing `.tmpl` is removed. */
  lemma OutputNameTrimsOnce()
    ensures OutputName("twice.tmpl.tmpl") == "twice.tmpl"
  {
    BaseOfLastSegment([], "twice.tmpl.tmpl");
    assert [] + "twice.tmpl.tmpl" == "twice.tmpl.tmpl";
  }

  /** A name without the extension is used as it is. */
  lemma OutputNameWithoutExtension()
    ensures OutputName("static/README") == "README"
  {
    BaseOfLastSegment("static/", "README");
    assert "static/" + "README" == "static/README";
  }

  // ---------------------------------------------------------------------
  // Properties of the plan

  /** Planning a concatenation plans each part in turn. */
  lemma {:induction false} PlanAppend(a: seq<string>, b: seq<string>, data: TemplateData, outputDir: string)
    ensures Plan(a + b, data, outputDir) == Plan(a, data, outputDir) + Plan(b, data, outputDir)
    decreases |b|
  {
    if b == [] {
      assert a + b == a;
    } else {
      var b', last := b[..|b| - 1], b[|b| - 1];
      assert (a + b)[..|a + b| - 1] == a + b';
      assert (a + b)[|a + b| - 1] == last;
      PlanAppend(a, b', data, outputDir);
      calc {
        Plan(a + b, data, outputDir);
        Plan(a + b', data, outputDir) + Step(data, outputDir, last);
        Plan(a, data, outputDir) + Plan(b', data, outputDir) + Step(data, outputDir, last);
        Plan(a, data, outputDir) + (Plan(b', data, outputDir) + Step(data, outputDir, last));
      }
    }
  }

  /** Extending the processed prefix by one template adds that template's
      requests at the end. */
  lemma PlanExtend(templates: seq<string>, i: nat, data: TemplateData, outputDir: string)
    requires i < |templates|
    ensures Plan(templates[..i + 1], data, outputDir)
         == Plan(templates[..i], data, outputDir) + Step(data, outputDir, templates[i])
  {
    assert templates[..i + 1][..i] == templates[..i];
  }

  /** The requests for the templates up to and including position `i` begin
      the plan of the whole list. */
  lemma PlanPrefix(templates: seq<string>, i: nat, data: TemplateData, outputDir: string)
    requires i < |templates|
    ensures Plan(templates[..i + 1], data, outputDir) <= Plan(templates, data, outputDir)
  {
    assert templates == templates[..i + 1] + templates[i + 1..];
    PlanAppend(templates[..i + 1], templates[i + 1..], data, outputDir);
  }

  /** Every request in the plan is the request for a listed, non-skipped
      template, carrying the run's snapshot; and every listed template that
      is not skipped is requested. */
  lemma {:induction false} PlanMembership(templates: seq<string>, data: TemplateData, outputDir: string, t: string)
    ensures JobFor(data, outputDir, t) in Plan(templates, data, outputDir)
        <==> t in templates && !Skipped(data.IncludeTest, t)
    ensures forall j :: j in Plan(templates, data, outputDir) ==>
        && j == JobFor(data, outputDir, j.template)
        && j.template in templates
        && !Skipped(data.IncludeTest, j.template)
    decreases |templates|
  {
    if templates != [] {
      var init := templates[..|templates| - 1];
      PlanMembership(init, data, outputDir, t);
      assert templates == init + [templates[|templates| - 1]];
    }
  }

  /** Without the test switch no test template is ever requested. */
  lemma PlanExcludesTestTemplates(templates: seq<string>, data: TemplateData, outputDir: string)
    requires !data.IncludeTest
    ensures forall j :: j in Plan(templates, data, outputDir) ==> !IsTestTemplate(j.template)
  {
    forall j | j in Plan(templates, data, outputDir)
      ensures !IsTestTemplate(j.template)
    {
      PlanMembership(templates, data, outputDir, j.template);
    }
  }

  /** With the test switch every template is requested, each in its place. */
  lemma {:induction false} PlanWithTestsKeepsAll(templates: seq<string>, data: TemplateData, outputDir: string)
    requires data.IncludeTest
    ensures |Plan(templates, data, outputDir)| == |templates|
    ensures forall i :: 0 <= i < |templates| ==> Plan(templates, data, outputDir)[i] == JobFor(data, outputDir, templates[i])
    decreases |templates|
  {
    if templates != [] {
      var init := templates[..|templates| - 1];
      assert !Skipped(data.IncludeTest, templates[|templates| - 1]);
      assert Plan(templates, data, outputDir) == Plan(init, data, outputDir) + [JobFor(data, outputDir, templates[|templates| - 1])];
      PlanWithTestsKeepsAll(init, data, outputDir);
    }
  }

  /** One request per template that is not skipped. */
  lemma {:induction false} PlanLength(templates: seq<string>, data: TemplateData, outputDir: string)
    ensures |Plan(templates, data, outputDir)| == |templates| - SkipCount(templates, data.IncludeTest)
    decreases |templates|
  {
    if templates != [] {
      var rest := templates[1..];
      assert templates == [templates[0]] + rest;
      PlanAppend([templates[0]], rest, data, outputDir);
      assert [templates[0]][..0] == [];
      PlanLength(rest, data, outputDir);
    }
  }

  /** A single template contributes exactly its own step; with PlanAppend,
      the plan is the concatenation of the templates' steps in list order. */
  lemma PlanOfOne(templateFile: string, data: TemplateData, outputDir: string)
    ensures Plan([templateFile], data, outputDir) == Step(data, outputDir, templateFile)
  {
  }

  /** The calls a run makes after listing succeeded and every planned
      render succeeded were all answered without error. */
  lemma SuccessfulRunAllOk(before: seq<Call>, jobs: seq<Job>)
    ensures AllOk((before + [ListCall(true)] + Succeeded(jobs))[|before|..])
  {
    var made := (before + [ListCall(true)] + Succeeded(jobs))[|before|..];
    assert made == [ListCall(true)] + Succeeded(jobs);
    SucceededInOrder(jobs);
  }

  /** A run whose last render failed has a call answered with an error. */
  lemma FailedRenderNotAllOk(before: seq<Call>, done: seq<Job>, job: Job)
    ensures !AllOk((before + [ListCall(true)] + Succeeded(done) + [RenderCall(job, false)])[|before|..])
  {
    var made := (before + [ListCall(true)] + Succeeded(done) + [RenderCall(job, false)])[|before|..];
    assert made[|made| - 1] == RenderCall(job, false);
  }

  // ---------------------------------------------------------------------
  // The driver

  /** `Generate`. Returns Go's error (None for nil) together with
      `generatedFiles`, the output paths of the renders that succeeded, which
      Go only reports in its log. The error is None exactly when the output
      directory exists and every call made to the loader succeeded. When
      creating the directory fails, the loader is not called; when listing
      fails, nothing is rendered; otherwise the render requests made begin
      the plan, every one of them succeeding but possibly the last, whose
      failure ends the run and whose output the error names. `MkdirAll` is
      called exactly once, and its answer decides whether the run goes on. */
  method Generate(loader: TemplateLoader, fs: FileSystem, data: TemplateData, outputDir: string)
    returns (err: Option<GenerateError>, generatedFiles: seq<string>)
    modifies loader, fs
    ensures fs.mkdirs == old(fs.mkdirs) + [(outputDir, outputDir in fs.dirs)]
    ensures old(fs.dirs) <= fs.dirs <= old(fs.dirs) + {outputDir} + Parents(outputDir)
    ensures outputDir !in fs.dirs <==> err.Some? && err.value.CreateDirFailed?
    ensures err.Some? && err.value.CreateDirFailed? ==>
      && err.value.dir == outputDir
      && loader.calls == old(loader.calls)
      && generatedFiles == []
    ensures err == Some(ListFailed) ==>
      && loader.calls == old(loader.calls) + [ListCall(false)]
      && generatedFiles == []
    ensures err.None? ==>
      && loader.calls == old(loader.calls) + [ListCall(true)] + Succeeded(Plan(loader.templates, data, outputDir))
      && generatedFiles == Outputs(Plan(loader.templates, data, outputDir))
    ensures err.Some? && err.value.RenderFailed? ==> exists done: seq<Job>, job: Job ::
      && loader.calls == old(loader.calls) + [ListCall(true)] + Succeeded(done) + [RenderCall(job, false)]
      && done + [job] <= Plan(loader.templates, data, outputDir)
      && err.value.output == job.output
      && generatedFiles == Outputs(done)
    ensures |old(loader.calls)| <= |loader.calls|
    ensures err.None? <==> outputDir in fs.dirs && AllOk(loader.calls[|old(loader.calls)|..])
  {
    ghost var calls0 := loader.calls;
    var created := fs.MkdirAll(outputDir);
    if !created {
      assert loader.calls[|calls0|..] == [];
      return Some(CreateDirFailed(outputDir)), [];
    }

    var listing := loader.ListFiles();
    if listing.None? {
      assert loader.calls[|calls0|..] == [ListCall(false)];
      assert !loader.calls[|calls0|..][0].ok;
      return Some(ListFailed), [];
    }

    err, generatedFiles := RenderTemplates(loader, data, listing.value, outputDir);
    if err.None? {
      SuccessfulRunAllOk(calls0, Plan(loader.templates, data, outputDir));
    } else {
      ghost var done: seq<Job>, job: Job :|
        loader.calls == calls0 + [ListCall(true)] + Succeeded(done) + [RenderCall(job, false)];
      FailedRenderNotAllOk(calls0, done, job);
    }
  }

  /** The loop of `Generate` over the listed templates, in list order, up to
      the first failed render. On success every planned request was made,
      and succeeded, and every planned output generated; on failure the
      requests made are the plan up to and including the failing one, all
      before it having succeeded, and the outputs generated are theirs. */
  method RenderTemplates(loader: TemplateLoader, data: TemplateData, templateFiles: seq<string>, outputDir: string)
    returns (err: Option<GenerateError>, generatedFiles: seq<string>)
    modifies loader
    ensures err.None? ==> loader.calls == old(loader.calls) + Succeeded(Plan(templateFiles, data, outputDir))
    ensures err.None? ==> generatedFiles == Outputs(Plan(templateFiles, data, outputDir))
    ensures err.Some? ==> exists done: seq<Job>, job: Job ::
      && loader.calls == old(loader.calls) + Succeeded(done) + [RenderCall(job, false)]
      && done + [job] <= Plan(templateFiles, data, outputDir)
      && err == Some(RenderFailed(job.output))
      && generatedFiles == Outputs(done)
  {
    ghost var calls0 := loader.calls;
    err, generatedFiles := None, [];
    for i := 0 to |templateFiles|
      invariant loader.calls == calls0 + Succeeded(Plan(templateFiles[..i], data, outputDir))
      invariant generatedFiles == Outputs(Plan(templateFiles[..i], data, outputDir))
    {
      ghost var before := Plan(templateFiles[..i], data, outputDir);
      ghost var after := Plan(templateFiles[..i + 1], data, outputDir);
      ghost var step := Step(data, outputDir, templateFiles[i]);
      assert after == before + step by {
        PlanExtend(templateFiles, i, data, outputDir);
      }
      var failed, rendered := RenderTemplate(loader, data, templateFiles[i], outputDir);
      if failed.Some? {
        ghost var job := JobFor(data, outputDir, templateFiles[i]);
        assert step == [job];
        assert after <= Plan(templateFiles, data, outputDir) by {
          PlanPrefix(templateFiles, i, data, outputDir);
        }
        err := Some(RenderFailed(failed.value));
        assert err == Some(RenderFailed(job.output));
        assert loader.calls == calls0 + Succeeded(before) + [RenderCall(job, false)];
        return;
      }
      assert loader.calls == calls0 + Succeeded(after) by {
        SucceededAppend(before, step);
        assert (calls0 + Succeeded(before)) + Succeeded(step) == calls0 + (Succeeded(before) + Succeeded(step));
      }
      generatedFiles := generatedFiles + rendered;
      assert generatedFiles == Outputs(after) by {
        OutputsAppend(before, step);
      }
    }
    assert templateFiles[..|templateFiles|] == templateFiles;
  }

  /** The body of that loop for one template: its output path is computed; a
      test template is skipped, with no render request, unless the snapshot
      includes tests; any other template is rendered, with the snapshot, to
      its output path. A render the loader reports as failed is reported in
      `failed`, with its output path; otherwise `rendered` is the output path
      of the template's step (nothing when skipped). */
  method RenderTemplate(loader: TemplateLoader, data: TemplateData, templateFile: string, outputDir: string)
    returns (failed: Option<string>, rendered: seq<string>)
    modifies loader
    ensures failed.None? ==>
      && loader.calls == old(loader.calls) + Succeeded(Step(data, outputDir, templateFile))
      && rendered == Outputs(Step(data, outputDir, templateFile))
    ensures failed.Some? ==>
      && !Skipped(data.IncludeTest, templateFile)
      && loader.calls == old(loader.calls) + [RenderCall(JobFor(data, outputDir, templateFile), false)]
      && failed.value == OutputPath(outputDir, templateFile)
      && rendered == []
  {
    var outputFile := Join(outputDir, TrimSuffix(Base(templateFile), TemplateExtension));
    if !data.IncludeTest && HasSuffix(Base(templateFile), TestTemplateSuffix) {
      return None, [];
    }
    var ok := loader.GenerateFile(templateFile, outputFile, data);
    if !ok {
      return Some(outputFile), [];
    }
    OutputsSnoc([], JobFor(data, outputDir, templateFile));
    assert Succeeded([JobFor(data, outputDir, templateFile)]) == [RenderCall(JobFor(data, outputDir, templateFile), true)];
    return None, [outputFile];
  }

  /** A successful run writes one file per template that is not skipped. */
  lemma GeneratedCount(templates: seq<string>, data: TemplateData, outputDir: string)
    ensures |Outputs(Plan(templates, data, outputDir))| == |templates| - SkipCount(templates, data.IncludeTest)
  {
    PlanLength(templates, data, outputDir);
    OutputsInOrder(Plan(templates, data, outputDir));
  }
}

/** The collaborators Generate calls but whose code is not part of this
    model: `os.MkdirAll` and the `TemplateLoader` interface (`ListFiles`,
    `GenerateFile`). Each is an oracle that may succeed or fail on any call;
    what the model keeps of them is what was asked of them and what they
    answered. */
module Loader {
  import opened Optional
  import opened Paths
  import opened Snapshot

  /** One request to render `template`, with the snapshot `data`, into the
      file at `output`. */
  datatype Job = Job(template: string, output: string, data: TemplateData)

  /** One call received by a template loader, with its answer: `ok` is false
      when the call returned an error. */
  datatype Call =
    | ListCall(ok: bool)
    | RenderCall(job: Job, ok: bool)

  /** The directories known to exist, with a log of every `MkdirAll` call
      and whether it succeeded. */
  class FileSystem {
    var dirs: set<string>
    var mkdirs: seq<(string, bool)>

    constructor (dirs: set<string>)
      ensures this.dirs == dirs && mkdirs == []
    {
      this.dirs := dirs;
      mkdirs := [];
    }

    /** `os.MkdirAll`: succeeds at once when `dir` already exists. Otherwise
        it may create some of the missing parents of `dir` and then either
        `dir` itself (success) or nothing more (failure); `ok` says whether
        `dir` exists afterwards, and no directory outside `dir` and its
        parents appears. The call and its answer are logged. */
    method MkdirAll(dir: string) returns (ok: bool)
      modifies this
      ensures ok <==> dir in dirs
      ensures old(dirs) <= dirs <= old(dirs) + {dir} + Parents(dir)
      ensures dir in old(dirs) ==> ok && dirs == old(dirs)
      ensures mkdirs == old(mkdirs) + [(dir, ok)]
    {
      if dir in dirs {
        mkdirs := mkdirs + [(dir, true)];
        return true;
      }
      var made: set<string> :| made <= Parents(dir);
      assert dir !in Parents(dir);
      dirs := dirs + made;
      ok :| true;
      if ok {
        dirs := dirs + {dir};
      }
      mkdirs := mkdirs + [(dir, ok)];
    }
  }

  /** A template source (embedded or on disk) serving a fixed, ordered
      collection of template names, with a log of every call it received and
      how it answered. */
  class TemplateLoader {
    const templates: seq<string>
    var calls: seq<Call>

    constructor (templates: seq<string>)
      ensures this.templates == templates && calls == []
    {
      this.templates := templates;
      calls := [];
    }

    /** `ListFiles`: the template names in the source's order, or a failure;
        the call and its answer are logged. */
    method ListFiles() returns (files: Option<seq<string>>)
      modifies this
      ensures calls == old(calls) + [ListCall(files.Some?)]
      ensures files.Some? ==> files.value == templates
    {
      var ok: bool :| true;
      files := if ok then Some(templates) else None;
      calls := calls + [ListCall(ok)];
    }

    /** `GenerateFile`: renders one template with the snapshot `data` and
        writes the result to `outputFile`; the request, snapshot included,
        and whether it succeeded are logged. */
    method GenerateFile(templateFile: string, outputFile: string, data: TemplateData) returns (ok: bool)
      modifies this
      ensures calls == old(calls) + [RenderCall(Job(templateFile, outputFile, data), ok)]
    {
      ok :| true;
      calls := calls + [RenderCall(Job(templateFile, outputFile, data), ok)];
    }
  }
}

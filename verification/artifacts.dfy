/** Patch and markdown artifacts: input validation, the file name derived
    from a timestamp and a sanitised name, the artifact record, and its
    wrapping as a task result. Writing, hashing and measuring the file are
    outside the model; the digest and size arrive as inputs. */
module Artifacts {
  import opened Wrappers
  import opened Json
  import opened Text

  /** The two artifact flavours and the constants that distinguish them. */
  datatype Flavour = PatchArtifact | DocArtifact {
    function DefaultName(): string {
      match this
      case PatchArtifact => "change"
      case DocArtifact => "report"
    }
    function SubDir(): string {
      match this
      case PatchArtifact => "patches"
      case DocArtifact => "docs"
    }
    function Extension(): string {
      match this
      case PatchArtifact => ".patch"
      case DocArtifact => ".md"
    }
    function Kind(): string {
      match this
      case PatchArtifact => "patch"
      case DocArtifact => "doc"
    }
    /** The message raised for blank patch text or markdown. */
    function BlankBodyMessage(): string {
      match this
      case PatchArtifact => "patch_text must be a non-empty string"
      case DocArtifact => "markdown must be a non-empty string"
    }
  }

  datatype Artifact = Artifact(kind: string, path: string, sha256: string, bytes: int, meta: Object)

  /** `(name or default).strip().replace(" ", "_")`. */
  function SafeName(name: Option<string>, default: string): (r: string)
    ensures NoSpaceChar(r)
    ensures var base := if name.Some? && name.value != "" then name.value else default;
      |r| == |Strip(base)| && forall i :: 0 <= i < |r| ==> r[i] == (if Strip(base)[i] == ' ' then '_' else Strip(base)[i])
  {
    var base := if name.Some? && name.value != "" then name.value else default;
    ReplaceSpaces(Strip(base))
  }

  /** `Path(a) / b` on POSIX paths: an absolute `b` replaces `a`, an empty `b`
      adds nothing, and an empty `a` (which `pathlib` reads as `.`) leaves the
      relative `b`. Normalisation of repeated or trailing separators is not modelled. */
  function JoinPath(a: string, b: string): string {
    if b == "" then a
    else if b[0] == '/' then b
    else if a == "" then b
    else a + "/" + b
  }

  /** `f"{ts}_{safe_name}{ext}"`. */
  function FileName(ts: string, safeName: string, ext: string): string {
    ts + "_" + safeName + ext
  }

  /** The artifact's path `<root>/<artifacts_root>/<subdir>/<file>`. */
  function ArtifactPath(root: string, artifactsRoot: string, flavour: Flavour, ts: string, safeName: string): string {
    JoinPath(JoinPath(JoinPath(root, artifactsRoot), flavour.SubDir()), FileName(ts, safeName, flavour.Extension()))
  }

  /** `{"name": safe_name, "ts": ts, **(meta or {})}`. */
  function ArtifactMeta(safeName: string, ts: string, meta: Option<Object>): (r: Object)
    ensures "name" in r && "ts" in r
    ensures meta.Some? ==> forall k :: k in meta.value ==> k in r && r[k] == meta.value[k]
    ensures (meta.None? || "name" !in meta.value) ==> r["name"] == JString(safeName)
    ensures (meta.None? || "ts" !in meta.value) ==> r["ts"] == JString(ts)
    ensures forall k :: k in r ==> k in {"name", "ts"} || (meta.Some? && k in meta.value)
  {
    Spread(map["name" := JString(safeName), "ts" := JString(ts)], meta.GetOr(map[]))
  }

  /** `not isinstance(v, str) or not v.strip()`: the test both writers apply
      to `repo_path` and to the body before anything is written. */
  predicate Blank(v: Json) {
    !v.JString? || AllSpace(v.s)
  }

  /** `write_patch_artifact` / `write_doc_artifact`. `repoPath` and `body` are
      whatever JSON value the caller passed, `ts` is the compact UTC stamp,
      `root` what `Path(repo_path).resolve()` returns, and `sha256`, `bytes`
      the digest and size of the file once written. */
  function WriteArtifact(flavour: Flavour, repoPath: Json, body: Json, artifactsRoot: string,
                         name: Option<string>, meta: Option<Object>,
                         ts: string, root: string, sha256: string, bytes: int): (r: Result<Artifact, Exception>)
    ensures Blank(repoPath) ==> r == Err(Exception("ValueError", "repo_path must be a non-empty string"))
    ensures !Blank(repoPath) && Blank(body) ==> r == Err(Exception("ValueError", flavour.BlankBodyMessage()))
    ensures r.Ok? <==> repoPath.JString? && body.JString? && !AllSpace(repoPath.s) && !AllSpace(body.s)
    ensures r.Ok? ==>
      var safe := SafeName(name, flavour.DefaultName());
      && r.value.kind == flavour.Kind()
      && r.value.path == ArtifactPath(root, artifactsRoot, flavour, ts, safe)
      && r.value.meta == ArtifactMeta(safe, ts, meta)
      && r.value.sha256 == sha256 && r.value.bytes == bytes
  {
    if !repoPath.JString? then Err(Exception("ValueError", "repo_path must be a non-empty string"))
    else
      StripEmptyIffAllSpace(repoPath.s);
      if Strip(repoPath.s) == "" then Err(Exception("ValueError", "repo_path must be a non-empty string"))
      else if !body.JString? then Err(Exception("ValueError", flavour.BlankBodyMessage()))
      else
        StripEmptyIffAllSpace(body.s);
        if Strip(body.s) == "" then Err(Exception("ValueError", flavour.BlankBodyMessage()))
        else
          var safe := SafeName(name, flavour.DefaultName());
          Ok(Artifact(flavour.Kind(), ArtifactPath(root, artifactsRoot, flavour, ts, safe), sha256, bytes,
                      ArtifactMeta(safe, ts, meta)))
  }

  /** `write_patch_artifact(repo_path=..., patch_text=..., ...)`. */
  function WritePatchArtifact(repoPath: Json, patchText: Json, artifactsRoot: string, name: Option<string>,
                              meta: Option<Object>, ts: string, root: string, sha256: string, bytes: int): (r: Result<Artifact, Exception>)
    ensures r.Ok? ==> r.value.kind == "patch"
    ensures r.Ok? ==>
      && "name" in r.value.meta
      && ((meta.None? || "name" !in meta.value) ==> r.value.meta["name"] == JString(SafeName(name, "change")))
    ensures r.Ok? ==> r.value.path == ArtifactPath(root, artifactsRoot, PatchArtifact, ts, SafeName(name, "change"))
    ensures r.Err? <==> Blank(repoPath) || Blank(patchText)
    ensures r.Err? ==> r.error.name == "ValueError"
    ensures !Blank(repoPath) && Blank(patchText) ==> r.error.message == "patch_text must be a non-empty string"
  {
    WriteArtifact(PatchArtifact, repoPath, patchText, artifactsRoot, name, meta, ts, root, sha256, bytes)
  }

  /** `write_doc_artifact(repo_path=..., markdown=..., ...)`. */
  function WriteDocArtifact(repoPath: Json, markdown: Json, artifactsRoot: string, name: Option<string>,
                            meta: Option<Object>, ts: string, root: string, sha256: string, bytes: int): (r: Result<Artifact, Exception>)
    ensures r.Ok? ==> r.value.kind == "doc"
    ensures r.Ok? ==>
      && "name" in r.value.meta
      && ((meta.None? || "name" !in meta.value) ==> r.value.meta["name"] == JString(SafeName(name, "report")))
    ensures r.Ok? ==> r.value.path == ArtifactPath(root, artifactsRoot, DocArtifact, ts, SafeName(name, "report"))
    ensures r.Err? <==> Blank(repoPath) || Blank(markdown)
    ensures r.Err? ==> r.error.name == "ValueError"
    ensures !Blank(repoPath) && Blank(markdown) ==> r.error.message == "markdown must be a non-empty string"
  {
    WriteArtifact(DocArtifact, repoPath, markdown, artifactsRoot, name, meta, ts, root, sha256, bytes)
  }

  /** `artifact_to_result(a)`: the five fields under the single key `artifact`. */
  function ArtifactToResult(a: Artifact): (r: Object)
    ensures r.Keys == {"artifact"} && r["artifact"].JObject?
    ensures r["artifact"].fields.Keys == {"kind", "path", "sha256", "bytes", "meta"}
  {
    map["artifact" := JObject(map["kind" := JString(a.kind), "path" := JString(a.path),
                                  "sha256" := JString(a.sha256), "bytes" := JInt(a.bytes),
                                  "meta" := JObject(a.meta)])]
  }

  /** Reads an artifact back out of a task result. */
  function ResultToArtifact(r: Object): Option<Artifact> {
    if "artifact" in r && r["artifact"].JObject? then
      var f := r["artifact"].fields;
      if "kind" in f && "path" in f && "sha256" in f && "bytes" in f && "meta" in f
         && f["kind"].JString? && f["path"].JString? && f["sha256"].JString? && f["bytes"].JInt? && f["meta"].JObject?
      then Some(Artifact(f["kind"].s, f["path"].s, f["sha256"].s, f["bytes"].i, f["meta"].fields))
      else None
    else None
  }

  /** The result wraps every field unchanged: reading it back recovers the artifact. */
  lemma ArtifactResultRoundTrip(a: Artifact)
    ensures ResultToArtifact(ArtifactToResult(a)) == Some(a)
  {
  }
}

/**
 * The backend's upload checks, apps/backend/src/middleware/upload.ts: for a
 * multipart request the already-parsed files are counted, each is checked
 * for its type and then its size, and the accepted ones are normalised
 * into `ctx.request.files` before `next()`.
 */
module Upload {
  import opened Js
  import opened Koa
  import BackendLogger

  const MB := 1024 * 1024

  /** `UploadMiddlewareOptions`; None is a property the caller left out. */
  datatype UploadOptions = UploadOptions(
    maxFileSize: Option<int>,
    allowedTypes: Option<seq<string>>,
    uploadDir: Option<string>,
    preserveFilename: Option<bool>,
    maxFiles: Option<int>)

  const NoOptions := UploadOptions(None, None, None, None, None)

  /** The options after the destructuring defaults. */
  datatype Settings = Settings(maxFileSize: int, allowedTypes: seq<string>, uploadDir: string, preserveFilename: bool, maxFiles: int)

  function Or<T>(o: Option<T>, d: T): T {
    if o.Some? then o.value else d
  }

  /** `const { maxFileSize = 10MB, allowedTypes = [...], uploadDir = 'uploads/', preserveFilename = false, maxFiles = 5 } = options`. */
  function Resolve(o: UploadOptions): (s: Settings)
    ensures o == NoOptions ==> s == Settings(10 * MB, ["image/jpeg", "image/png", "image/gif", "application/pdf"], "uploads/", false, 5)
    ensures o.maxFileSize.Some? ==> s.maxFileSize == o.maxFileSize.value
    ensures o.allowedTypes.Some? ==> s.allowedTypes == o.allowedTypes.value
    ensures o.maxFiles.Some? ==> s.maxFiles == o.maxFiles.value
  {
    Settings(
      Or(o.maxFileSize, 10 * MB),
      Or(o.allowedTypes, ["image/jpeg", "image/png", "image/gif", "application/pdf"]),
      Or(o.uploadDir, "uploads/"),
      Or(o.preserveFilename, false),
      Or(o.maxFiles, 5))
  }

  /** `{...preset, ...options}`: what the caller sets wins. */
  function Overlay(preset: UploadOptions, o: UploadOptions): UploadOptions {
    UploadOptions(
      if o.maxFileSize.Some? then o.maxFileSize else preset.maxFileSize,
      if o.allowedTypes.Some? then o.allowedTypes else preset.allowedTypes,
      if o.uploadDir.Some? then o.uploadDir else preset.uploadDir,
      if o.preserveFilename.Some? then o.preserveFilename else preset.preserveFilename,
      if o.maxFiles.Some? then o.maxFiles else preset.maxFiles)
  }

  const ImagePreset := UploadOptions(Some(5 * MB), Some(["image/jpeg", "image/png", "image/gif", "image/webp"]), Some("uploads/images/"), None, None)

  const DocumentPreset := UploadOptions(Some(20 * MB),
    Some(["application/pdf", "application/msword", "application/vnd.openxmlformats-officedocument.wordprocessingml.document", "text/plain"]),
    Some("uploads/documents/"), None, None)

  /** `imageUpload(options)`. */
  function ImageSettings(o: UploadOptions): (s: Settings)
    ensures o.maxFileSize.None? ==> s.maxFileSize == 5 * MB
    ensures o.maxFileSize.Some? ==> s.maxFileSize == o.maxFileSize.value
    ensures o.allowedTypes.None? ==> s.allowedTypes == ["image/jpeg", "image/png", "image/gif", "image/webp"]
    ensures o.maxFiles.None? ==> s.maxFiles == 5
  {
    Resolve(Overlay(ImagePreset, o))
  }

  /** `documentUpload(options)`. */
  function DocumentSettings(o: UploadOptions): (s: Settings)
    ensures o.maxFileSize.None? ==> s.maxFileSize == 20 * MB
    ensures o.maxFileSize.Some? ==> s.maxFileSize == o.maxFileSize.value
    ensures o.allowedTypes.None? ==> s.allowedTypes == DocumentPreset.allowedTypes.value
    ensures o.maxFiles.None? ==> s.maxFiles == 5
  {
    Resolve(Overlay(DocumentPreset, o))
  }

  // ------------------------------------------------------------ one file

  /** `file.mimetype || file.type`. */
  function MimeOf(file: Json): Option<Json> {
    OrElse(Field(file, "mimetype"), Field(file, "type"))
  }

  /** `allowedTypes.includes(...)`. */
  predicate TypeAllowed(file: Json, allowed: seq<string>) {
    var t := MimeOf(file);
    t.Some? && t.value.JStr? && t.value.s in allowed
  }

  /**
   * JavaScript's ToNumber on the operand of `>`; `strNum` is `Number` on
   * strings, which objects and arrays also reach through their text.
   */
  function NumberOf(v: Option<Json>, strNum: string -> Num): Num {
    if v.None? then NaN
    else match v.value
      case JNull => Fin(0.0)
      case JBool(b) => Fin(if b then 1.0 else 0.0)
      case JNum(n) => n
      case JStr(s) => strNum(s)
      case _ => strNum(ToJsString(v.value))
  }

  /** `file.size > maxFileSize`. */
  predicate TooLarge(file: Json, maxFileSize: int, strNum: string -> Num) {
    var n := NumberOf(Field(file, "size"), strNum);
    n.PosInf? || (n.Fin? && n.r > maxFileSize as real)
  }

  /** A member whose value is undefined is not kept; JSON values cannot hold undefined. */
  function Defined(k: string, o: Option<Json>): seq<(string, Json)> {
    if o.Some? then [(k, o.value)] else []
  }

  /** The URL a stored file is served under. */
  function UrlOf(file: Json): string {
    "/uploads/" + ToJsStringOpt(OrElse(Field(file, "filename"), Field(file, "name")))
  }

  /** The normalised record pushed for an accepted file. */
  function Entry(file: Json): (e: Json)
    ensures e.JObj? && |e.members| >= 1 && e.members[|e.members| - 1] == ("url", JStr(UrlOf(file)))
  {
    JObj(Defined("originalname", OrElse(Field(file, "originalname"), Field(file, "name")))
      + Defined("mimetype", MimeOf(file)) + Defined("size", Field(file, "size"))
      + [("url", JStr(UrlOf(file)))])
  }

  function TypeMessage(file: Json): string {
    "不支持的文件类型: " + ToJsStringOpt(MimeOf(file))
  }

  function SizeMessage(maxFileSize: int): string {
    "文件大小超过限制: " + NumText(Fin(maxFileSize as real / MB as real)) + "MB"
  }

  function TooManyMessage(maxFiles: int): string {
    "最多允许上传" + IntText(maxFiles) + "个文件"
  }

  function Strs(xs: seq<string>): (j: Json)
    ensures j.JArr? && |j.items| == |xs|
  {
    if xs == [] then JArr([]) else JArr([JStr(xs[0])] + Strs(xs[1..]).items)
  }

  // ------------------------------------------------------------ the file loop

  /** What the loop body decides for one file: go on, answer 400 with a body, or a TypeError (a null file). */
  datatype Check = Pass | Refuse(body: Json) | Crash

  /** One iteration of the `for` loop: the type is checked before the size. */
  function CheckFile(file: Json, s: Settings, strNum: string -> Num): (c: Check)
    ensures c.Refuse? ==> Field(c.body, "code") == Some(Int(400))
    ensures c.Pass? <==> !file.JNull? && TypeAllowed(file, s.allowedTypes) && !TooLarge(file, s.maxFileSize, strNum)
  {
    if file.JNull? then Crash
    else if !TypeAllowed(file, s.allowedTypes) then
      Refuse(EnvelopeWith(400, TypeMessage(file), [("allowedTypes", Strs(s.allowedTypes))]))
    else if TooLarge(file, s.maxFileSize, strNum) then Refuse(Envelope(400, SizeMessage(s.maxFileSize)))
    else Pass
  }

  /** The verdict of the first file from the `k`-th on that does not pass, or Pass. */
  function FirstFailure(list: seq<Json>, k: nat, s: Settings, strNum: string -> Num): (c: Check)
    requires k <= |list|
    ensures c.Refuse? ==> Field(c.body, "code") == Some(Int(400))
    decreases |list| - k
  {
    if k == |list| then Pass
    else
      var c := CheckFile(list[k], s, strNum);
      if c.Pass? then FirstFailure(list, k + 1, s, strNum) else c
  }

  /** `xs.map(f)`, built front to back as the loop pushes. */
  function MapEach(f: Json -> Json, xs: seq<Json>): (ys: seq<Json>)
    ensures |ys| == |xs|
  {
    if xs == [] then [] else MapEach(f, xs[..|xs| - 1]) + [f(xs[|xs| - 1])]
  }

  /** The `i`-th result is `f` of the `i`-th element. */
  lemma {:induction false} MapEachAt(f: Json -> Json, xs: seq<Json>, i: nat)
    requires i < |xs|
    ensures MapEach(f, xs)[i] == f(xs[i])
    decreases |xs|
  {
    var n := |xs| - 1;
    if i < n {
      MapEachAt(f, xs[..n], i);
      assert xs[..n][i] == xs[i];
    }
  }

  /** The records pushed for accepted files. */
  function Entries(files: seq<Json>): (es: seq<Json>)
    ensures |es| == |files|
  {
    MapEach(Entry, files)
  }

  /** The `i`-th record is the `i`-th file's: one record per file, in order. */
  lemma EntryAt(files: seq<Json>, i: nat)
    requires i < |files|
    ensures Entries(files)[i] == Entry(files[i])
  {
    MapEachAt(Entry, files, i);
  }

  /** `Array.isArray(files) ? files : Object.values(files)`. */
  function FileList(files: Json): seq<Json> {
    match files
    case JArr(items) => items
    case JObj(ms) => Values(ms)
    case JStr(s) => Chars(s)
    case _ => []
  }

  function Values(ms: seq<(string, Json)>): (vs: seq<Json>)
    ensures |vs| == |ms| && forall i :: 0 <= i < |ms| ==> vs[i] == ms[i].1
  {
    if ms == [] then [] else [ms[0].1] + Values(ms[1..])
  }

  function Chars(s: string): (cs: seq<Json>)
    ensures |cs| == |s| && forall i :: 0 <= i < |s| ==> cs[i] == JStr([s[i]])
  {
    if s == [] then [] else [JStr([s[0]])] + Chars(s[1..])
  }

  /** `{...ctx.request.body, ...fields}` with `fields` empty. */
  function SpreadBody(body: Option<Json>): Json {
    if body.Some? && IsObjectValue(body.value) then JObj(BackendLogger.Spread(body.value)) else JObj([])
  }

  const UploadFailed := "文件上传处理失败"

  /** Where the middleware stands before `next()`: answered (no `next()`), or handing on `view`. */
  datatype Step = Answer(view: Snapshot) | Continue(view: Snapshot)

  /** What the middleware does up to `next()`. */
  function Decide(v: Snapshot, s: Settings, strNum: string -> Num): (st: Step)
    ensures !v.request.multipart ==> st == Continue(v)
    ensures v.request.multipart && TruthyOpt(v.request.files) && |FileList(v.request.files.value)| > s.maxFiles ==>
      st == Answer(v.(status := 400, body := Some(Envelope(400, TooManyMessage(s.maxFiles)))))
    ensures st.Answer? ==> st.view.request == v.request && (Rejected(st.view, 400) || Rejected(st.view, 500))
  {
    if !v.request.multipart then Continue(v)
    else
      var list := if TruthyOpt(v.request.files) then FileList(v.request.files.value) else [];
      if TruthyOpt(v.request.files) && |list| > s.maxFiles then
        Answer(v.(status := 400, body := Some(Envelope(400, TooManyMessage(s.maxFiles)))))
      else
        match FirstFailure(list, 0, s, strNum)
        case Crash => Answer(v.(status := 500, body := Some(Envelope(500, UploadFailed))))
        case Refuse(b) => Answer(v.(status := 400, body := Some(b)))
        case Pass =>
          Continue(v.(request := v.request.(files := Some(JArr(Entries(list))), body := Some(SpreadBody(v.request.body)))))
  }

  /**
   * `upload(options)`. A multipart request that passes the checks calls
   * `next()` inside the `try`, so an exception from the rest of the chain is
   * answered with the same 500 envelope; only the non-multipart path, which
   * returns `next()` directly, lets such an exception through.
   */
  method Upload(ctx: Context, s: Settings, strNum: string -> Num, next: Snapshot -> Downstream) returns (callsNext: bool, thrown: Option<Json>)
    modifies ctx
    ensures var st := Decide(old(ctx.View()), s, strNum);
      callsNext == st.Continue? &&
      (st.Answer? ==> ctx.View() == st.view && thrown.None?) &&
      (st.Continue? && !old(ctx.request.multipart) ==> ctx.View() == next(st.view).view && thrown == next(st.view).thrown) &&
      (st.Continue? && old(ctx.request.multipart) ==>
        var d := next(st.view);
        thrown.None? &&
        ctx.View() == if d.thrown.Some? then d.view.(status := 500, body := Some(Envelope(500, UploadFailed))) else d.view)
  {
    thrown := None;
    if !ctx.request.multipart {
      var d := next(ctx.View());
      ctx.Load(d.view);
      callsNext, thrown := true, d.thrown;
      return;
    }
    var files := if TruthyOpt(ctx.request.files) then FileList(ctx.request.files.value) else [];
    if TruthyOpt(ctx.request.files) && |files| > s.maxFiles {
      ctx.status, ctx.body := 400, Some(Envelope(400, TooManyMessage(s.maxFiles)));
      callsNext := false;
      return;
    }
    var verdict, entries := CheckFiles(files, s, strNum);
    if verdict.Crash? {
      ctx.status, ctx.body := 500, Some(Envelope(500, UploadFailed));
      callsNext := false;
      return;
    }
    if verdict.Refuse? {
      ctx.status, ctx.body := 400, Some(verdict.body);
      callsNext := false;
      return;
    }
    ctx.request := ctx.request.(files := Some(JArr(entries)), body := Some(SpreadBody(ctx.request.body)));
    callsNext := true;
    var d := next(ctx.View());
    ctx.Load(d.view);
    if d.thrown.Some? {
      ctx.status, ctx.body := 500, Some(Envelope(500, UploadFailed));
    }
  }

  /**
   * The `for` loop over the files: it stops at the first file that does not
   * pass, and otherwise has pushed one record per file.
   */
  method CheckFiles(list: seq<Json>, s: Settings, strNum: string -> Num) returns (verdict: Check, files: seq<Json>)
    ensures verdict == FirstFailure(list, 0, s, strNum)
    ensures verdict.Pass? ==> files == Entries(list)
  {
    files := [];
    var k := 0;
    while k < |list|
      invariant 0 <= k <= |list|
      invariant FirstFailure(list, k, s, strNum) == FirstFailure(list, 0, s, strNum)
      invariant files == Entries(list[..k])
    {
      var c := CheckFile(list[k], s, strNum);
      if !c.Pass? {
        return c, files;
      }
      assert list[..k + 1][..k] == list[..k];
      files := files + [Entry(list[k])];
      k := k + 1;
    }
    assert list[..k] == list;
    return Pass, files;
  }

  // ------------------------------------------------------------ properties

  /** The files pass (and are all recorded) exactly when each one of them passes both checks. */
  lemma {:induction false} PassIffEachPasses(list: seq<Json>, k: nat, s: Settings, strNum: string -> Num)
    requires k <= |list|
    ensures FirstFailure(list, k, s, strNum).Pass? <==> forall i :: k <= i < |list| ==> CheckFile(list[i], s, strNum).Pass?
    decreases |list| - k
  {
    if k < |list| {
      PassIffEachPasses(list, k + 1, s, strNum);
    }
  }

  /** A refused or crashing scan is decided by the first failing file: all before it passed. */
  lemma {:induction false} FailureIsFirst(list: seq<Json>, k: nat, s: Settings, strNum: string -> Num)
    requires k <= |list|
    requires !FirstFailure(list, k, s, strNum).Pass?
    ensures exists j ::
      k <= j < |list| && FirstFailure(list, k, s, strNum) == CheckFile(list[j], s, strNum) &&
      (forall i :: k <= i < j ==> CheckFile(list[i], s, strNum).Pass?)
    decreases |list| - k
  {
    if CheckFile(list[k], s, strNum).Pass? {
      FailureIsFirst(list, k + 1, s, strNum);
      var j :| k + 1 <= j < |list| && FirstFailure(list, k + 1, s, strNum) == CheckFile(list[j], s, strNum) &&
        (forall i :: k + 1 <= i < j ==> CheckFile(list[i], s, strNum).Pass?);
      assert forall i :: k <= i < j ==> CheckFile(list[i], s, strNum).Pass?;
    } else {
      assert FirstFailure(list, k, s, strNum) == CheckFile(list[k], s, strNum);
    }
  }

  /** The type is checked before the size: a file failing both is refused for its type. */
  lemma TypeBeforeSize(file: Json, s: Settings, strNum: string -> Num)
    requires !file.JNull? && !TypeAllowed(file, s.allowedTypes) && TooLarge(file, s.maxFileSize, strNum)
    ensures FirstFailure([file], 0, s, strNum) == Refuse(EnvelopeWith(400, TypeMessage(file), [("allowedTypes", Strs(s.allowedTypes))]))
  {
  }

  /** The count limit comes first: too many files are refused even when one of them is null. */
  lemma CountBeforeFiles(v: Snapshot, s: Settings, strNum: string -> Num)
    requires v.request.multipart && v.request.files.Some? && v.request.files.value.JArr?
    requires |v.request.files.value.items| > s.maxFiles && JNull in v.request.files.value.items
    ensures Decide(v, s, strNum).Answer? && Rejected(Decide(v, s, strNum).view, 400)
  {
  }

  /** A successful scan's URL for a file named only by `name`. */
  lemma UrlFromName(name: string)
    ensures UrlOf(JObj([("name", JStr(name))])) == "/uploads/" + name
  {
    assert "filename"[0] != "name"[0];
  }

  /** The 10 megabyte default reads as "10MB" in the refusal. */
  lemma DefaultSizeMessage()
    ensures SizeMessage(Resolve(NoOptions).maxFileSize) == "文件大小超过限制: 10MB"
  {
    assert (10 * MB) as real / MB as real == 10.0;
    assert IsIntegral(10.0);
    assert NatText(10) == "10";
  }
}

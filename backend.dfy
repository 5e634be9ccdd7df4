/** backend.py: the folder-name sanitiser, the cleaning of generator replies,
    and the session pipeline (generate or modify, persist, render to a PNG,
    embed the PNG into the PDF template), as functions from one store to the
    next. The generator, Graphviz and the PDF library are parameters. */
module Backend {
  import opened Wrappers
  import opened Strings
  import opened Paths
  import opened Store

  // ---------------------------------------------------------------------
  // sanitize_email_for_folder

  /** The characters the regular expression `[^a-zA-Z0-9_-]` leaves alone. */
  predicate IsFolderChar(c: char) {
    ('a' <= c <= 'z') || ('A' <= c <= 'Z') || ('0' <= c <= '9') || c == '_' || c == '-'
  }

  /** `re.sub(r'[^a-zA-Z0-9_-]', '_', email)`: same length, and nothing but folder characters. */
  function Sanitize(email: string): (r: string)
    ensures |r| == |email|
    ensures forall i :: 0 <= i < |r| ==> IsFolderChar(r[i])
  {
    if email == [] then []
    else [if IsFolderChar(email[0]) then email[0] else '_'] + Sanitize(email[1..])
  }

  /** Each character is kept if it is a folder character and becomes `_` otherwise. */
  lemma {:induction false} SanitizeAt(email: string)
    ensures forall i :: 0 <= i < |email| ==>
      Sanitize(email)[i] == if IsFolderChar(email[i]) then email[i] else '_'
  {
    if email != [] {
      SanitizeAt(email[1..]);
    }
  }

  /** Sanitising a folder name again changes nothing. */
  lemma {:induction false} SanitizeIdempotent(email: string)
    ensures Sanitize(Sanitize(email)) == Sanitize(email)
  {
    SanitizeAt(Sanitize(email));
  }

  // ---------------------------------------------------------------------
  // The generator and the cleaning of its replies

  /** `response.text.strip().replace("```dot", "").replace("```", "").strip()`. */
  function CleanResponse(text: string): string {
    Strip(ReplaceAll(ReplaceAll(Strip(text), "```dot", ""), Fence, ""))
  }

  /** A cleaned reply neither starts nor ends with whitespace and holds no code fence. */
  lemma CleanResponseShape(text: string)
    ensures var r := CleanResponse(text);
      && (r == [] || (!IsSpace(r[0]) && !IsSpace(r[|r| - 1])))
      && !Contains(r, Fence)
  {
    var b := ReplaceAll(Strip(text), "```dot", "");
    var m := ReplaceAll(b, Fence, "");
    assert CleanResponse(text) == Strip(m);
    RemovalLeavesNoFence(b);
    StripKeepsNoFence(m);
  }

  lemma StripKeepsNoFence(m: string)
    requires !Contains(m, Fence)
    ensures !Contains(Strip(m), Fence)
  {
    StripIsSlice(m);
    var k := |m| - |TrimStart(m)|;
    SliceKeepsAbsence(m, Fence, k, k + |Strip(m)|);
  }

  /** What the pipeline asks of the generator: a first graph for an
      instruction, or an edit of the current graph text. */
  datatype GenRequest = Initial(prompt: string) | Modify(current: string, prompt: string)

  /** The generator's raw reply text; `None` when the call raised. It need
      not be deterministic: each call of the pipeline gets its own. */
  type Generator = GenRequest -> Option<string>

  /** `generate_initial_dot_code` / `modify_dot_code`: the cleaned reply, or `None`. */
  function Generate(gen: Generator, req: GenRequest): Option<string> {
    match gen(req)
    case None => None
    case Some(text) => Some(CleanResponse(text))
  }

  // ---------------------------------------------------------------------
  // Rendering

  const GenerationFailed: string := "Failed to generate flowchart logic."
  const ConvertFailed: string := "Failed to convert flowchart to an image."
  const EmbedFailed: string := "Failed to embed image in PDF."

  /** Python's `(output_filename, error_message)` pair. */
  type Outcome = (Option<string>, Option<string>)

  function TempPng(stem: string): string {
    Join(TempDir, stem + ".png")
  }

  function TempDot(stem: string): string {
    Join(TempDir, stem + ".dot")
  }

  function OutputName(stem: string): string {
    "flowchart_" + stem + ".pdf"
  }

  function OutputPath(stem: string): string {
    Join(OutputDir, OutputName(stem))
  }

  /** `convert_dot_to_png`: write the DOT text to a temporary file named
      after the image, let Graphviz (`renderOk`) write the image, and remove
      the temporary file whatever happened. */
  function ConvertDotToPng(fs: FS, dot: string, out: string, renderOk: bool): (FS, bool) {
    var dotFile := TempDot(Stem(out));
    var written := fs.WriteText(dotFile, dot);
    var rendered := if renderOk then written.Put(out, Image(dot)) else written;
    var cleaned := if rendered.Exists(dotFile) then rendered.Unlink(dotFile) else rendered;
    (cleaned, renderOk)
  }

  /** `embed_image_in_pdf`: fails when the template is missing; otherwise
      the PDF library (`embedOk`) must open the template and the image and
      save the result. */
  function EmbedImageInPdf(fs: FS, template: string, image: string, out: string, embedOk: bool): (FS, bool) {
    if !fs.Exists(template) then (fs, false)
    else if template in fs.files && image in fs.files && fs.files[image].Image? && embedOk then
      (fs.Put(out, Document(fs.files[image].source)), true)
    else (fs, false)
  }

  /** The render stage of `process_dot_code`, run on the store in which
      the session file has just been written: convert, embed, and remove the
      temporary image only on the path that reaches the end. */
  function RenderStage(fs: FS, dot: string, session: string, renderOk: bool, embedOk: bool): (FS, Outcome) {
    var stem := Stem(session);
    var png := TempPng(stem);
    var (converted, ok) := ConvertDotToPng(fs, dot, png, renderOk);
    if !ok then (converted, (None, Some(ConvertFailed)))
    else
      var (embedded, ok') := EmbedImageInPdf(converted, PdfTemplate, png, OutputPath(stem), embedOk);
      if !ok' then (embedded, (None, Some(EmbedFailed)))
      else
        var cleaned := if embedded.Exists(png) then embedded.Unlink(png) else embedded;
        (cleaned, (Some(OutputName(stem)), None))
  }

  /** `process_dot_code`: persist the text, then render it. */
  function ProcessDotCode(fs: FS, dot: string, session: string, renderOk: bool, embedOk: bool): (FS, Outcome) {
    RenderStage(fs.WriteText(session, dot), dot, session, renderOk, embedOk)
  }

  /** What `process_flowchart_request` sends to the generator: create sends
      the instruction alone, append sends the current session text with it. */
  function Request(fs: FS, prompt: string, session: string, isNew: bool): GenRequest
    requires !isNew ==> session in fs.files && fs.files[session].Text?
  {
    if isNew then Initial(prompt) else Modify(fs.files[session].text, prompt)
  }

  /** `process_flowchart_request`: an absent or empty cleaned reply is a
      failure that touches nothing; otherwise the reply goes through
      `process_dot_code`. */
  function ProcessFlowchartRequest(fs: FS, prompt: string, session: string, isNew: bool,
                                   gen: Generator, renderOk: bool, embedOk: bool): (FS, Outcome)
    requires !isNew ==> session in fs.files && fs.files[session].Text?
  {
    var dot := Generate(gen, Request(fs, prompt, session, isNew));
    if dot.None? || dot.value == "" then (fs, (None, Some(GenerationFailed)))
    else ProcessDotCode(fs, dot.value, session, renderOk, embedOk)
  }

  // ---------------------------------------------------------------------
  // Properties of the pipeline

  /** Every path a handler can pass as the session file: a `.dot` path below
      the session directory, or an absolute one (a session id that starts
      with `/` replaces the directory it is joined to). */
  predicate IsSessionPath(p: string) {
    EndsWith(p, ".dot") && (Under(SessionDir, p) || p[0] == '/')
  }

  /** A session file that stays in the session directory on disk as well:
      below it, with no `..` component. Every id `uuid4` makes gives one. */
  predicate IsSessionFile(p: string) {
    Under(SessionDir, p) && EndsWith(p, ".dot") && NoParentStep(p)
  }

  /** A path below a directory starts with the directory's first character. */
  lemma JoinHead(dir: string, name: string)
    requires dir != []
    ensures Join(dir, name)[0] == dir[0]
  {
  }

  /** A path that does not start with `s` is not below the session directory. */
  lemma OutsideSessionDir(p: string)
    requires p != [] && p[0] != 's'
    ensures !Under(SessionDir, p)
  {
  }

  /** The four files one render touches are pairwise distinct, none of them
      is the PDF template, and only the session file is below the session
      directory. */
  lemma RenderPaths(session: string)
    requires IsSessionPath(session)
    ensures var stem := Stem(session);
      var d, g, o := TempDot(stem), TempPng(stem), OutputPath(stem);
      && stem != []
      && TempDot(Stem(g)) == d
      && session != d && session != g && session != o && session != PdfTemplate
      && d != g && d != o && d != PdfTemplate
      && g != o && g != PdfTemplate
      && o != PdfTemplate
      && !Under(SessionDir, d) && !Under(SessionDir, g) && !Under(SessionDir, o)
  {
    var stem := Stem(session);
    StemOfDotPath(session);
    StemOfFile(TempDir, stem, ".png");
    var d, g, o := TempDot(stem), TempPng(stem), OutputPath(stem);
    assert session[0] == 's' || session[0] == '/' by {
      if Under(SessionDir, session) {
        assert session[..|SessionDir| + 1][0] == session[0];
      }
    }
    JoinHead(TempDir, stem + ".dot");
    JoinHead(TempDir, stem + ".png");
    JoinHead(OutputDir, OutputName(stem));
    assert d[|d| - 1] == 't' && g[|g| - 1] == 'g';
    OutsideSessionDir(d);
    OutsideSessionDir(g);
    OutsideSessionDir(o);
  }

  /** Two maps agree on every path outside `touched`. */
  ghost predicate SameOutside(a: map<string, Blob>, b: map<string, Blob>, touched: set<string>) {
    forall p :: p !in touched ==> (p in a <==> p in b) && (p in a ==> a[p] == b[p])
  }

  /** Whether a render that produced an image can embed it: the template exists as a file. */
  predicate CanEmbed(fs: FS, embedOk: bool) {
    PdfTemplate in fs.files && embedOk
  }

  /** Conversion leaves no temporary DOT file, writes the image exactly
      when Graphviz succeeds, and touches nothing else. */
  lemma ConvertEffect(fs: FS, dot: string, out: string, renderOk: bool)
    requires out != TempDot(Stem(out))
    ensures var (fs', ok) := ConvertDotToPng(fs, dot, out, renderOk);
      var dotFile := TempDot(Stem(out));
      && ok == renderOk
      && fs'.dirs == fs.dirs
      && dotFile !in fs'.files
      && (renderOk ==> out in fs'.files && fs'.files[out] == Image(dot))
      && (forall p :: p != dotFile && (p != out || !renderOk) ==>
            (p in fs'.files <==> p in fs.files) && (p in fs.files ==> fs'.files[p] == fs.files[p]))
  {
  }

  /** Embedding succeeds exactly when the template is a file, the image is
      an image and the PDF library succeeds; only then is the output written,
      as a document of the image's source, and nothing else changes. */
  lemma EmbedEffect(fs: FS, template: string, image: string, out: string, embedOk: bool)
    ensures var (fs', ok) := EmbedImageInPdf(fs, template, image, out, embedOk);
      && ok == (template in fs.files && image in fs.files && fs.files[image].Image? && embedOk)
      && fs'.dirs == fs.dirs
      && (ok ==> out in fs'.files && fs'.files[out] == Document(fs.files[image].source))
      && (forall p :: p != out || !ok ==>
            (p in fs'.files <==> p in fs.files) && (p in fs.files ==> fs'.files[p] == fs.files[p]))
  {
  }

  /** The document is persisted before rendering and survives every render
      outcome; each stage that fails reports its own message, and success
      reports the output name, which depends only on the session's stem. */
  lemma ProcessDotCodeOutcome(fs: FS, dot: string, session: string, renderOk: bool, embedOk: bool)
    requires IsSessionPath(session)
    ensures var (fs', out) := ProcessDotCode(fs, dot, session, renderOk, embedOk);
      && session in fs'.files && fs'.files[session] == Text(dot)
      && out == (if !renderOk then (None, Some(ConvertFailed))
                 else if !CanEmbed(fs, embedOk) then (None, Some(EmbedFailed))
                 else (Some(OutputName(Stem(session))), None))
  {
    RenderPaths(session);
    var stem := Stem(session);
    var saved := fs.WriteText(session, dot);
    ConvertEffect(saved, dot, TempPng(stem), renderOk);
    var converted := ConvertDotToPng(saved, dot, TempPng(stem), renderOk).0;
    EmbedEffect(converted, PdfTemplate, TempPng(stem), OutputPath(stem), embedOk);
  }

  /** The temporary DOT file never outlives a render; the temporary PNG is
      removed only when embedding succeeds, stays behind (holding the image)
      when embedding fails, and is untouched when Graphviz fails. */
  lemma TempFilesLifecycle(fs: FS, dot: string, session: string, renderOk: bool, embedOk: bool)
    requires IsSessionPath(session)
    ensures var (fs', _) := ProcessDotCode(fs, dot, session, renderOk, embedOk);
      var stem := Stem(session);
      && TempDot(stem) !in fs'.files
      && (renderOk && CanEmbed(fs, embedOk) ==> TempPng(stem) !in fs'.files)
      && (renderOk && !CanEmbed(fs, embedOk) ==>
            TempPng(stem) in fs'.files && fs'.files[TempPng(stem)] == Image(dot))
      && (!renderOk ==> (TempPng(stem) in fs'.files <==> TempPng(stem) in fs.files))
      && (!renderOk && TempPng(stem) in fs.files ==> fs'.files[TempPng(stem)] == fs.files[TempPng(stem)])
  {
    RenderPaths(session);
    var stem := Stem(session);
    var saved := fs.WriteText(session, dot);
    ConvertEffect(saved, dot, TempPng(stem), renderOk);
    var converted := ConvertDotToPng(saved, dot, TempPng(stem), renderOk).0;
    EmbedEffect(converted, PdfTemplate, TempPng(stem), OutputPath(stem), embedOk);
  }

  /** The output PDF embeds an image of exactly the persisted text after a
      success, and is left as it was (possibly a stale earlier one) after any
      failure. */
  lemma OutputDocument(fs: FS, dot: string, session: string, renderOk: bool, embedOk: bool)
    requires IsSessionPath(session)
    ensures var (fs', _) := ProcessDotCode(fs, dot, session, renderOk, embedOk);
      var pdf := OutputPath(Stem(session));
      && (renderOk && CanEmbed(fs, embedOk) ==> pdf in fs'.files && fs'.files[pdf] == Document(dot))
      && (!(renderOk && CanEmbed(fs, embedOk)) ==>
            (pdf in fs'.files <==> pdf in fs.files) && (pdf in fs.files ==> fs'.files[pdf] == fs.files[pdf]))
  {
    RenderPaths(session);
    var stem := Stem(session);
    var saved := fs.WriteText(session, dot);
    ConvertEffect(saved, dot, TempPng(stem), renderOk);
    var converted := ConvertDotToPng(saved, dot, TempPng(stem), renderOk).0;
    EmbedEffect(converted, PdfTemplate, TempPng(stem), OutputPath(stem), embedOk);
  }

  /** Nothing but the session file, the two temporary files and the output
      PDF changes, and no directory is created. */
  lemma ProcessDotCodeFrame(fs: FS, dot: string, session: string, renderOk: bool, embedOk: bool)
    requires IsSessionPath(session)
    ensures var (fs', _) := ProcessDotCode(fs, dot, session, renderOk, embedOk);
      var stem := Stem(session);
      && fs'.dirs == fs.dirs
      && SameOutside(fs.files, fs'.files, {session, TempDot(stem), TempPng(stem), OutputPath(stem)})
  {
    RenderPaths(session);
    var stem := Stem(session);
    var saved := fs.WriteText(session, dot);
    ConvertEffect(saved, dot, TempPng(stem), renderOk);
    var converted := ConvertDotToPng(saved, dot, TempPng(stem), renderOk).0;
    EmbedEffect(converted, PdfTemplate, TempPng(stem), OutputPath(stem), embedOk);
  }

  /** A missing or empty cleaned reply ends the request with the generation
      message and leaves the store exactly as it was. */
  lemma GenerationFailureChangesNothing(fs: FS, prompt: string, session: string, isNew: bool,
                                        gen: Generator, renderOk: bool, embedOk: bool)
    requires !isNew ==> session in fs.files && fs.files[session].Text?
    requires Generate(gen, Request(fs, prompt, session, isNew)) in {None, Some("")}
    ensures ProcessFlowchartRequest(fs, prompt, session, isNew, gen, renderOk, embedOk)
         == (fs, (None, Some(GenerationFailed)))
  {
  }

  /** The whole request in closed form: a missing or empty cleaned reply
      fails with the generation message; otherwise the reply is persisted as
      the session text whatever rendering does afterwards, and the outcome is
      that of the first failing render stage, or the output name. */
  lemma PipelineOutcome(fs: FS, prompt: string, session: string, isNew: bool,
                        gen: Generator, renderOk: bool, embedOk: bool)
    requires IsSessionPath(session)
    requires !isNew ==> session in fs.files && fs.files[session].Text?
    ensures var dot := Generate(gen, Request(fs, prompt, session, isNew));
      var (fs', out) := ProcessFlowchartRequest(fs, prompt, session, isNew, gen, renderOk, embedOk);
      && fs'.dirs == fs.dirs
      && (dot.Some? && dot.value != "" ==> session in fs'.files && fs'.files[session] == Text(dot.value))
      && out == (if dot.None? || dot.value == "" then (None, Some(GenerationFailed))
                 else if !renderOk then (None, Some(ConvertFailed))
                 else if !CanEmbed(fs, embedOk) then (None, Some(EmbedFailed))
                 else (Some(OutputName(Stem(session))), None))
  {
    var dot := Generate(gen, Request(fs, prompt, session, isNew));
    if dot.Some? && dot.value != "" {
      ProcessDotCodeOutcome(fs, dot.value, session, renderOk, embedOk);
      ProcessDotCodeFrame(fs, dot.value, session, renderOk, embedOk);
      assert ProcessFlowchartRequest(fs, prompt, session, isNew, gen, renderOk, embedOk)
          == ProcessDotCode(fs, dot.value, session, renderOk, embedOk);
    }
  }

  /** Every return carries exactly one of a file name and an error message,
      and every error message is one of the three stage messages. */
  lemma ExactlyOneOfNameOrError(fs: FS, prompt: string, session: string, isNew: bool,
                                gen: Generator, renderOk: bool, embedOk: bool)
    requires !isNew ==> session in fs.files && fs.files[session].Text?
    ensures var (_, out) := ProcessFlowchartRequest(fs, prompt, session, isNew, gen, renderOk, embedOk);
      && (out.0.Some? <==> out.1.None?)
      && (out.1.Some? ==> out.1.value in {GenerationFailed, ConvertFailed, EmbedFailed})
  {
    var dot := Generate(gen, Request(fs, prompt, session, isNew));
    if dot.Some? && dot.value != "" {
      assert ProcessFlowchartRequest(fs, prompt, session, isNew, gen, renderOk, embedOk)
          == ProcessDotCode(fs, dot.value, session, renderOk, embedOk);
    }
  }

  /** Create never reads the session file: two stores that differ only
      there give the same outcome and the same files everywhere else. */
  lemma CreateIgnoresSessionFile(fs1: FS, fs2: FS, prompt: string, session: string,
                                 gen: Generator, renderOk: bool, embedOk: bool)
    requires fs1.dirs == fs2.dirs && SameOutside(fs1.files, fs2.files, {session})
    ensures var r1 := ProcessFlowchartRequest(fs1, prompt, session, true, gen, renderOk, embedOk);
      var r2 := ProcessFlowchartRequest(fs2, prompt, session, true, gen, renderOk, embedOk);
      && r1.1 == r2.1
      && r1.0.dirs == r2.0.dirs
      && SameOutside(r1.0.files, r2.0.files, {session})
  {
    var r1 := ProcessFlowchartRequest(fs1, prompt, session, true, gen, renderOk, embedOk);
    var r2 := ProcessFlowchartRequest(fs2, prompt, session, true, gen, renderOk, embedOk);
    var dot := Generate(gen, Initial(prompt));
    if dot.Some? && dot.value != "" {
      assert r1 == ProcessDotCode(fs1, dot.value, session, renderOk, embedOk);
      assert r2 == ProcessDotCode(fs2, dot.value, session, renderOk, embedOk);
      OverwriteHidesDifference(fs1, fs2, session, dot.value);
      assert r1 == r2;
    } else {
      assert r1 == (fs1, (None, Some(GenerationFailed)));
      assert r2 == (fs2, (None, Some(GenerationFailed)));
    }
  }

  /** Overwriting the one file two stores disagree on makes them equal. */
  lemma OverwriteHidesDifference(fs1: FS, fs2: FS, session: string, text: string)
    requires fs1.dirs == fs2.dirs && SameOutside(fs1.files, fs2.files, {session})
    ensures fs1.WriteText(session, text) == fs2.WriteText(session, text)
  {
    assert fs1.WriteText(session, text).files == fs2.WriteText(session, text).files;
  }

  /** The generator is consulted once, on `Request(...)`: two generators
      that give the same reply to it lead to the same result. */
  lemma GeneratorSeesOnlyRequest(fs: FS, prompt: string, session: string, isNew: bool,
                                 gen1: Generator, gen2: Generator, renderOk: bool, embedOk: bool)
    requires !isNew ==> session in fs.files && fs.files[session].Text?
    requires gen1(Request(fs, prompt, session, isNew)) == gen2(Request(fs, prompt, session, isNew))
    ensures ProcessFlowchartRequest(fs, prompt, session, isNew, gen1, renderOk, embedOk)
         == ProcessFlowchartRequest(fs, prompt, session, isNew, gen2, renderOk, embedOk)
  {
  }

  /** The pipeline keeps a store well formed, whichever path the session file has. */
  lemma PipelineKeepsWellFormed(fs: FS, prompt: string, session: string, isNew: bool,
                                gen: Generator, renderOk: bool, embedOk: bool)
    requires WellFormed(fs)
    requires !isNew ==> session in fs.files && fs.files[session].Text?
    ensures WellFormed(ProcessFlowchartRequest(fs, prompt, session, isNew, gen, renderOk, embedOk).0)
  {
    var dot := Generate(gen, Request(fs, prompt, session, isNew));
    if dot.Some? && dot.value != "" {
      ProcessDotCodeKeepsWellFormed(fs, dot.value, session, renderOk, embedOk);
    }
  }

  /** Rendering writes text at the session path and the temporary DOT path,
      and images and documents only outside the session directory. */
  lemma ProcessDotCodeKeepsWellFormed(fs: FS, dot: string, session: string, renderOk: bool, embedOk: bool)
    requires WellFormed(fs)
    ensures WellFormed(ProcessDotCode(fs, dot, session, renderOk, embedOk).0)
  {
    var stem := Stem(session);
    var g, o := TempPng(stem), OutputPath(stem);
    JoinHead(TempDir, stem + ".png");
    JoinHead(OutputDir, OutputName(stem));
    OutsideSessionDir(g);
    OutsideSessionDir(o);
    var saved := fs.WriteText(session, dot);
    var (converted, _) := ConvertDotToPng(saved, dot, g, renderOk);
    assert WellFormed(converted);
    var (embedded, _) := EmbedImageInPdf(converted, PdfTemplate, g, o, embedOk);
    assert WellFormed(embedded);
  }

  /** Files of other sessions are never touched: whatever a request does,
      every path below the session directory other than its own session
      file keeps its contents, or stays absent. */
  lemma OtherSessionsUntouched(fs: FS, prompt: string, session: string, isNew: bool,
                               gen: Generator, renderOk: bool, embedOk: bool)
    requires IsSessionFile(session)
    requires !isNew ==> session in fs.files && fs.files[session].Text?
    ensures var fs' := ProcessFlowchartRequest(fs, prompt, session, isNew, gen, renderOk, embedOk).0;
      forall p :: Under(SessionDir, p) && p != session ==>
        (p in fs'.files <==> p in fs.files) && (p in fs.files ==> fs'.files[p] == fs.files[p])
  {
    var dot := Generate(gen, Request(fs, prompt, session, isNew));
    if dot.Some? && dot.value != "" {
      assert ProcessFlowchartRequest(fs, prompt, session, isNew, gen, renderOk, embedOk)
          == ProcessDotCode(fs, dot.value, session, renderOk, embedOk);
      ProcessDotCodeKeepsOtherSessions(fs, dot.value, session, renderOk, embedOk);
    }
  }

  lemma ProcessDotCodeKeepsOtherSessions(fs: FS, dot: string, session: string, renderOk: bool, embedOk: bool)
    requires IsSessionFile(session)
    ensures var fs' := ProcessDotCode(fs, dot, session, renderOk, embedOk).0;
      forall p :: Under(SessionDir, p) && p != session ==>
        (p in fs'.files <==> p in fs.files) && (p in fs.files ==> fs'.files[p] == fs.files[p])
  {
    var fs' := ProcessDotCode(fs, dot, session, renderOk, embedOk).0;
    var stem := Stem(session);
    ProcessDotCodeFrame(fs, dot, session, renderOk, embedOk);
    RenderPaths(session);
    NarrowFrame(fs.files, fs'.files, session, TempDot(stem), TempPng(stem), OutputPath(stem));
  }

  /** Two maps that agree outside the session file and three paths outside
      the session directory agree on every other path inside it. */
  lemma NarrowFrame(a: map<string, Blob>, b: map<string, Blob>, session: string, d: string, g: string, o: string)
    requires SameOutside(a, b, {session, d, g, o})
    requires !Under(SessionDir, d) && !Under(SessionDir, g) && !Under(SessionDir, o)
    ensures forall p :: Under(SessionDir, p) && p != session ==>
      (p in b <==> p in a) && (p in a ==> b[p] == a[p])
  {
    forall p | Under(SessionDir, p) && p != session
      ensures (p in b <==> p in a) && (p in a ==> b[p] == a[p])
    {
      assert p !in {session, d, g, o};
    }
  }
}

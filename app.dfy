/** app.py: the template listing and the three request handlers, as
    functions from a store and a request body to the next store and a
    response. The fresh session id, the generator, Graphviz, the PDF library
    and the outcome of reading a template are parameters. */
module App {
  import opened Wrappers
  import opened Strings
  import opened Paths
  import opened Store
  import opened Backend

  // ---------------------------------------------------------------------
  // list_templates

  datatype TemplateEntry = TemplateEntry(id: string, name: string)

  /** `stem.replace("_", " ").title()`. */
  function DisplayName(stem: string): string {
    Title(ReplaceAll(stem, "_", " "))
  }

  /** The display name has one character per stem character: `_` shows as a
      space, a letter is lower-cased right after a letter and upper-cased
      anywhere else, and every other character is kept. */
  lemma DisplayNameAt(stem: string)
    ensures |DisplayName(stem)| == |stem|
    ensures forall i :: 0 <= i < |stem| ==>
      DisplayName(stem)[i] ==
        if stem[i] == '_' then ' '
        else if i > 0 && IsAsciiLetter(stem[i - 1]) then Lower(stem[i])
        else Upper(stem[i])
  {
    var spaced := ReplaceAll(stem, "_", " ");
    ReplaceCharAt(stem, '_', ' ');
    TitleAt(spaced);
  }

  /** `TEMPLATE_DIR.glob("*.dot")`: the entries directly inside the template
      directory whose name ends in `.dot`, hidden ones included. */
  predicate GlobMatch(p: string) {
    && Under(TemplateDir, p)
    && '/' !in p[|TemplateDir| + 1..]
    && EndsWith(p, ".dot")
  }

  /** Every file or directory the glob yields. */
  function TemplateFiles(fs: FS): set<string> {
    set p | p in fs.files.Keys + fs.dirs && GlobMatch(p)
  }

  /** The entry the listing builds for one matching path. */
  function EntryFor(p: string): TemplateEntry {
    TemplateEntry(Stem(p), DisplayName(Stem(p)))
  }

  /** The path `load_template` opens for a template id. */
  function TemplatePath(tid: string): string {
    Append(TemplateDir, tid + ".dot")
  }

  /** A listed id loads the very file it was listed for, except for the
      hidden file named `.dot`, whose stem keeps its dot. */
  lemma ListedIdLoads(fs: FS, p: string)
    requires p in TemplateFiles(fs) && Name(p) != ".dot"
    ensures TemplatePath(Stem(p)) == p
  {
    var k := |TemplateDir| + 1;
    var n := p[k..];
    assert p == Join(TemplateDir, n) by {
      assert p == p[..k] + p[k..];
    }
    assert |p| - 4 >= k by {
      assert p[k - 1] == '/';
      assert p[|p| - 4..] == ".dot";
      assert forall j :: |p| - 4 <= j < |p| ==> p[j] == ".dot"[j - (|p| - 4)];
    }
    assert n[|n| - 4..] == ".dot" by {
      assert n[|n| - 4..] == p[|p| - 4..];
    }
    var base := n[..|n| - 4];
    assert n == base + ".dot";
    assert base != [] by {
      NameOfJoin(TemplateDir, n);
      NameOfPlain(n);
    }
    StemOfFile(TemplateDir, base, ".dot");
  }

  /** The hidden files `.dot` and `.dot.dot` are listed under the same id,
      and that id opens `.dot.dot`. */
  lemma HiddenTemplateIdsCollide()
    ensures Stem(Join(TemplateDir, ".dot")) == ".dot"
    ensures Stem(Join(TemplateDir, ".dot.dot")) == ".dot"
    ensures TemplatePath(".dot") == Join(TemplateDir, ".dot.dot")
  {
    BareSuffixIsStem(TemplateDir);
    assert ".dot.dot" == ".dot" + ".dot";
    StemOfFile(TemplateDir, ".dot", ".dot");
  }

  /** A name that is only a suffix is its own stem. */
  lemma BareSuffixIsStem(dir: string)
    ensures Stem(Join(dir, ".dot")) == ".dot"
  {
    NameOfJoin(dir, ".dot");
    NameOfPlain(".dot");
    LastDotIs(".dot", 0);
  }

  // ---------------------------------------------------------------------
  // Requests and responses

  /** A JSON request body with string values; a missing or non-JSON body is
      the empty map. */
  type Body = map<string, string>

  datatype Response =
    | Success(userEmail: string, sessionId: string, message: string, outputFilename: Option<string>)
    | Failure(status: int, error: string)
  {
    /** The HTTP status code sent with the response. */
    function Status(): int {
      if Success? then 200 else status
    }
  }

  const CreateFieldsMissing: string := "Request body must include 'user_email' and 'prompt'"
  const AddFieldsMissing: string := "Request body must include 'user_email', 'session_id', and 'prompt'"
  const LoadFieldsMissing: string := "Request body must include 'user_email' and 'template_id'"
  const Created: string := "New flowchart PDF created."
  const Updated: string := "Flowchart PDF updated."
  /** Flask's reply when an exception escapes a handler. */
  const Uncaught: string := "Internal Server Error"

  function SessionNotFound(sid: string, email: string): string {
    "Session ID '" + sid + "' not found for user '" + email + "'."
  }

  function TemplateNotFound(tid: string): string {
    "Template '" + tid + "' not found."
  }

  function ReadFailed(reason: string): string {
    "Could not read template file: " + reason
  }

  function Loaded(tid: string): string {
    "Template '" + tid + "' loaded successfully."
  }

  /** `SESSION_DIR / sanitize_email_for_folder(email)`. */
  function UserFolder(email: string): string {
    Append(SessionDir, Sanitize(email))
  }

  /** `SESSION_DIR / folder / f"{sid}.dot"`. */
  function SessionFile(email: string, sid: string): string {
    Append(UserFolder(email), sid + ".dot")
  }

  predicate IsHexDigit(c: char) {
    ('0' <= c <= '9') || ('a' <= c <= 'f')
  }

  /** The text of `str(uuid.uuid4())`: 36 characters, hyphens at the four
      group borders, lower-case hex elsewhere, version 4 and the RFC 4122
      variant. */
  predicate IsUuid4(s: string) {
    && |s| == 36
    && (forall i :: 0 <= i < 36 ==>
          if i == 8 || i == 13 || i == 18 || i == 23 then s[i] == '-' else IsHexDigit(s[i]))
    && s[14] == '4'
    && s[19] in "89ab"
  }

  /** Python's truth value of an optional error message. */
  predicate Truthy(o: Option<string>) {
    o.Some? && o.value != ""
  }

  /** The tail shared by the three handlers: a backend error becomes a 500
      carrying its message, anything else a success echoing the session. */
  function Respond(out: Outcome, email: string, sid: string, message: string): Response {
    if Truthy(out.1) then Failure(500, out.1.value)
    else Success(email, sid, message, out.0)
  }

  // ---------------------------------------------------------------------
  // Handlers

  /** `handle_create_request`: the user folder is created before the
      generator is asked for a first graph under a fresh session id. */
  function HandleCreate(fs: FS, body: Body, freshId: string,
                        gen: Generator, renderOk: bool, embedOk: bool): (FS, Response) {
    if !("user_email" in body && "prompt" in body) then (fs, Failure(400, CreateFieldsMissing))
    else
      var email := body["user_email"];
      var withFolder := fs.MakeDirs(UserFolder(email));
      var (fs', out) := ProcessFlowchartRequest(withFolder, body["prompt"], SessionFile(email, freshId),
                                                true, gen, renderOk, embedOk);
      (fs', Respond(out, email, freshId, Created))
  }

  /** `handle_add_request`: the session file must exist; reading anything
      but a text file raises, which Flask answers with a bare 500. */
  function HandleAdd(fs: FS, body: Body, gen: Generator, renderOk: bool, embedOk: bool): (FS, Response) {
    if !("user_email" in body && "session_id" in body && "prompt" in body) then
      (fs, Failure(400, AddFieldsMissing))
    else
      var email, sid := body["user_email"], body["session_id"];
      var session := SessionFile(email, sid);
      if !fs.Exists(session) then (fs, Failure(404, SessionNotFound(sid, email)))
      else if !(session in fs.files && fs.files[session].Text?) then (fs, Failure(500, Uncaught))
      else
        var (fs', out) := ProcessFlowchartRequest(fs, body["prompt"], session, false, gen, renderOk, embedOk);
        (fs', Respond(out, email, sid, Updated))
  }

  /** `handle_load_template_request`: the template path must be a file that
      reads as text (`readOk` says whether the read succeeds, `readError` is
      the exception's text when it does not); only then is the user folder
      created and the template text rendered as a fresh session. */
  function HandleLoadTemplate(fs: FS, body: Body, freshId: string, readOk: bool, readError: string,
                              renderOk: bool, embedOk: bool): (FS, Response) {
    if !("user_email" in body && "template_id" in body) then (fs, Failure(400, LoadFieldsMissing))
    else
      var email, tid := body["user_email"], body["template_id"];
      var template := TemplatePath(tid);
      if template !in fs.files then (fs, Failure(404, TemplateNotFound(tid)))
      else if !(readOk && fs.files[template].Text?) then (fs, Failure(500, ReadFailed(readError)))
      else
        var withFolder := fs.MakeDirs(UserFolder(email));
        var (fs', out) := ProcessDotCode(withFolder, fs.files[template].text, SessionFile(email, freshId),
                                         renderOk, embedOk);
        (fs', Respond(out, email, freshId, Loaded(tid)))
  }

  // ---------------------------------------------------------------------
  // Properties of the handlers

  /** A request that lacks a required field is answered with 400 and the
      handler's own message, and changes nothing. */
  lemma MissingFieldRejected(fs: FS, body: Body, freshId: string, gen: Generator,
                             readOk: bool, readError: string, renderOk: bool, embedOk: bool)
    ensures !("user_email" in body && "prompt" in body) ==>
      HandleCreate(fs, body, freshId, gen, renderOk, embedOk) == (fs, Failure(400, CreateFieldsMissing))
    ensures !("user_email" in body && "session_id" in body && "prompt" in body) ==>
      HandleAdd(fs, body, gen, renderOk, embedOk) == (fs, Failure(400, AddFieldsMissing))
    ensures !("user_email" in body && "template_id" in body) ==>
      HandleLoadTemplate(fs, body, freshId, readOk, readError, renderOk, embedOk)
        == (fs, Failure(400, LoadFieldsMissing))
  {
  }

  /** A response is 200 exactly when it is a success, and a success always
      names the output file when it came from the pipeline. */
  lemma RespondStatus(fs: FS, prompt: string, session: string, isNew: bool, gen: Generator,
                      renderOk: bool, embedOk: bool, email: string, sid: string, message: string)
    requires !isNew ==> session in fs.files && fs.files[session].Text?
    ensures var out := ProcessFlowchartRequest(fs, prompt, session, isNew, gen, renderOk, embedOk).1;
      var resp := Respond(out, email, sid, message);
      && (resp.Status() == 200 <==> out.1.None?)
      && (resp.Status() != 200 ==> resp.Status() == 500 && Some(resp.error) == out.1)
      && (resp.Success? ==> resp.outputFilename.Some? && resp.outputFilename == out.0)
  {
    ExactlyOneOfNameOrError(fs, prompt, session, isNew, gen, renderOk, embedOk);
  }

  /** A fresh id is a plain file name: non-empty, without `/` or `.`. */
  lemma UuidIsPlainName(s: string)
    requires IsUuid4(s)
    ensures s != [] && '/' !in s && '.' !in s
  {
    forall i | 0 <= i < |s|
      ensures s[i] != '/' && s[i] != '.'
    {
    }
  }

  /** The user folder is the session directory itself or one level below it,
      and its name has no dot. */
  lemma UserFolderShape(email: string)
    ensures UserFolder(email) == SessionDir || Under(SessionDir, UserFolder(email))
    ensures '.' !in UserFolder(email)
  {
    var n := Sanitize(email);
    if n != [] {
      assert n[0] != '/';
      assert '.' !in n by {
        forall i | 0 <= i < |n|
          ensures n[i] != '.'
        {
          assert IsFolderChar(n[i]);
        }
      }
      assert UserFolder(email) == SessionDir + "/" + n;
    }
  }

  /** A session file built from a name that does not start with `/` is a
      `.dot` file below the session directory whose stem is the session id. */
  lemma SessionFileShape(email: string, sid: string)
    requires sid != [] && '/' !in sid
    ensures IsSessionFile(SessionFile(email, sid))
    ensures Stem(SessionFile(email, sid)) == sid
  {
    var folder := UserFolder(email);
    UserFolderShape(email);
    var p := SessionFile(email, sid);
    assert p == Join(folder, sid + ".dot");
    StemOfFile(folder, sid, ".dot");
    assert Under(SessionDir, p) by {
      if folder == SessionDir {
        assert p == SessionDir + "/" + (sid + ".dot");
      } else {
        assert p[..|SessionDir| + 1] == folder[..|SessionDir| + 1];
      }
    }
    assert EndsWith(p, ".dot") by {
      assert p[|p| - 4..] == ".dot";
    }
    NoParentStepInJoin(folder, sid + ".dot");
  }

  /** Whatever the session id, add and create hand the pipeline a `.dot`
      path that is below the session directory or absolute. */
  lemma SessionFileIsPath(email: string, sid: string)
    ensures IsSessionPath(SessionFile(email, sid))
    ensures sid != [] && sid[0] == '/' ==> SessionFile(email, sid) == sid + ".dot"
  {
    var folder := UserFolder(email);
    var n := sid + ".dot";
    var p := SessionFile(email, sid);
    UserFolderShape(email);
    assert EndsWith(p, ".dot") by {
      assert p[|p| - 4..] == ".dot";
    }
    if n[0] != '/' {
      assert p == Join(folder, n);
      assert Under(SessionDir, p) by {
        if folder == SessionDir {
          assert p == SessionDir + "/" + n;
        } else {
          assert p[..|SessionDir| + 1] == folder[..|SessionDir| + 1];
        }
      }
    }
  }

  /** The output name of a session depends on the session id alone: two
      users whose session ids coincide share one output PDF. */
  lemma OutputIgnoresUser(email1: string, email2: string, sid: string)
    ensures Stem(SessionFile(email1, sid)) == Stem(SessionFile(email2, sid))
  {
    var n := sid + ".dot";
    if n[0] != '/' {
      NameOfJoin(UserFolder(email1), n);
      NameOfJoin(UserFolder(email2), n);
    }
  }

  /** Create places the session at `<user folder>/<fresh id>.dot`, creates the
      user folder whatever happens next, persists any non-empty generated
      text, and answers with the pipeline's outcome: 500 with the failing
      stage's message, or 200 with `flowchart_<fresh id>.pdf`. */
  lemma CreateOutcome(fs: FS, body: Body, freshId: string, gen: Generator, renderOk: bool, embedOk: bool)
    requires "user_email" in body && "prompt" in body && IsUuid4(freshId)
    ensures var (fs', resp) := HandleCreate(fs, body, freshId, gen, renderOk, embedOk);
      var email := body["user_email"];
      var session := SessionFile(email, freshId);
      var dot := Generate(gen, Initial(body["prompt"]));
      && IsSessionFile(session) && Stem(session) == freshId
      && UserFolder(email) in fs'.dirs
      && (dot.Some? && dot.value != "" ==> session in fs'.files && fs'.files[session] == Text(dot.value))
      && resp == (if dot.None? || dot.value == "" then Failure(500, GenerationFailed)
                  else if !renderOk then Failure(500, ConvertFailed)
                  else if !CanEmbed(fs, embedOk) then Failure(500, EmbedFailed)
                  else Success(email, freshId, Created, Some("flowchart_" + freshId + ".pdf")))
  {
    var email := body["user_email"];
    var session := SessionFile(email, freshId);
    var withFolder := fs.MakeDirs(UserFolder(email));
    UuidIsPlainName(freshId);
    SessionFileShape(email, freshId);
    var r := ProcessFlowchartRequest(withFolder, body["prompt"], session, true, gen, renderOk, embedOk);
    PipelineOutcome(withFolder, body["prompt"], session, true, gen, renderOk, embedOk);
    assert HandleCreate(fs, body, freshId, gen, renderOk, embedOk) == (r.0, Respond(r.1, email, freshId, Created));
  }

  /** When the generator yields nothing usable, create still leaves the
      user folder behind, and nothing else changes. */
  lemma CreateGenerationFailure(fs: FS, body: Body, freshId: string, gen: Generator, renderOk: bool, embedOk: bool)
    requires "user_email" in body && "prompt" in body
    requires Generate(gen, Initial(body["prompt"])) in {None, Some("")}
    ensures HandleCreate(fs, body, freshId, gen, renderOk, embedOk)
         == (fs.MakeDirs(UserFolder(body["user_email"])), Failure(500, GenerationFailed))
  {
  }

  /** Add on a session file that does not exist answers 404 without
      consulting the generator and without changing anything. */
  lemma AddUnknownSession(fs: FS, body: Body, gen: Generator, renderOk: bool, embedOk: bool)
    requires "user_email" in body && "session_id" in body && "prompt" in body
    requires !fs.Exists(SessionFile(body["user_email"], body["session_id"]))
    ensures HandleAdd(fs, body, gen, renderOk, embedOk)
         == (fs, Failure(404, SessionNotFound(body["session_id"], body["user_email"])))
  {
  }

  /** Add on an existing text session, whatever its id, sends the current
      text and the prompt to the generator, persists a non-empty reply even
      when rendering then fails, and on success returns the output name of
      the session file's stem, the same name on every add to that session. */
  lemma AddOutcome(fs: FS, body: Body, gen: Generator, renderOk: bool, embedOk: bool)
    requires "user_email" in body && "session_id" in body && "prompt" in body
    requires var session := SessionFile(body["user_email"], body["session_id"]);
      session in fs.files && fs.files[session].Text?
    ensures var (fs', resp) := HandleAdd(fs, body, gen, renderOk, embedOk);
      var email, sid := body["user_email"], body["session_id"];
      var session := SessionFile(email, sid);
      var dot := Generate(gen, Modify(fs.files[session].text, body["prompt"]));
      && (dot.Some? && dot.value != "" ==> session in fs'.files && fs'.files[session] == Text(dot.value))
      && resp == (if dot.None? || dot.value == "" then Failure(500, GenerationFailed)
                  else if !renderOk then Failure(500, ConvertFailed)
                  else if !CanEmbed(fs, embedOk) then Failure(500, EmbedFailed)
                  else Success(email, sid, Updated, Some(OutputName(Stem(session)))))
  {
    var email, sid := body["user_email"], body["session_id"];
    var session := SessionFile(email, sid);
    SessionFileIsPath(email, sid);
    PipelineOutcome(fs, body["prompt"], session, false, gen, renderOk, embedOk);
  }

  /** Add on a session id that names an existing text session never answers
      404, and a success names the output of that session file's stem; for
      a plain id that is `flowchart_<session id>.pdf`, so an add on the id a
      successful create returned reports the file create reported. */
  lemma AddFindsSession(fs: FS, body: Body, gen: Generator, renderOk: bool, embedOk: bool)
    requires "user_email" in body && "session_id" in body && "prompt" in body
    requires var session := SessionFile(body["user_email"], body["session_id"]);
      session in fs.files && fs.files[session].Text?
    ensures var resp := HandleAdd(fs, body, gen, renderOk, embedOk).1;
      var sid := body["session_id"];
      && resp.Status() != 404
      && (resp.Success? ==> resp.outputFilename == Some(OutputName(Stem(SessionFile(body["user_email"], sid)))))
      && (resp.Success? && sid != [] && '/' !in sid ==> resp.outputFilename == Some("flowchart_" + sid + ".pdf"))
  {
    AddOutcome(fs, body, gen, renderOk, embedOk);
    var sid := body["session_id"];
    if sid != [] && '/' !in sid {
      SessionFileShape(body["user_email"], sid);
    }
  }

  /** Add takes the session id as it comes: an id with a `..` component
      spells a path that, on disk, leaves the user's folder for another
      user's, and an id starting with `/` names a file outside the session
      directory altogether. Both are sessions add will work on. */
  lemma AddAcceptsAnyId()
    ensures SessionFile("a@x", "../b/s") == "session_files/a_x/../b/s.dot"
    ensures IsSessionPath(SessionFile("a@x", "../b/s")) && !IsSessionFile(SessionFile("a@x", "../b/s"))
    ensures SessionFile("a@x", "/tmp/s") == "/tmp/s.dot"
    ensures !Under(SessionDir, SessionFile("a@x", "/tmp/s"))
  {
    assert Sanitize("a@x") == "a_x";
    var p := SessionFile("a@x", "../b/s");
    assert p == "session_files/a_x/../b/s.dot";
    assert ParentStepAt(p, 18);
    SessionFileIsPath("a@x", "../b/s");
  }

  /** Load answers 404 when the template path is not a file, and changes
      nothing, in particular creates no folder. */
  lemma LoadTemplateMissing(fs: FS, body: Body, freshId: string, readOk: bool, readError: string,
                            renderOk: bool, embedOk: bool)
    requires "user_email" in body && "template_id" in body
    requires TemplatePath(body["template_id"]) !in fs.files
    ensures HandleLoadTemplate(fs, body, freshId, readOk, readError, renderOk, embedOk)
         == (fs, Failure(404, TemplateNotFound(body["template_id"])))
  {
  }

  /** A template that cannot be read answers 500 with the exception's text
      and changes nothing. */
  lemma LoadTemplateUnreadable(fs: FS, body: Body, freshId: string, readOk: bool, readError: string,
                               renderOk: bool, embedOk: bool)
    requires "user_email" in body && "template_id" in body
    requires var t := TemplatePath(body["template_id"]); t in fs.files && !(readOk && fs.files[t].Text?)
    ensures HandleLoadTemplate(fs, body, freshId, readOk, readError, renderOk, embedOk)
         == (fs, Failure(500, ReadFailed(readError)))
  {
  }

  /** A readable template is persisted verbatim as a fresh session below the
      user folder (which is created), and the answer is the render outcome. */
  lemma LoadTemplateVerbatim(fs: FS, body: Body, freshId: string, readError: string,
                             renderOk: bool, embedOk: bool)
    requires "user_email" in body && "template_id" in body && IsUuid4(freshId)
    requires var t := TemplatePath(body["template_id"]); t in fs.files && fs.files[t].Text?
    ensures var (fs', resp) := HandleLoadTemplate(fs, body, freshId, true, readError, renderOk, embedOk);
      var email, tid := body["user_email"], body["template_id"];
      var session := SessionFile(email, freshId);
      && IsSessionFile(session)
      && UserFolder(email) in fs'.dirs
      && session in fs'.files && fs'.files[session] == fs.files[TemplatePath(tid)]
      && resp == (if !renderOk then Failure(500, ConvertFailed)
                  else if !CanEmbed(fs, embedOk) then Failure(500, EmbedFailed)
                  else Success(email, freshId, Loaded(tid), Some("flowchart_" + freshId + ".pdf")))
  {
    var email, tid := body["user_email"], body["template_id"];
    var session := SessionFile(email, freshId);
    var withFolder := fs.MakeDirs(UserFolder(email));
    UuidIsPlainName(freshId);
    SessionFileShape(email, freshId);
    var text := fs.files[TemplatePath(tid)].text;
    ProcessDotCodeOutcome(withFolder, text, session, renderOk, embedOk);
    ProcessDotCodeFrame(withFolder, text, session, renderOk, embedOk);
  }

  /** The existence check is not a closed list: an id with a `/` in it is
      never listed, yet it is loaded whenever the path it spells is a file. */
  lemma LoadReachesUnlistedFiles(fs: FS, body: Body, freshId: string, readOk: bool, readError: string,
                                 renderOk: bool, embedOk: bool)
    requires "user_email" in body && "template_id" in body && '/' in body["template_id"]
    ensures TemplatePath(body["template_id"]) !in TemplateFiles(fs)
    ensures TemplatePath(body["template_id"]) in fs.files ==>
      HandleLoadTemplate(fs, body, freshId, readOk, readError, renderOk, embedOk).1.Status() != 404
  {
    var tid := body["template_id"];
    var p := TemplatePath(tid);
    if tid[0] == '/' {
      assert p[0] != TemplateDir[0];
    } else {
      var k :| 0 <= k < |tid| && tid[k] == '/';
      assert p[|TemplateDir| + 1..] == tid + ".dot";
      assert p[|TemplateDir| + 1..][k] == '/';
    }
  }

  /** The handlers keep the store well formed. */
  lemma HandlersKeepWellFormed(fs: FS, body: Body, freshId: string, gen: Generator,
                               readOk: bool, readError: string, renderOk: bool, embedOk: bool)
    requires WellFormed(fs)
    ensures WellFormed(HandleCreate(fs, body, freshId, gen, renderOk, embedOk).0)
    ensures WellFormed(HandleAdd(fs, body, gen, renderOk, embedOk).0)
    ensures WellFormed(HandleLoadTemplate(fs, body, freshId, readOk, readError, renderOk, embedOk).0)
  {
    if "user_email" in body {
      var email := body["user_email"];
      var withFolder := fs.MakeDirs(UserFolder(email));
      UserFolderShape(email);
      MakeDirsKeepsWellFormed(fs, UserFolder(email));
      if "prompt" in body {
        PipelineKeepsWellFormed(withFolder, body["prompt"], SessionFile(email, freshId), true, gen, renderOk, embedOk);
        if "session_id" in body {
          var session := SessionFile(email, body["session_id"]);
          if session in fs.files && fs.files[session].Text? {
            PipelineKeepsWellFormed(fs, body["prompt"], session, false, gen, renderOk, embedOk);
          }
        }
      }
      if "template_id" in body {
        var t := TemplatePath(body["template_id"]);
        if t in fs.files && fs.files[t].Text? {
          ProcessDotCodeKeepsWellFormed(withFolder, fs.files[t].text, SessionFile(email, freshId), renderOk, embedOk);
        }
      }
    }
  }
}

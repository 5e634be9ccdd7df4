# Voice-powered flowchart generator: the session pipeline

This project models the core of a small Flask service that builds a flowchart
one spoken instruction at a time. The model covers:

- the folder name derived from a user's e-mail address;
- the cleaning applied to every reply of the text generator;
- the session pipeline of `backend.py`: generate or modify the Graphviz DOT
  text, persist it as the session document, render it to a temporary PNG,
  and embed the PNG into the PDF template;
- the four endpoints of `app.py`: list templates, load a template, create a
  session, and add a step to a session.

The file system is a value `Store.FS`: a map from path to contents plus a set
of directories. A file holds one of three things:

- text;
- an image rendered from some DOT text;
- a PDF document embedding such an image.

Paths are the strings the service builds. They are joined with `/` exactly as
`pathlib` joins them, including its two special cases: an absolute right-hand
side replaces the left one, and an empty one adds nothing.

The store is keyed by these strings: two different strings are two different
files. That matches the disk for the relative paths without a `..` component
that the service builds from the ids `uuid4` gives (`Backend.IsSessionFile`).
A client's session id is not checked, though. An id with a `..` component or a
leading `/` gives a path string (`Backend.IsSessionPath`) that can name, on
disk, another user's session or one of the service's own files under another
spelling. The lemmas stated for every `IsSessionPath` are facts about the path
strings. The lemmas about what stays inside `session_files` are stated for
`IsSessionFile` only.

Everything the service borrows from outside is a parameter of the model:

- the generator is a function from a request (first graph, or edit of the
  current text) to its raw reply, with `None` when the call raised;
- Graphviz is `renderOk`;
- the PDF library is `embedOk`;
- `uuid4()` is `freshId`;
- reading a template is `readOk` plus the text of the exception, `readError`.

The model has four layers:

- `Backend` and `App` state each operation as a function from the old store
  to the new store and the result. The lemmas are proved about these
  functions.
- `Server.Disk` is the running service: a class whose `files` and `dirs`
  fields are updated in place, step by step, in the order the source takes
  them.
- Each `Disk` method is proved to end in exactly the store, and to return
  exactly the result, that its function describes. Every lemma about a
  function therefore holds of the method too.
- `Disk.ListTemplates` walks the glob results in a loop, as the source does.

`Store.WellFormed` holds of every store the service works on. It says:

- no directory name contains a dot, so `.dot`, `.png` and `.pdf` paths exist
  only as files;
- every file under `session_files` is text.

Every handler keeps it.

## Where the code departs from its evident intent

The model follows the code.

- **The temporary PNG can leak.** `process_dot_code` says it "cleans up"
  (backend.py:145), but the PNG is deleted only after embedding succeeds. An
  embed failure returns early and leaves the image behind
  (`Backend.TempFilesLifecycle`).
- **Template ids are not checked against the listing.** The comment at
  app.py:44 says the id is validated to prevent directory traversal. The code
  only checks that `flowchart_templates/<id>.dot` is a file. An id containing
  `/` is never listed, yet it loads any such file (`App.LoadReachesUnlistedFiles`).
- **Session ids are not validated at all.** Add works on a session "for a
  specific user" (app.py:106), but the client's `session_id` goes into the path
  as it is (app.py:115). An id with a `..` component reaches another user's
  session, and an id starting with `/` reaches a file outside `session_files`
  (`App.AddAcceptsAnyId`). Add then rewrites that file like any session
  (`App.AddOutcome`).
- **Output PDFs are named globally.** Sessions belong to "a specific user"
  (app.py:77), but the PDF name depends only on the session id
  (`App.OutputIgnoresUser`). Two users whose ids coincide share one PDF.

Also modelled as written:

- A failed create leaves a trace: the user folder is created before the
  generator is asked (`App.CreateGenerationFailure`).
- A failed render leaves any earlier PDF of the same name in place
  (`Backend.OutputDocument`).
- The hidden template files `.dot` and `.dot.dot` are listed under the same
  id, and that id opens `.dot.dot` (`App.HiddenTemplateIdsCollide`).

## Model

| member | source | states |
|---|---|---|
| `Backend.Sanitize` | backend.py:44-46 | the folder name has the e-mail's length and contains only `[A-Za-z0-9_-]` |
| `Backend.SanitizeAt` | backend.py:44-46 | each character is kept when it is in `[A-Za-z0-9_-]` and becomes `_` otherwise |
| `Backend.SanitizeIdempotent` | backend.py:44-46 | sanitising a folder name again changes nothing |
| `Strings.TrimStart` | backend.py:65 | `lstrip` drops exactly the leading run of whitespace, and what it keeps does not start with whitespace |
| `Strings.TrimEnd` | backend.py:65 | `rstrip` drops exactly the trailing run of whitespace, and what it keeps does not end with whitespace |
| `Strings.Strip` | backend.py:65 | the result of `strip()` neither starts nor ends with whitespace |
| `Strings.StripIsSlice` | backend.py:65 | what `strip()` keeps is one contiguous slice of its input |
| `Strings.StripDropsSpace` | backend.py:65 | every character `strip()` drops, on either side, is whitespace |
| `Strings.RemovalLeavesNoFence` | backend.py:65 | removing every "```" left to right cannot create a new one |
| `Backend.CleanResponseShape` | backend.py:96 | a cleaned generator reply has no leading or trailing whitespace and contains no "```" (the same expression is at backend.py:65) |
| `Strings.ReplaceCharAt` | app.py:31 | replacing one character by another maps the string character by character |
| `Strings.TitleAt` | app.py:31 | `title()` upper-cases a letter unless a letter precedes it, lower-cases it after a letter, and keeps its length |
| `App.DisplayNameAt` | app.py:31 | the display name has one character per stem character: `_` becomes a space, a letter after a letter is lower-cased, any other letter upper-cased |
| `Paths.StemOfFile` | backend.py:148-149 | the stem of `dir/base.ext` is `base` for a single suffix such as `.dot` or `.png` |
| `Paths.StemOfDotPath` | backend.py:148-149 | a session path ending in `.dot` has a non-empty stem |
| `Paths.NameOfJoin` | backend.py:148 | the name of `dir/rest` is the name of `rest`, whatever `dir` is |
| `Paths.NoParentStepInJoin` | app.py:84-89 | a dot-free folder joined with a plain name that does not end in a dot has no `..` component, so the session files `uuid4` ids give stay in the user folder |
| `Backend.ConvertEffect` | backend.py:103-123 | conversion reports Graphviz's outcome, never leaves the temporary `.dot` file, writes the image exactly on success, and touches nothing else |
| `Backend.EmbedEffect` | backend.py:125-142 | embedding succeeds exactly when the template is a file, the image exists and the PDF library succeeds; only then is the output written, holding that image |
| `Backend.RenderPaths` | backend.py:144-150 | for every session path a handler can build, the session file, the two temporary files, the output PDF and the template are pairwise distinct strings, and only the session file can be under `session_files` |
| `Backend.ProcessDotCodeOutcome` | backend.py:144-161 | for every session path (as a path string): the text is persisted before rendering and survives every outcome; a convert or embed failure returns that stage's message; success returns `flowchart_<stem>.pdf` |
| `Backend.TempFilesLifecycle` | backend.py:155-159 | for every session path: the temporary `.dot` never survives; the temporary PNG is removed only when embedding succeeds, stays holding the image when it fails, and is untouched when Graphviz fails |
| `Backend.OutputDocument` | backend.py:149-161 | for every session path: after success the output PDF embeds exactly the persisted text; after any failure it is as before, possibly a stale earlier PDF |
| `Backend.ProcessDotCodeFrame` | backend.py:144-161 | for every session path: only the session file, the two temporary files and the output PDF can change, and no directory is created |
| `Backend.ProcessDotCodeKeepsOtherSessions` | backend.py:144-161 | rendering on a session file inside `session_files` with no `..` component never touches another file under `session_files` |
| `Backend.GenerationFailureChangesNothing` | backend.py:172-173 | a missing or empty cleaned reply returns the generation message and leaves the store exactly as it was |
| `Backend.PipelineOutcome` | backend.py:163-175 | the whole request in closed form, for every session path: no directory is created; a non-empty cleaned reply is persisted whatever rendering does; the outcome is the first failing stage's message or the output name |
| `Backend.ExactlyOneOfNameOrError` | backend.py:152-175 | for any session path at all, every return carries exactly one of a file name and an error, and the error is one of the three stage messages |
| `Backend.CreateIgnoresSessionFile` | backend.py:166-167 | create never reads the session file: stores that differ only there give the same outcome and the same other files |
| `Backend.GeneratorSeesOnlyRequest` | backend.py:166-170 | the generator is consulted once, on the instruction alone for create and on the current session text plus the instruction for add |
| `Backend.PipelineKeepsWellFormed` | backend.py:163-175 | a request keeps the store well formed, whatever the session path |
| `Backend.ProcessDotCodeKeepsWellFormed` | backend.py:144-161 | rendering writes images and PDFs only outside `session_files` |
| `Backend.OtherSessionsUntouched` | backend.py:163-175 | a request on a session file inside `session_files` with no `..` component leaves every other file under `session_files` as it was |
| `Store.MakeDirsKeepsWellFormed` | app.py:84-86 | creating a dot-free folder and its parents keeps the store well formed |
| `Store.MakeDirsIdempotent` | app.py:86 | `mkdir(parents=True, exist_ok=True)` twice is the same as once |
| `App.ListedIdLoads` | app.py:29-32 | a listed id is the file's stem, and loading it opens exactly the listed file, except for a file named `.dot` |
| `App.HiddenTemplateIdsCollide` | app.py:29-32 | `.dot` and `.dot.dot` are both listed with id `.dot`, and that id opens `.dot.dot` |
| `App.MissingFieldRejected` | app.py:38-39 | each handler answers a body without its required fields with 400 and its own message, and changes nothing (also app.py:78-79 and app.py:107-108) |
| `App.RespondStatus` | app.py:93-102 | for any session path, a backend error becomes a 500 carrying its message; otherwise 200 with the output file name, which is always present |
| `App.UuidIsPlainName` | app.py:58 | a fresh `uuid4` string is a non-empty name without `/` or `.` |
| `App.UserFolderShape` | app.py:84-86 | the user folder is `session_files` itself (empty e-mail) or one dot-free level below it |
| `App.SessionFileShape` | app.py:88-89 | a session path built from a plain id is a `.dot` file under `session_files`, with no `..` component, whose stem is the id |
| `App.SessionFileIsPath` | app.py:114-115 | whatever the session id, the session path is a `.dot` path below `session_files` or, for an id starting with `/`, that id plus `.dot` on its own |
| `App.OutputIgnoresUser` | app.py:114-115 | the output name of a session depends on the session id only, so two users with the same id share one PDF |
| `App.CreateOutcome` | app.py:75-102 | create places the session at `<user folder>/<fresh id>.dot` and always creates the folder; it persists any non-empty reply and answers 500 with the failing stage's message, or 200 with `flowchart_<fresh id>.pdf` |
| `App.CreateGenerationFailure` | app.py:84-94 | when the generator yields nothing usable, create answers 500 and its only effect is the new user folder |
| `App.AddUnknownSession` | app.py:114-118 | add on a session file that does not exist answers 404 with the id and the e-mail, without consulting the generator or changing anything |
| `App.AddOutcome` | app.py:104-131 | for every session id: add sends the current text and the prompt to the generator and persists a non-empty reply even when rendering fails, so the next add edits the new text; success returns the output name of the session file's stem every time |
| `App.AddFindsSession` | app.py:114-131 | for every session id, add on an existing text session never answers 404, and success names the output of the session file's stem; for a plain id that is `flowchart_<session id>.pdf`, the name create returned for that id |
| `App.AddAcceptsAnyId` | app.py:111-117 | the id `../b/s` spells a path with a `..` component into another user's folder, and the id `/tmp/s` a file outside `session_files`; add treats both as sessions |
| `App.LoadTemplateMissing` | app.py:44-47 | when the template path is not a file, load answers 404 and creates nothing |
| `App.LoadTemplateUnreadable` | app.py:49-52 | when the read fails, load answers 500 with the exception's text and creates nothing |
| `App.LoadTemplateVerbatim` | app.py:54-73 | a readable template becomes a fresh session document verbatim, the user folder is created, and the answer is the render outcome |
| `App.LoadReachesUnlistedFiles` | app.py:44-46 | an id containing `/` is never listed, yet load does not answer 404 when the path it spells is a file |
| `App.HandlersKeepWellFormed` | app.py:35-131 | the three handlers keep the store well formed |
| `Server.Disk.ConvertDotToPng` | backend.py:103-123 | the in-place conversion ends in the store, and returns the result, that `Backend.ConvertDotToPng` describes |
| `Server.Disk.EmbedImageInPdf` | backend.py:125-142 | the in-place embedding ends in the store, and returns the result, that `Backend.EmbedImageInPdf` describes |
| `Server.Disk.ProcessDotCode` | backend.py:144-161 | the in-place pipeline ends in the store, and returns the outcome, that `Backend.ProcessDotCode` describes |
| `Server.Disk.ProcessFlowchartRequest` | backend.py:163-175 | the in-place request ends in the store, and returns the outcome, that `Backend.ProcessFlowchartRequest` describes |
| `Server.Disk.HandleCreate` | app.py:75-102 | the in-place handler ends in the store, and answers, as `App.HandleCreate` describes |
| `Server.Disk.HandleAdd` | app.py:104-131 | the in-place handler ends in the store, and answers, as `App.HandleAdd` describes |
| `Server.Disk.HandleLoadTemplate` | app.py:35-73 | the in-place handler ends in the store, and answers, as `App.HandleLoadTemplate` describes |
| `Server.Disk.ListTemplates` | app.py:23-33 | the listing is empty when the template directory is missing; otherwise it has one entry per `*.dot` path directly in it, with no path twice, and each entry is `(stem, display name)` of its path |

## Left out

- The prompt texts and the Gemini client are not modelled (backend.py:48-101). They are an external, non-deterministic service: the generator is a parameter, and only the cleaning of its reply is modelled.
- The Graphviz command line and `DOT_PATH` are not modelled (backend.py:109-120). Graphviz is a foreign process, reduced to `renderOk`. A failing Graphviz run is assumed to write no partial image.
- PyMuPDF is reduced to `embedOk` (backend.py:125-142). A successful embed writes a document recording which DOT text the image came from. The page geometry is floating point and is not modelled.
- Module configuration is not modelled: `load_dotenv`, the API-key check and `exit()`, and the directory creation at import time (backend.py:9-39). Writes into a missing directory are assumed to succeed.
- Write and unlink errors of the store are not modelled. A failing `write_text` or `unlink` would raise out of the handler.
- Flask routing, `index`, `get_output_file`, SSL and `app.run` are not modelled (app.py:9-21, app.py:134-136).
- The request body is modelled as a map from field to string. JSON values that are not strings are left out. A missing or non-JSON body is the empty map, which fails the field check; some Flask versions reject such a request earlier, with 415.
- `Server.Disk.HandleAdd`: reading a session path that is a directory or a non-text file raises. Flask's bare 500 answer to that exception is reduced to `Failure(500, "Internal Server Error")`.
- `print` logging is not modelled.
- The internals of `uuid.uuid4()` are not modelled. The fresh id is a parameter. The lemmas that need its shape assume `App.IsUuid4`, which is the form `str(uuid4())` always has.
- OS path resolution is not modelled. Paths are compared as the strings `pathlib` builds. `pathlib`'s collapsing of `//` and of `.` components, the OS's resolution of `..`, symbolic links, and Windows separators and case-insensitivity are all left out.
- `Backend.PipelineOutcome`, `App.AddOutcome` and the render lemmas stated for every `Backend.IsSessionPath` hold of path strings only. A session id with a `..` component or a leading `/` can spell, on disk, a path the model keys differently. If it spells the render's own temporary DOT file (for example `../../temp_files/x`), that file is deleted after the render, and the persisted text is lost; the model does not capture this aliasing.
- `App.DisplayNameAt`: `title()` is modelled for ASCII letters only. Other cased Unicode letters are treated as uncased and kept unchanged.
- `mkdir` on a path that exists as a file raises `FileExistsError`. The model adds the directory regardless.
- The glob is case-sensitive, as on POSIX. The order of the glob results is chosen by the file system, and `Server.Disk.ListTemplates` leaves it open.
- Concurrent requests, and the last-writer-wins race on one session file, are out of scope. Each handler is one atomic step on the store.

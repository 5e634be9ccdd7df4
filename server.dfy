/** The running service: the store is one mutable object, and each step of
    backend.py and app.py updates it in place, in the order the source does.
    Every method is proved to leave exactly the store, and return exactly the
    result, that the corresponding function of `Backend` or `App` describes,
    so all the lemmas about those functions hold of the methods. */
module Server {
  import opened Wrappers
  import opened Paths
  import opened Store
  import Backend
  import App

  class Disk {
    var files: map<string, Blob>
    var dirs: set<string>

    /** The store as a value. */
    function State(): FS
      reads this
    {
      FS(files, dirs)
    }

    constructor (fs: FS)
      ensures State() == fs
    {
      files := fs.files;
      dirs := fs.dirs;
    }

    method WriteText(p: string, t: string)
      modifies this
      ensures State() == old(State()).WriteText(p, t)
    {
      files := files[p := Text(t)];
    }

    method Put(p: string, b: Blob)
      modifies this
      ensures State() == old(State()).Put(p, b)
    {
      files := files[p := b];
    }

    method Unlink(p: string)
      modifies this
      ensures State() == old(State()).Unlink(p)
    {
      files := files - {p};
    }

    method MakeDirs(p: string)
      modifies this
      ensures State() == old(State()).MakeDirs(p)
    {
      dirs := dirs + {p} + Parents(p);
    }

    /** `convert_dot_to_png`: the temporary DOT file is removed in the
        `finally` block, after Graphviz (`renderOk`) has or has not written
        the image. */
    method ConvertDotToPng(dot: string, out: string, renderOk: bool) returns (ok: bool)
      modifies this
      ensures (State(), ok) == Backend.ConvertDotToPng(old(State()), dot, out, renderOk)
    {
      var dotFile := Backend.TempDot(Stem(out));
      WriteText(dotFile, dot);
      if renderOk {
        Put(out, Image(dot));
      }
      if State().Exists(dotFile) {
        Unlink(dotFile);
      }
      ok := renderOk;
    }

    /** `embed_image_in_pdf`: a missing template fails before the PDF
        library (`embedOk`) is involved. */
    method EmbedImageInPdf(template: string, image: string, out: string, embedOk: bool) returns (ok: bool)
      modifies this
      ensures (State(), ok) == Backend.EmbedImageInPdf(old(State()), template, image, out, embedOk)
    {
      if !State().Exists(template) {
        return false;
      }
      if template in files && image in files && files[image].Image? && embedOk {
        Put(out, Document(files[image].source));
        ok := true;
      } else {
        ok := false;
      }
    }

    /** `process_dot_code`: persist, convert, embed, and remove the
        temporary image only after both stages succeed. */
    method ProcessDotCode(dot: string, session: string, renderOk: bool, embedOk: bool)
      returns (out: Backend.Outcome)
      modifies this
      ensures (State(), out) == Backend.ProcessDotCode(old(State()), dot, session, renderOk, embedOk)
    {
      WriteText(session, dot);
      var stem := Stem(session);
      var png := Backend.TempPng(stem);
      var converted := ConvertDotToPng(dot, png, renderOk);
      if !converted {
        return (None, Some(Backend.ConvertFailed));
      }
      var embedded := EmbedImageInPdf(PdfTemplate, png, Backend.OutputPath(stem), embedOk);
      if !embedded {
        return (None, Some(Backend.EmbedFailed));
      }
      if State().Exists(png) {
        Unlink(png);
      }
      out := (Some(Backend.OutputName(stem)), None);
    }

    /** `process_flowchart_request`: append reads the session text first. */
    method ProcessFlowchartRequest(prompt: string, session: string, isNew: bool,
                                   gen: Backend.Generator, renderOk: bool, embedOk: bool)
      returns (out: Backend.Outcome)
      requires !isNew ==> session in files && files[session].Text?
      modifies this
      ensures (State(), out)
           == Backend.ProcessFlowchartRequest(old(State()), prompt, session, isNew, gen, renderOk, embedOk)
    {
      var dot: Option<string>;
      if isNew {
        dot := Backend.Generate(gen, Backend.Initial(prompt));
      } else {
        var current := files[session].text;
        dot := Backend.Generate(gen, Backend.Modify(current, prompt));
      }
      if dot.None? || dot.value == "" {
        return (None, Some(Backend.GenerationFailed));
      }
      out := ProcessDotCode(dot.value, session, renderOk, embedOk);
    }

    method HandleCreate(body: App.Body, freshId: string, gen: Backend.Generator, renderOk: bool, embedOk: bool)
      returns (resp: App.Response)
      modifies this
      ensures (State(), resp) == App.HandleCreate(old(State()), body, freshId, gen, renderOk, embedOk)
    {
      if !("user_email" in body && "prompt" in body) {
        return App.Failure(400, App.CreateFieldsMissing);
      }
      var email := body["user_email"];
      MakeDirs(App.UserFolder(email));
      var out := ProcessFlowchartRequest(body["prompt"], App.SessionFile(email, freshId), true,
                                         gen, renderOk, embedOk);
      resp := App.Respond(out, email, freshId, App.Created);
    }

    method HandleAdd(body: App.Body, gen: Backend.Generator, renderOk: bool, embedOk: bool)
      returns (resp: App.Response)
      modifies this
      ensures (State(), resp) == App.HandleAdd(old(State()), body, gen, renderOk, embedOk)
    {
      if !("user_email" in body && "session_id" in body && "prompt" in body) {
        return App.Failure(400, App.AddFieldsMissing);
      }
      var email, sid := body["user_email"], body["session_id"];
      var session := App.SessionFile(email, sid);
      if !State().Exists(session) {
        return App.Failure(404, App.SessionNotFound(sid, email));
      }
      if !(session in files && files[session].Text?) {
        return App.Failure(500, App.Uncaught);
      }
      var out := ProcessFlowchartRequest(body["prompt"], session, false, gen, renderOk, embedOk);
      resp := App.Respond(out, email, sid, App.Updated);
    }

    method HandleLoadTemplate(body: App.Body, freshId: string, readOk: bool, readError: string,
                              renderOk: bool, embedOk: bool)
      returns (resp: App.Response)
      modifies this
      ensures (State(), resp)
           == App.HandleLoadTemplate(old(State()), body, freshId, readOk, readError, renderOk, embedOk)
    {
      if !("user_email" in body && "template_id" in body) {
        return App.Failure(400, App.LoadFieldsMissing);
      }
      var email, tid := body["user_email"], body["template_id"];
      var template := App.TemplatePath(tid);
      if template !in files {
        return App.Failure(404, App.TemplateNotFound(tid));
      }
      if !(readOk && files[template].Text?) {
        return App.Failure(500, App.ReadFailed(readError));
      }
      var text := files[template].text;
      MakeDirs(App.UserFolder(email));
      var out := ProcessDotCode(text, App.SessionFile(email, freshId), renderOk, embedOk);
      resp := App.Respond(out, email, freshId, App.Loaded(tid));
    }

    /** `list_templates`: one entry per path the glob yields, in the order it
        yields them (`order`, which the file system chooses), and none when the
        template directory does not exist. */
    method ListTemplates() returns (entries: seq<App.TemplateEntry>, ghost order: seq<string>)
      ensures !State().Exists(TemplateDir) ==> entries == []
      ensures State().Exists(TemplateDir) ==>
        && (forall p :: p in App.TemplateFiles(State()) <==> p in order)
        && (forall i, j :: 0 <= i < j < |order| ==> order[i] != order[j])
      ensures |entries| == |order|
      ensures forall i :: 0 <= i < |order| ==> entries[i] == App.EntryFor(order[i])
    {
      entries, order := [], [];
      if !State().Exists(TemplateDir) {
        return;
      }
      var matches := App.TemplateFiles(State());
      var remaining := matches;
      while remaining != {}
        invariant remaining <= matches
        invariant |entries| == |order|
        invariant forall i :: 0 <= i < |order| ==>
          entries[i] == App.EntryFor(order[i]) && order[i] in matches && order[i] !in remaining
        invariant forall p :: p in matches ==> p in remaining || p in order
        invariant forall i, j :: 0 <= i < j < |order| ==> order[i] != order[j]
        decreases |remaining|
      {
        var f :| f in remaining;
        entries := entries + [App.EntryFor(f)];
        order := order + [f];
        remaining := remaining - {f};
      }
    }
  }
}

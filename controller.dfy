/**
 * The request dispatcher of src/controller.py (`Controller.run_this` and
 * `_do_return`) and the controller object whose fields it updates.
 *
 * The model (`Hierarchy`), the view (`SchemaView`) and the files under `view/`
 * are not part of this model: they are given as a `Collaborators` value whose
 * calls either return or raise. The clock is the `now` text passed with each
 * request.
 */
module Dispatch {
  import opened Wrappers
  import opened PyStr
  import opened RequestContext

  // ---------------------------------------------------------------------------
  // Responses and exceptions
  // ---------------------------------------------------------------------------

  type Header = (string, string)

  const OkStatus: string := "200 OK"
  const ErrorStatus: string := "300 Error"
  const PlainText: seq<Header> := [("Content-type", "text/plain; charset=utf-8")]
  const Html: seq<Header> := [("Content-type", "text/html; charset=utf-8")]
  /** The file `/schema.js` is served from. */
  const SchemaScript: string := "view/schema.js"

  /** An element of an exception's `args`: a text, or any other value (such as an error number). */
  datatype Arg = Str(text: string) | NonStr

  /**
   * Which handlers catch an exception: a `URLError` (the hierarchy's "not
   * found"), any other `Exception`, or a `BaseException` that is no `Exception`.
   */
  datatype ErrorClass = UrlError | OtherException | BaseOnly

  datatype Raised = Raised(cls: ErrorClass, args: seq<Arg>)

  /** A collaborator call: it returns a value or raises. */
  datatype Try<T> = Ok(value: T) | Fail(err: Raised)

  /** A schema object handed out by the hierarchy, known to the view only. */
  datatype Schema = Schema(handle: nat)

  /**
   * The collaborators `run_this` calls: `view.get_index(hierarchy.hierarchy)`,
   * `view.get_saved_output()`, `view.generate_schema_output(path, ctx)`,
   * `hierarchy.get_schema(name)`, `view.ajax_properties(schema, id)`,
   * `view.show_schema_properties(schema)`, and the files readable under the
   * working directory (path to content; bytes modelled as characters).
   */
  datatype Collaborators = Collaborators(
    index: Try<string>,
    saved: Try<string>,
    generate: (string, map<string, string>) -> Try<string>,
    getSchema: string -> Try<Schema>,
    ajax: (Schema, string) -> Try<string>,
    show: Schema -> Try<string>,
    files: map<string, string>)

  /** `open` on a missing file: a `FileNotFoundError` whose `args` are `(2, 'No such file or directory')`. */
  const MissingFile: Raised := Raised(OtherException, [NonStr, Str("No such file or directory")])

  /** `open` on a file name holding a NUL character: a `ValueError` whose `args` are `('embedded null byte',)`. */
  const NulInName: Raised := Raised(OtherException, [Str("embedded null byte")])

  /** `environ[key]` on a missing key: a `KeyError` whose `args` are `(key,)`. */
  function KeyError(key: string): Raised
  {
    Raised(OtherException, [Str(key)])
  }

  /** The value of `rc` handed to `_do_return`: a text, a list of byte chunks, or anything else. */
  datatype Rc = Text(text: string) | Chunks(chunks: seq<string>) | NotText

  /** `rc = err.args[0]` */
  function ArgRc(a: Arg): Rc
  {
    if a.Str? then Text(a.text) else NotText
  }

  /** Why `run_this` raised instead of returning a response. */
  datatype Escape =
    | InvalidMethodEscape   // the context's `BaseException('Invalid method')`
    | UncaughtBase          // a collaborator raised a `BaseException` that is no `Exception`
    | NoMessage             // `err.args[0]` on an exception without arguments: `IndexError`
    | NotEncodable          // `rc.encode()` on a first argument that is no text: `AttributeError`

  datatype Response = Response(status: string, headers: seq<Header>, body: seq<string>)

  /** What `run_this` does: return a response to the server, or raise. */
  datatype RunResult = Respond(response: Response) | Abort(reason: Escape)

  /**
   * `_do_return` (lines 56-68): `start_response` receives the current status
   * and headers; a list body is returned as it is, a text becomes one encoded
   * chunk, and anything else cannot be encoded.
   */
  function DoReturn(status: string, headers: seq<Header>, rc: Rc): (r: RunResult)
    ensures r.Respond? <==> !rc.NotText?
    ensures r.Respond? ==> r.response.status == status && r.response.headers == headers
    ensures rc.Chunks? ==> r.response.body == rc.chunks
    ensures rc.Text? ==> r.response.body == [rc.text]
    ensures rc.NotText? ==> r == Abort(NotEncodable)
  {
    match rc
    case Chunks(cs) => Respond(Response(status, headers, cs))
    case Text(t) => Respond(Response(status, headers, [t]))
    case NotText => Abort(NotEncodable)
  }

  // ---------------------------------------------------------------------------
  // The routing decision as a function
  // ---------------------------------------------------------------------------

  /** Where the body of the `try` of lines 97-164 ends: with `rc` set, or with an exception. */
  datatype Flow =
    | Normal(status: string, headers: seq<Header>, rc: Rc)
    | Thrown(status: string, headers: seq<Header>, err: Raised)

  /** A page from the view: its text, or the exception it raised, with the HTML headers in place. */
  function Page(t: Try<string>, status: string, headers: seq<Header>): Flow
  {
    match t
    case Ok(text) => Normal(status, headers, Text(text))
    case Fail(e) => Thrown(status, headers, e)
  }

  /**
   * The HTML branches (lines 134-164). Only the not-found handler changes the
   * status: every other end keeps `200 OK` and the HTML headers.
   */
  function HtmlBranch(path: string, params: map<string, string>, c: Collaborators): (f: Flow)
    ensures f.status == OkStatus ==> f.headers == Html
    ensures f.status != OkStatus ==> f.Normal? && f.status == ErrorStatus && f.headers == PlainText
  {
    if path == "/" || path == "" then Page(c.index, OkStatus, Html)
    else if path == "/SaveSchema" then Page(c.saved, OkStatus, Html)
    else if path == "/GenerateSchema" then Page(c.generate(Lookup(params, "path"), params), OkStatus, Html)
    else if Lookup(params, "next_element") != "" then
      match c.getSchema(Lookup(params, "next_element"))
      case Fail(e) => Thrown(OkStatus, Html, e)
      case Ok(schema) => Page(c.ajax(schema, Lookup(params, "id")), OkStatus, Html)
    else
      var name := Drop1(path);
      var shown := match c.getSchema(name)
        case Fail(e) => Fail(e)
        case Ok(schema) => c.show(schema);
      match shown
      case Ok(text) => Normal(OkStatus, Html, Text(text))
      case Fail(e) =>
        if e.cls == UrlError then Normal(ErrorStatus, PlainText, Text("Schema \"" + name + "\" not found"))
        else Thrown(OkStatus, Html, e)
  }

  /**
   * The branches of lines 110-164, tested in the source's order. The error
   * status is set only on the HTML branches, by the not-found handler; a list
   * of chunks is only the image branch's answer.
   */
  function Route(path: string, params: map<string, string>, c: Collaborators, now: string): (f: Flow)
    ensures f.status != OkStatus ==> IsHtmlPath(path) && f.Normal? && f.headers == PlainText
  {
    if path == "/quit" || path == "/restart" then
      Normal(OkStatus, PlainText, Text(Drop1(path) + ": " + now))
    else if Contains(path, ".ico") || Contains(path, ".png") then
      var file := "view" + path;
      if '\0' in file then Thrown(OkStatus, PlainText, NulInName)
      else if file !in c.files then Thrown(OkStatus, PlainText, MissingFile)
      else
        var txt := c.files[file];
        Normal(OkStatus, [("Content-type", "image/png"), ("Content-length", Show(|txt|))], Chunks([txt]))
    else if path == "/schema.js" then
      if SchemaScript !in c.files then Thrown(OkStatus, PlainText, MissingFile)
      else Normal(OkStatus, PlainText, Text(c.files[SchemaScript]))
    else HtmlBranch(path, params, c)
  }

  /** Status, headers and result once the outer handler (lines 165-169) and `_do_return` have run. */
  datatype Ending = Ending(status: string, headers: seq<Header>, result: RunResult)

  /**
   * The outer handler catches every `Exception`: the status turns to the error
   * status, the headers to plain text, and `rc` to the exception's first
   * argument. A `BaseException` that is no `Exception` passes through.
   */
  function Finish(flow: Flow): (e: Ending)
    ensures e.result.Respond? ==> e.result.response.status == e.status && e.result.response.headers == e.headers
    ensures flow.Thrown? && flow.err.cls != BaseOnly ==> e.status == ErrorStatus && e.headers == PlainText
    ensures flow.Normal? ==> e.status == flow.status && e.headers == flow.headers
    ensures e.result != Abort(InvalidMethodEscape)
  {
    match flow
    case Normal(s, h, rc) => Ending(s, h, DoReturn(s, h, rc))
    case Thrown(s, h, e) =>
      if e.cls == BaseOnly then Ending(s, h, Abort(UncaughtBase))
      else if |e.args| == 0 then Ending(ErrorStatus, PlainText, Abort(NoMessage))
      else Ending(ErrorStatus, PlainText, DoReturn(ErrorStatus, PlainText, ArgRc(e.args[0])))
  }

  /** The controller's fields after one call of `run_this`, its restart and stop effects, and its result. */
  datatype Outcome = Outcome(status: string, headers: seq<Header>, setsRestart: bool, stops: bool, result: RunResult)

  /** `run_this(environ, start_response)` (lines 77-172). */
  function Handle(req: Request, c: Collaborators, now: string): (o: Outcome)
    ensures o.result == Abort(InvalidMethodEscape) <==> ParseRequest(req) == InvalidMethod
    ensures o.setsRestart ==> o.stops
    ensures o.result.Respond? ==> o.result.response.status == o.status && o.result.response.headers == o.headers
  {
    match ParseRequest(req)
    case InvalidMethod => Outcome(OkStatus, PlainText, false, false, Abort(InvalidMethodEscape))
    case Parsed(params) =>
      if "PATH_INFO" !in req.environ then
        var e := Finish(Thrown(OkStatus, PlainText, KeyError("PATH_INFO")));
        Outcome(e.status, e.headers, false, false, e.result)
      else
        var path := req.environ["PATH_INFO"];
        var e := Finish(Route(path, params, c, now));
        Outcome(e.status, e.headers, path == "/restart", path == "/quit" || path == "/restart", e.result)
  }

  // ---------------------------------------------------------------------------
  // Which requests stop the listener
  // ---------------------------------------------------------------------------

  /** A request that reaches the `/quit` or `/restart` branch. */
  predicate StopsListener(req: Request)
  {
    && ParseRequest(req).Parsed?
    && "PATH_INFO" in req.environ
    && (req.environ["PATH_INFO"] == "/quit" || req.environ["PATH_INFO"] == "/restart")
  }

  /** A request that reaches the `/restart` branch. */
  predicate AsksRestart(req: Request)
  {
    && ParseRequest(req).Parsed?
    && "PATH_INFO" in req.environ
    && req.environ["PATH_INFO"] == "/restart"
  }

  /** One request reaching the server, with the clock reading taken while it is handled. */
  datatype Incoming = Incoming(req: Request, now: string)

  /**
   * How many requests of `traffic` one listener serves: up to and including
   * the first that stops it, or all of them (`FirstStop`).
   */
  function SessionLength(traffic: seq<Incoming>): (n: nat)
    ensures n <= |traffic| && (traffic != [] ==> n > 0)
    decreases |traffic|
  {
    if traffic == [] then 0
    else if StopsListener(traffic[0].req) then 1
    else 1 + SessionLength(traffic[1..])
  }

  /** Where a listener that starts at request `i` stops: just after the first stopping request, or at the end. */
  function SessionEnd(traffic: seq<Incoming>, i: nat): (e: nat)
    requires i <= |traffic|
    ensures i <= e <= |traffic|
    decreases |traffic| - i
  {
    if i == |traffic| then i
    else if StopsListener(traffic[i].req) then i + 1
    else SessionEnd(traffic, i + 1)
  }

  /** A session that starts at `i` serves `SessionLength(traffic[i..])` requests. */
  lemma {:induction false} SessionEndLength(traffic: seq<Incoming>, i: nat)
    requires i <= |traffic|
    ensures SessionEnd(traffic, i) == i + SessionLength(traffic[i..])
    decreases |traffic| - i
  {
    if i < |traffic| && !StopsListener(traffic[i].req) {
      SessionEndLength(traffic, i + 1);
      assert traffic[i..][1..] == traffic[i + 1..];
    }
  }

  /** The session ends at the first stopping request: none before it stops, and it stops unless the traffic ran out. */
  lemma {:induction false} FirstStop(traffic: seq<Incoming>)
    ensures var n := SessionLength(traffic);
      && (forall j :: 0 <= j < n - 1 ==> !StopsListener(traffic[j].req))
      && (n < |traffic| ==> StopsListener(traffic[n - 1].req))
    decreases |traffic|
  {
    if traffic != [] && !StopsListener(traffic[0].req) {
      var rest := traffic[1..];
      FirstStop(rest);
      var n := SessionLength(traffic);
      forall j | 0 <= j < n - 1 ensures !StopsListener(traffic[j].req) {
        if j > 0 {
          assert traffic[j] == rest[j - 1];
        }
      }
      if n < |traffic| {
        assert traffic[n - 1] == rest[n - 2];
      }
    }
  }

  /** The listener was stopped by the last request it served. */
  predicate SessionStops(traffic: seq<Incoming>)
  {
    SessionLength(traffic) > 0 && StopsListener(traffic[SessionLength(traffic) - 1].req)
  }

  /** The listener was stopped by a `/restart`. */
  predicate SessionRestarts(traffic: seq<Incoming>)
  {
    SessionLength(traffic) > 0 && AsksRestart(traffic[SessionLength(traffic) - 1].req)
  }

  // ---------------------------------------------------------------------------
  // The controller object
  // ---------------------------------------------------------------------------

  /**
   * `Controller`: the collaborators it builds, the fields `run_this` sets,
   * the `Restart` flag, whether `EZQuit` has been started on its listener,
   * and how many requests the listener has served.
   */
  class Controller {
    const collab: Collaborators
    var status: string
    var headers: seq<Header>
    var restart: bool
    var stopping: bool
    var served: nat

    /** A restart is asked only together with a stop. */
    ghost predicate Valid()
      reads this
    {
      restart ==> stopping
    }

    /**
     * `Controller(port)` (lines 38-54): the flag starts false (the class
     * attribute of line 36), then the listener serves `traffic` in order until
     * a request stops it. The source leaves `status` and `headers` `None`
     * (the class attributes of wsgiref's handler) until the first request
     * assigns them; here they start at the defaults that request assigns.
     */
    constructor (c: Collaborators, traffic: seq<Incoming>)
      ensures collab == c && Valid()
      ensures served == SessionLength(traffic)
      ensures restart == SessionRestarts(traffic)
      ensures stopping == SessionStops(traffic)
    {
      collab := c;
      status := OkStatus;
      headers := PlainText;
      restart := false;
      stopping := false;
      served := 0;
      new;
      while served < |traffic| && !stopping
        invariant collab == c && served <= |traffic|
        invariant restart ==> stopping
        invariant !stopping ==> SessionEnd(traffic, 0) == SessionEnd(traffic, served)
        invariant !stopping && served > 0 ==> !StopsListener(traffic[served - 1].req)
        invariant stopping ==>
          && served > 0 && served == SessionEnd(traffic, 0)
          && StopsListener(traffic[served - 1].req) && restart == AsksRestart(traffic[served - 1].req)
      {
        Serve(traffic[served]);
      }
      SessionEndLength(traffic, 0);
      assert traffic[0..] == traffic;
    }

    /**
     * The listener serving one request: `run_this` answers it, and the answer
     * goes back to the client. Only `/quit` and `/restart` change the flags.
     */
    method Serve(x: Incoming)
      requires Valid()
      modifies this
      ensures Valid()
      ensures restart == (old(restart) || AsksRestart(x.req))
      ensures stopping == (old(stopping) || StopsListener(x.req))
      ensures served == old(served) + 1
    {
      HandleFlags(x.req, collab, x.now);
      var _ := RunThis(x.req, x.now);
      served := served + 1;
    }

    /**
     * `run_this` (lines 77-172), updating `status`, `headers` and `Restart`
     * in the source's order; `/quit` and `/restart` start the shutdown.
     */
    method RunThis(req: Request, now: string) returns (result: RunResult)
      requires Valid()
      modifies this
      ensures Valid()
      ensures var o := Handle(req, collab, now);
        && result == o.result && status == o.status && headers == o.headers
        && restart == (old(restart) || o.setsRestart)
        && stopping == (old(stopping) || o.stops)
      ensures served == old(served)
    {
      status := OkStatus;
      headers := PlainText;
      var ctx := new Context(req);
      if ctx.invalidMethod {
        return Abort(InvalidMethodEscape);
      }
      var rc: Rc := NotText;
      var failure: Option<Raised> := None;
      if "PATH_INFO" !in req.environ {
        failure := Some(KeyError("PATH_INFO"));
      } else {
        rc, failure := Branches(req.environ["PATH_INFO"], ctx, now);
      }
      if failure.Some? {
        var err := failure.value;
        if err.cls == BaseOnly {
          return Abort(UncaughtBase);
        }
        status := ErrorStatus;
        headers := PlainText;
        if |err.args| == 0 {
          return Abort(NoMessage);
        }
        rc := ArgRc(err.args[0]);
      }
      result := DoReturn(status, headers, rc);
    }

    /**
     * The branches of lines 110-164 on the default status and headers: `rc`
     * when the branch ends normally, `failure` when it raises, and the fields
     * as `Route` says.
     */
    method Branches(pathInfo: string, ctx: Context, now: string) returns (rc: Rc, failure: Option<Raised>)
      requires status == OkStatus && headers == PlainText
      modifies this
      ensures Ends(Route(pathInfo, ctx.params, collab, now), status, headers, rc, failure)
      ensures restart == (old(restart) || pathInfo == "/restart")
      ensures stopping == (old(stopping) || pathInfo == "/quit" || pathInfo == "/restart")
      ensures served == old(served)
    {
      rc := NotText;
      failure := None;
      if pathInfo == "/quit" || pathInfo == "/restart" {
        if "/restart" == pathInfo {
          restart := true;
        }
        stopping := true;
        rc := Text(Drop1(pathInfo) + ": " + now);
      } else if Contains(pathInfo, ".ico") || Contains(pathInfo, ".png") {
        var file := "view" + pathInfo;
        if '\0' in file {
          failure := Some(NulInName);
        } else if file !in collab.files {
          failure := Some(MissingFile);
        } else {
          var txt := collab.files[file];
          headers := [("Content-type", "image/png"), ("Content-length", Show(|txt|))];
          rc := Chunks([txt]);
        }
      } else if "/schema.js" == pathInfo {
        if SchemaScript !in collab.files {
          failure := Some(MissingFile);
        } else {
          rc := Text(collab.files[SchemaScript]);
        }
      } else {
        headers := Html;
        var page := HtmlPage(pathInfo, ctx);
        match page {
          case Ok(text) => rc := Text(text);
          case Fail(e) => failure := Some(e);
        }
      }
    }

    /**
     * The HTML branches (lines 136-164), once the HTML headers are in place:
     * the page the view returns or the exception it raises, and the fields as
     * `HtmlBranch` says.
     */
    method HtmlPage(pathInfo: string, ctx: Context) returns (page: Try<string>)
      requires status == OkStatus && headers == Html
      modifies this
      ensures Page(page, status, headers) == HtmlBranch(pathInfo, ctx.params, collab)
      ensures restart == old(restart) && stopping == old(stopping) && served == old(served)
    {
      if "/" == pathInfo || "" == pathInfo {
        page := collab.index;
      } else if "/SaveSchema" == pathInfo {
        page := collab.saved;
      } else if "/GenerateSchema" == pathInfo {
        page := collab.generate(ctx.Get("path"), ctx.params);
      } else if ctx.Get("next_element") != "" {
        var schema := collab.getSchema(ctx.Get("next_element"));
        page := if schema.Ok? then collab.ajax(schema.value, ctx.Get("id")) else Fail(schema.err);
      } else {
        var name := Drop1(pathInfo);
        var schema := collab.getSchema(name);
        var shown := if schema.Ok? then collab.show(schema.value) else Fail(schema.err);
        if shown.Fail? && shown.err.cls == UrlError {
          status := ErrorStatus;
          headers := PlainText;
          page := Ok("Schema \"" + name + "\" not found");
        } else {
          page := shown;
        }
      }
    }
  }

  /** `flow` is where the branches ended: the same fields, and `rc` or the raised exception. */
  predicate Ends(flow: Flow, status: string, headers: seq<Header>, rc: Rc, failure: Option<Raised>)
  {
    && flow.status == status && flow.headers == headers
    && match flow
       case Normal(_, _, r) => failure == None && rc == r
       case Thrown(_, _, e) => failure == Some(e)
  }

  // ---------------------------------------------------------------------------
  // Properties of the routing decision
  // ---------------------------------------------------------------------------

  /**
   * Only a request that reaches `/quit` or `/restart` stops the listener, and
   * only `/restart` sets the flag; a restart is always also a stop.
   */
  lemma HandleFlags(req: Request, c: Collaborators, now: string)
    ensures Handle(req, c, now).stops == StopsListener(req)
    ensures Handle(req, c, now).setsRestart == AsksRestart(req)
    ensures AsksRestart(req) ==> StopsListener(req)
  {
  }

  /**
   * `/quit` and `/restart` answer `200 OK` in plain text with the path's name
   * and the time, whatever the collaborators would do.
   */
  lemma QuitAndRestart(req: Request, c: Collaborators, now: string)
    requires StopsListener(req)
    ensures var path := req.environ["PATH_INFO"];
      var name := if path == "/quit" then "quit" else "restart";
      Handle(req, c, now) == Outcome(OkStatus, PlainText, path == "/restart", true,
        Respond(Response(OkStatus, PlainText, [name + ": " + now])))
  {
    var path := req.environ["PATH_INFO"];
    assert Drop1(path) == if path == "/quit" then "quit" else "restart";
  }

  /** The `Invalid method` exception escapes `run_this` on every path, `/quit` included. */
  lemma InvalidMethodEscapes(req: Request, c: Collaborators, now: string)
    requires ParseRequest(req) == InvalidMethod
    ensures Handle(req, c, now).result == Abort(InvalidMethodEscape)
    ensures !Handle(req, c, now).setsRestart && !Handle(req, c, now).stops
  {
  }

  /** The paths that fall through to the HTML branches. */
  predicate IsHtmlPath(path: string)
  {
    && path != "/quit" && path != "/restart"
    && !Contains(path, ".ico") && !Contains(path, ".png")
    && path != "/schema.js"
  }

  /**
   * An image path (not `/quit` or `/restart`) is served from `view<path>` as
   * `image/png` with a `Content-length` that reads back as the byte count and
   * the bytes as the one unencoded chunk.
   */
  lemma ImageResponse(req: Request, c: Collaborators, now: string)
    requires ParseRequest(req).Parsed? && "PATH_INFO" in req.environ
    requires var path := req.environ["PATH_INFO"];
      && path != "/quit" && path != "/restart"
      && (Contains(path, ".ico") || Contains(path, ".png"))
      && '\0' !in path && "view" + path in c.files
    ensures var bytes := c.files["view" + req.environ["PATH_INFO"]];
      var r := Handle(req, c, now).result;
      && r.Respond? && r.response.status == OkStatus && r.response.body == [bytes]
      && |r.response.headers| == 2
      && r.response.headers[0] == ("Content-type", "image/png")
      && r.response.headers[1].0 == "Content-length"
      && ParseInt(r.response.headers[1].1) == Some(|bytes|)
  {
    NulFreeName(req.environ["PATH_INFO"]);
    ParseShow(|c.files["view" + req.environ["PATH_INFO"]]|);
  }

  /**
   * A missing image file raises `FileNotFoundError`, whose first argument is
   * the error number: `rc` is then no text, and `_do_return` raises.
   */
  lemma MissingImageEscapes(req: Request, c: Collaborators, now: string)
    requires ParseRequest(req).Parsed? && "PATH_INFO" in req.environ
    requires var path := req.environ["PATH_INFO"];
      && path != "/quit" && path != "/restart"
      && (Contains(path, ".ico") || Contains(path, ".png"))
      && '\0' !in path && "view" + path !in c.files
    ensures Handle(req, c, now) == Outcome(ErrorStatus, PlainText, false, false, Abort(NotEncodable))
  {
    NulFreeName(req.environ["PATH_INFO"]);
  }

  /**
   * An image path holding a NUL character makes `open` raise `ValueError`
   * before any file is looked at; its message is text, so the answer is the
   * error status in plain text with the body `embedded null byte`.
   */
  lemma NulPathError(req: Request, c: Collaborators, now: string)
    requires ParseRequest(req).Parsed? && "PATH_INFO" in req.environ
    requires var path := req.environ["PATH_INFO"];
      && path != "/quit" && path != "/restart"
      && (Contains(path, ".ico") || Contains(path, ".png"))
      && '\0' in path
    ensures Handle(req, c, now) == Outcome(ErrorStatus, PlainText, false, false,
      Respond(Response(ErrorStatus, PlainText, ["embedded null byte"])))
  {
    NulFreeName(req.environ["PATH_INFO"]);
  }

  /** The file name `view<path>` holds a NUL character exactly when the path does. */
  lemma NulFreeName(path: string)
    ensures '\0' in "view" + path <==> '\0' in path
  {
    var file := "view" + path;
    if '\0' in path {
      var k :| 0 <= k < |path| && path[k] == '\0';
      assert file[k + 4] == '\0';
    }
    if '\0' in file {
      var k :| 0 <= k < |file| && file[k] == '\0';
      assert k >= 4;
      assert path[k - 4] == '\0';
    }
  }

  /** `/schema.js` is the script file's text with the default headers. */
  lemma ScriptResponse(req: Request, c: Collaborators, now: string)
    requires ParseRequest(req).Parsed? && "PATH_INFO" in req.environ
    requires req.environ["PATH_INFO"] == "/schema.js" && SchemaScript in c.files
    ensures Handle(req, c, now).result == Respond(Response(OkStatus, PlainText, [c.files[SchemaScript]]))
  {
    ScriptPathIsNoImage();
  }

  lemma ScriptPathIsNoImage()
    ensures !Contains("/schema.js", ".ico") && !Contains("/schema.js", ".png")
  {
    assert "/schema.js"[..7] == "/schema";
    NotContainsHead("/schema.js", ".ico");
    NotContainsHead("/schema.js", ".png");
  }

  /**
   * On the HTML branches a successful page is `text/html`, and every error
   * answer is plain text with the error status.
   */
  lemma HtmlBranchHeaders(req: Request, c: Collaborators, now: string)
    requires ParseRequest(req).Parsed? && "PATH_INFO" in req.environ
    requires IsHtmlPath(req.environ["PATH_INFO"])
    ensures var r := Handle(req, c, now).result;
      r.Respond? ==>
        (r.response.status == OkStatus && r.response.headers == Html)
        || (r.response.status == ErrorStatus && r.response.headers == PlainText)
  {
    var path := req.environ["PATH_INFO"];
    var params := ParseRequest(req).params;
    assert Route(path, params, c, now) == HtmlBranch(path, params, c);
  }

  /**
   * What `run_this` returns for a page of an HTML branch: the page as HTML;
   * an exception the view raises passes through when it is no `Exception`,
   * and otherwise becomes the error status in plain text with its first
   * argument as the body, unless it has none or that argument is no text.
   */
  function PageResult(t: Try<string>): (r: RunResult)
    ensures t.Ok? ==> r == Respond(Response(OkStatus, Html, [t.value]))
    ensures t.Fail? && t.err.cls == BaseOnly ==> r == Abort(UncaughtBase)
    ensures t.Fail? && t.err.cls != BaseOnly && t.err.args == [] ==> r == Abort(NoMessage)
    ensures t.Fail? && t.err.cls != BaseOnly && t.err.args != [] && t.err.args[0].Str? ==>
      r == Respond(Response(ErrorStatus, PlainText, [t.err.args[0].text]))
    ensures t.Fail? && t.err.cls != BaseOnly && t.err.args != [] && t.err.args[0] == NonStr ==> r == Abort(NotEncodable)
  {
    match t
    case Ok(text) => Respond(Response(OkStatus, Html, [text]))
    case Fail(e) => Finish(Thrown(OkStatus, Html, e)).result
  }

  /**
   * `r` is the answer the HTML branches give for `path`, tested in the
   * source's order: the index for `/` and `''`, the saved page for
   * `/SaveSchema`, the generated schema of `get('path')` for
   * `/GenerateSchema`, the AJAX properties of `get_schema(next_element)` and
   * `get('id')` when `next_element` is not empty, and otherwise the
   * properties of `get_schema(path[1:])`, where a `URLError` of the lookup or
   * of the view becomes `Schema "<path[1:]>" not found`.
   */
  predicate RoutesHtml(path: string, params: map<string, string>, c: Collaborators, r: RunResult)
  {
    var next := Lookup(params, "next_element");
    && ((path == "/" || path == "") ==> r == PageResult(c.index))
    && (path == "/SaveSchema" ==> r == PageResult(c.saved))
    && (path == "/GenerateSchema" ==> r == PageResult(c.generate(Lookup(params, "path"), params)))
    && (path !in {"/", "", "/SaveSchema", "/GenerateSchema"} && next != "" ==>
          r == match c.getSchema(next)
               case Ok(schema) => PageResult(c.ajax(schema, Lookup(params, "id")))
               case Fail(e) => PageResult(Fail(e)))
    && (path !in {"/", "", "/SaveSchema", "/GenerateSchema"} && next == "" ==>
          var shown := match c.getSchema(Drop1(path))
            case Ok(schema) => c.show(schema)
            case Fail(e) => Fail(e);
          r == if shown.Fail? && shown.err.cls == UrlError
               then Respond(Response(ErrorStatus, PlainText, ["Schema \"" + Drop1(path) + "\" not found"]))
               else PageResult(shown))
  }

  /** The HTML branches answer as `RoutesHtml` says. */
  lemma HtmlPages(path: string, params: map<string, string>, c: Collaborators)
    ensures RoutesHtml(path, params, c, Finish(HtmlBranch(path, params, c)).result)
  {
  }

  /** `run_this` answers a request on an HTML path as `RoutesHtml` says. */
  lemma HtmlRouting(req: Request, c: Collaborators, now: string)
    requires ParseRequest(req).Parsed? && "PATH_INFO" in req.environ
    requires IsHtmlPath(req.environ["PATH_INFO"])
    ensures RoutesHtml(req.environ["PATH_INFO"], ParseRequest(req).params, c, Handle(req, c, now).result)
  {
    var path, params := req.environ["PATH_INFO"], ParseRequest(req).params;
    assert Route(path, params, c, now) == HtmlBranch(path, params, c);
    assert Handle(req, c, now).result == Finish(HtmlBranch(path, params, c)).result;
    HtmlPages(path, params, c);
  }

  /**
   * On the `next_element` branch a `URLError` has no handler of its own: the
   * outer handler answers it with the error status and its message, not
   * with `Schema "..." not found`.
   */
  lemma AjaxLookupError(req: Request, c: Collaborators, now: string, msg: string)
    requires ParseRequest(req).Parsed? && "PATH_INFO" in req.environ
    requires var path := req.environ["PATH_INFO"];
      && IsHtmlPath(path) && path !in {"/", "", "/SaveSchema", "/GenerateSchema"}
      && Lookup(ParseRequest(req).params, "next_element") != ""
      && c.getSchema(Lookup(ParseRequest(req).params, "next_element")) == Fail(Raised(UrlError, [Str(msg)]))
    ensures Handle(req, c, now) == Outcome(ErrorStatus, PlainText, false, false,
      Respond(Response(ErrorStatus, PlainText, [msg])))
  {
    var path, params := req.environ["PATH_INFO"], ParseRequest(req).params;
    assert Route(path, params, c, now) == HtmlBranch(path, params, c);
  }

  /**
   * On the default branch, a lookup the hierarchy answers with `URLError`
   * gives the error status and the text `Schema "<name>" not found`.
   */
  lemma SchemaNotFound(req: Request, c: Collaborators, now: string, e: Raised)
    requires ParseRequest(req).Parsed? && "PATH_INFO" in req.environ
    requires var path := req.environ["PATH_INFO"];
      && IsHtmlPath(path)
      && path != "/" && path != "" && path != "/SaveSchema" && path != "/GenerateSchema"
      && Lookup(ParseRequest(req).params, "next_element") == ""
      && c.getSchema(Drop1(path)) == Fail(e) && e.cls == UrlError
    ensures Handle(req, c, now) == Outcome(ErrorStatus, PlainText, false, false,
      Respond(Response(ErrorStatus, PlainText, ["Schema \"" + Drop1(req.environ["PATH_INFO"]) + "\" not found"])))
  {
  }

  /**
   * Any `Exception` that reaches the outer handler becomes the error status
   * in plain text with its first argument as the body; without arguments, or
   * with a first argument that is no text, `run_this` raises.
   */
  lemma CatchAll(s: string, h: seq<Header>, e: Raised)
    requires e.cls != BaseOnly
    ensures |e.args| > 0 && e.args[0].Str? ==>
      Finish(Thrown(s, h, e)) == Ending(ErrorStatus, PlainText,
        Respond(Response(ErrorStatus, PlainText, [e.args[0].text])))
    ensures |e.args| == 0 ==> Finish(Thrown(s, h, e)).result == Abort(NoMessage)
    ensures |e.args| > 0 && e.args[0] == NonStr ==> Finish(Thrown(s, h, e)).result == Abort(NotEncodable)
  {
  }

  /** A request without `PATH_INFO` is answered with the error status and the body `PATH_INFO`. */
  lemma MissingPath(req: Request, c: Collaborators, now: string)
    requires ParseRequest(req).Parsed? && "PATH_INFO" !in req.environ
    ensures Handle(req, c, now) == Outcome(ErrorStatus, PlainText, false, false,
      Respond(Response(ErrorStatus, PlainText, ["PATH_INFO"])))
  {
  }

  /**
   * Precedence: `/quit` and `/restart` consult no collaborator, and an image
   * path or `/schema.js` consults the files only.
   */
  lemma Precedence(req: Request, c1: Collaborators, c2: Collaborators, now: string)
    requires ParseRequest(req).Parsed? && "PATH_INFO" in req.environ
    requires !IsHtmlPath(req.environ["PATH_INFO"])
    requires c1.files == c2.files
    ensures Handle(req, c1, now) == Handle(req, c2, now)
    ensures StopsListener(req) ==> forall c3: Collaborators :: Handle(req, c3, now) == Handle(req, c1, now)
  {
  }

  /** Repeated `/SaveSchema` requests get the same answer, whatever their parameters and time. */
  lemma SaveSchemaIdempotent(r1: Request, r2: Request, c: Collaborators, now1: string, now2: string)
    requires ParseRequest(r1).Parsed? && "PATH_INFO" in r1.environ && r1.environ["PATH_INFO"] == "/SaveSchema"
    requires ParseRequest(r2).Parsed? && "PATH_INFO" in r2.environ && r2.environ["PATH_INFO"] == "/SaveSchema"
    ensures Handle(r1, c, now1) == Handle(r2, c, now2)
  {
    SaveSchemaIsHtml();
  }

  lemma SaveSchemaIsHtml()
    ensures IsHtmlPath("/SaveSchema")
  {
    assert "/SaveSchema"[..8] == "/SaveSch";
    NotContainsHead("/SaveSchema", ".ico");
    NotContainsHead("/SaveSchema", ".png");
  }
}

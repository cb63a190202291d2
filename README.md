# Schema controller request handling, modelled in Dafny

This project models the request-handling core of `src/controller.py`, a small
WSGI controller that serves a schema-builder UI. It has three parts:

- **The request context** (`EZContext`, module `RequestContext`). It turns a
  request's `REQUEST_METHOD`, `CONTENT_LENGTH`, `QUERY_STRING` and body into a
  parameter map. A GET request reads the query string. Any other method reads
  `CONTENT_LENGTH` characters of the body. The text is split on `&`, then each
  segment on `=`. Pairs with an empty value are dropped, and the last value for
  a key wins. A segment that does not unpack, a missing environment key or a
  length that is not a number or that the body stream refuses leaves the map
  empty. The only exception that
  escapes is `Invalid method`: a GET request with a positive length, or another
  method with a query string. `get` is a total lookup that defaults to `''`.
  The context is a class whose `params` field the insertion loop updates
  (`Context.StoreAll`). The function `ParseRequest` specifies what it ends with.
- **The dispatcher** (`Controller.run_this` and `_do_return`, module
  `Dispatch`). It tests the branches in the source's order: `/quit` and
  `/restart`, then a path containing `.ico` or `.png`, then `/schema.js`, then
  the HTML branches (index, `/SaveSchema`, `/GenerateSchema`, the
  `next_element` request, the default schema lookup). `Controller.RunThis`
  updates `status`, `headers` and `restart` step by step, as the source does.
  It is proved equal to the function `Handle`, and the routing lemmas are
  stated about `Handle`.
- **The restart lifecycle** (the `Restart` flag and the entry point's loop,
  module `Lifecycle`). A controller starts with the flag false and serves
  requests until `/quit` or `/restart` stops its listener. The entry point
  builds another controller only while the last one was stopped by `/restart`.

`PyStr` models the Python built-ins the core relies on: `str.strip()` with
Python's full white-space set, `str.split` on one character, the substring
test `in`, `s[1:]`, `int(s)` and `str(n)`.

The collaborators are passed in as a `Collaborators` value. These are the
hierarchy (`get_schema`), the view's five renderers, and the files under
`view/`. Each call returns a value or raises an exception with a class and
arguments. The clock reading is a `now` text given with each request. The
traffic a listener receives is a finite sequence of requests.

Behaviour of the code that is easy to misread:

- `Invalid method` is a `BaseException`. The outer handler catches only
  `Exception`, so the request is not turned into an error response.
  `run_this` raises, even for `/quit` (`Dispatch.InvalidMethodEscapes`).
- A missing image or script file raises `FileNotFoundError`, whose first
  argument is the error number 2. The handler's `rc = err.args[0]` is then not
  text, and `_do_return`'s `rc.encode()` raises outside the `try`. So a missing
  asset makes `run_this` raise instead of giving the generic error response
  (`Dispatch.MissingImageEscapes`).
- An image path holding a NUL character makes `open` raise `ValueError`
  before any file is looked at. Its message is text, so this request does get
  the generic error response, with the body `embedded null byte`
  (`Dispatch.NulPathError`).
- A GET request whose length is not a number (`int()` fails) gets an empty map
  and no exception. A negative length raises nothing either.
- For other methods the length goes to `int()` without `strip()`. `int()`
  skips less white space than `strip()` removes: the separators U+001C to
  U+001F around a length make it no number, and the map stays empty
  (`RequestContext.SeparatorLengthExample`). A length of -1 reads the whole
  body; a length below -1 makes the body stream raise `ValueError`, and the
  map stays empty (`RequestContext.NegativeLengthExamples`).
- The `URLError` handler of the default branch also covers a `URLError`
  raised by `show_schema_properties`, not only one raised by the lookup.

## Model

| member | source | states |
|---|---|---|
| `PyStr.Trim` | src/controller.py:207-218 | the trimmed text is no longer than the text, and neither starts nor ends with white space of the kind trimmed (all of `isspace()` for `strip()`, all but U+001C to U+001F for `int()`) |
| `PyStr.Strip` | src/controller.py:207 | `strip()` returns a text no longer than its argument that neither starts nor ends with white space |
| `PyStr.TrimIsTrimmedSlice` | src/controller.py:207-218 | whenever a text is white space before `i` and from `j` on, and `s[i..j]` neither starts nor ends with white space, trimming returns exactly `s[i..j]` |
| `PyStr.StripIdempotent` | src/controller.py:207 | stripping a stripped text changes nothing |
| `PyStr.IntTrimOfStripped` | src/controller.py:207-209 | after `strip()`, `int()` skips no further white space, so on the GET path the length is parsed as stripped |
| `PyStr.SeparatorExample` | src/controller.py:207-218 | `strip()` removes a leading U+001C, while `int()` does not skip it |
| `PyStr.StripAllSpace` | src/controller.py:207-208 | a length made only of white space strips to the empty text, so `if i:` skips the length check |
| `PyStr.Split` | src/controller.py:221 | `split(sep)` never returns an empty list, even for the empty text |
| `PyStr.JoinSplit` | src/controller.py:221 | joining the pieces of `split(sep)` with `sep` gives back the text |
| `PyStr.SplitPiecesFree` | src/controller.py:221 | no piece of `split(sep)` contains `sep` |
| `PyStr.SplitCount` | src/controller.py:223 | `split(sep)` has one piece more than the text has separators |
| `PyStr.SplitJoin` | src/controller.py:221 | splitting a join of separator-free pieces gives back the pieces |
| `PyStr.Contains` | src/controller.py:124 | the empty text occurs in every text, and a text that occurs is no longer than the one it occurs in |
| `PyStr.ContainsIff` | src/controller.py:124 | the substring test `sub in s` holds exactly when `sub` occurs at some index of `s` |
| `PyStr.Drop1` | src/controller.py:123 | `s[1:]` is what follows the first character, and empty for the empty text |
| `PyStr.ParseInt` | src/controller.py:207-218 | `int()` of a text that is empty once its white space is skipped raises, and a negative result is written with a leading minus sign |
| `PyStr.SeparatorIsNoNumber` | src/controller.py:207-218 | `int()` raises on a length with a leading U+001C, while the stripped length is the number 3 |
| `PyStr.NegativeDigit` | src/controller.py:218 | a minus sign followed by one digit parses to the negative of that digit |
| `PyStr.Show` | src/controller.py:128 | `str(n)` is a non-empty text of decimal digits |
| `PyStr.ParseShow` | src/controller.py:128 | `int(str(n)) == n` for every byte count `n` |
| `RequestContext.Read` | src/controller.py:219 | `read(n)` raises exactly for a size below -1 or beyond `sys.maxsize`; -1 reads the whole body; otherwise the result is a prefix of the body of length `n`, or the whole body when it is shorter |
| `RequestContext.SplitPair` | src/controller.py:223 | an unpacked key and value contain no `=` |
| `RequestContext.SplitPairIff` | src/controller.py:223 | `k, v = q.split('=')` unpacks to `(k, v)` exactly when `q` is `k=v` and neither part contains `=` |
| `RequestContext.SplitPairFailsIff` | src/controller.py:223 | unpacking fails exactly when the segment holds zero or several `=` |
| `RequestContext.Fold` | src/controller.py:222-229 | the insertion loop never stores an empty value |
| `RequestContext.ParseQuery` | src/controller.py:221-229 | no parameter parsed from a text has an empty value |
| `RequestContext.FoldFailsIff` | src/controller.py:221-229 | the insertion loop fails exactly when some segment does not unpack |
| `RequestContext.FoldStuck` | src/controller.py:222-229 | once a prefix of the segments has failed, the whole loop has failed |
| `RequestContext.LastStore` | src/controller.py:222-226 | the index of the last segment giving a key a non-empty value: no later segment does, and -1 means none does |
| `RequestContext.FoldKeys` | src/controller.py:221-226 | when every segment unpacks, the loop does not fail, and a key is present exactly when some segment gives it a non-empty value |
| `RequestContext.FoldLastValue` | src/controller.py:221-226 | when every segment unpacks, each present key carries the value of the last segment that gives it a non-empty value |
| `RequestContext.FoldContents` | src/controller.py:221-226 | when every segment unpacks, the map holds exactly the keys some segment gives a non-empty value, each bound to the value of its last such segment |
| `RequestContext.MalformedSegmentEmptiesAll` | src/controller.py:221-229 | if any `&`-segment has zero or several `=`, the map is empty, earlier pairs included |
| `RequestContext.WellFormedQueryContents` | src/controller.py:221-226 | when every `&`-segment of the query text has exactly one `=`, the parameters are exactly the keys with a non-empty value, each bound to its last non-empty occurrence |
| `RequestContext.ParseRequest` | src/controller.py:202-231 | parameters come only from a request with a method, a length and a query string; for a method other than GET only when the query string is empty and a body stream exists |
| `RequestContext.InvalidMethodIff` | src/controller.py:205-215 | `Invalid method` is raised exactly for a GET request whose stripped length parses to a positive integer, or another method with a non-empty query string |
| `RequestContext.GetWithoutBodyParsesQuery` | src/controller.py:205-211 | a GET request whose stripped length is empty, zero or negative raises nothing and parses its query string |
| `RequestContext.BadLengthEmpties` | src/controller.py:205-229 | a length `int()` rejects gives the empty map and no exception: for GET a non-empty stripped length that is no number, for another method with an empty query string any length that is no number |
| `RequestContext.RefusedSizeEmpties` | src/controller.py:218-229 | a request other than GET whose length the body stream refuses (below -1 or beyond `sys.maxsize`) gets the empty map and no exception |
| `RequestContext.EmptyLengthIsNoNumber` | src/controller.py:218 | the empty length a request without a body carries is no number, so such a POST request gets the empty map |
| `RequestContext.PostParsesBody` | src/controller.py:213-221 | a request other than GET with an empty query string and a length the stream accepts parses the body prefix `read(n)` returns, as a GET request parses its query string |
| `RequestContext.RequestValuesNonEmpty` | src/controller.py:202-231 | no parameter of any request has an empty value |
| `RequestContext.TwoKeysExample` | src/controller.py:221-226 | `a=1&b=2` gives `a` bound to `1` and `b` bound to `2` |
| `RequestContext.EmptyValueIgnoredExample` | src/controller.py:224-226 | `a=1&a=` gives `a` bound to `1` |
| `RequestContext.AbsentExamples` | src/controller.py:221-229 | `a=` alone and the empty query string both give the empty map |
| `RequestContext.MalformedExample` | src/controller.py:221-229 | `a=1&b` gives the empty map: the failing second segment also discards the first pair |
| `RequestContext.OnePairExample` | src/controller.py:221-226 | `a=1` gives `a` bound to `1` |
| `RequestContext.SeparatorLengthExample` | src/controller.py:205-219 | a POST body length with a leading U+001C leaves the map empty, while the same GET length raises `Invalid method` |
| `RequestContext.NegativeLengthExamples` | src/controller.py:218-229 | a POST body length of -1 reads the whole body `a=1`, and -2 leaves the map empty |
| `RequestContext.Lookup` | src/controller.py:247-250 | the stored value when the key is present, `''` otherwise |
| `RequestContext.Context.constructor` | src/controller.py:202-231 | the new context records whether `Invalid method` was raised, and holds exactly the parameters `ParseRequest` gives (none after the exception); no stored value is empty |
| `RequestContext.Context.Load` | src/controller.py:204-231 | starting from the empty map, reports the `Invalid method` exception exactly when `ParseRequest` does; the map ends as `ParseRequest`'s parameters |
| `RequestContext.Context.StoreAll` | src/controller.py:221-229 | the insertion loop leaves the map equal to `ParseQuery` of the text, empty after a failing segment |
| `RequestContext.Context.Get` | src/controller.py:233-250 | `get` never fails; on a valid context it returns `''` exactly for absent keys |
| `Dispatch.DoReturn` | src/controller.py:56-68 | a list body is passed through unencoded, a text body becomes one chunk, and both carry the current status and headers; any other value cannot be encoded and raises |
| `Dispatch.HtmlBranch` | src/controller.py:134-164 | the HTML branches keep `200 OK` with the HTML headers, except the not-found handler, which ends normally with the error status and plain text |
| `Dispatch.Route` | src/controller.py:110-164 | a status other than `200 OK` is set only on the HTML branches, by the not-found handler, with plain text and a normal end |
| `Dispatch.Finish` | src/controller.py:165-172 | `start_response` receives the final status and headers; an `Exception` sets the error status and plain text; a normal end keeps the fields; the context's exception never arises here |
| `Dispatch.Handle` | src/controller.py:97-172 | `run_this` raises `Invalid method` exactly when building the context does; a restart is always also a stop; a response carries the final status and headers |
| `Dispatch.SessionLength` | src/controller.py:116-119 | a listener serves at most the traffic it gets, and at least one request when there is any |
| `Dispatch.FirstStop` | src/controller.py:116-119 | a listener serves its requests up to and including the first that stops it: none before it stops, and it stops unless the traffic ran out |
| `Dispatch.SessionEndLength` | src/controller.py:116-119 | a listener that starts at request `i` stops after `i + SessionLength(traffic[i..])` requests |
| `Dispatch.Controller.constructor` | src/controller.py:36-54 | a new controller starts with the restart flag false, serves exactly `SessionLength` requests, ends stopped exactly when a `/quit` or `/restart` came, and with the flag set exactly when a `/restart` stopped it |
| `Dispatch.Controller.Serve` | src/controller.py:54 | serving one request counts it, changes the flags only for `/quit` and `/restart`, and keeps a restart asked only together with a stop |
| `Dispatch.Controller.RunThis` | src/controller.py:97-172 | the result, status and headers are those of `Handle`; the restart flag and the shutdown are only ever switched on, by `/restart` and by `/quit` or `/restart`; a restart stays asked only together with a stop |
| `Dispatch.Controller.Branches` | src/controller.py:110-164 | on the default status and headers, the branches end where `Route` says: the same status and headers, and the same `rc` or the same exception |
| `Dispatch.Controller.HtmlPage` | src/controller.py:137-164 | with the HTML headers in place, the page or the exception and the fields are those of `HtmlBranch`; the flags are unchanged |
| `Dispatch.HandleFlags` | src/controller.py:110-119 | only a request that reaches `/quit` or `/restart` stops the listener, only `/restart` sets the flag, and every restart is also a stop |
| `Dispatch.QuitAndRestart` | src/controller.py:110-123 | `/quit` and `/restart` answer `200 OK`, plain text, body `quit: <now>` or `restart: <now>`, and consult no collaborator |
| `Dispatch.InvalidMethodEscapes` | src/controller.py:105 | a request whose context raises `Invalid method` makes `run_this` raise on every path, without setting the flag or stopping the listener |
| `Dispatch.ImageResponse` | src/controller.py:124-129 | a present image whose path holds no NUL character is answered `200 OK`, `image/png`, with a `Content-length` that reads back as the byte count, and the bytes as the one unencoded chunk |
| `Dispatch.MissingImageEscapes` | src/controller.py:126-172 | for an image path without a NUL character, a missing image file leaves the error status and plain text in place, and `run_this` raises because the error number cannot be encoded |
| `Dispatch.NulPathError` | src/controller.py:124-172 | an image path holding a NUL character is answered with the error status, plain text and the body `embedded null byte`, without a restart or a stop |
| `Dispatch.ScriptResponse` | src/controller.py:130-133 | `/schema.js` is answered with the script file's text and the default status and headers |
| `Dispatch.HtmlBranchHeaders` | src/controller.py:134-169 | on the HTML branches a response is either `200 OK` with `text/html` headers, or the error status with plain-text headers |
| `Dispatch.PageResult` | src/controller.py:136-172 | a page the view returns is answered `200 OK` as HTML; an exception it raises passes through when it is no `Exception`, and otherwise gives `300 Error` in plain text with its first text argument as the body, or makes `run_this` raise when it has no argument or a non-text one |
| `Dispatch.HtmlPages` | src/controller.py:134-172 | the HTML branches answer, in the source's order, with the index, the saved page, the generated schema of `get('path')`, the AJAX properties of `get_schema(next_element)` and `get('id')`, or the properties of `get_schema(path[1:])`, where only the last turns a `URLError` into `Schema "<path[1:]>" not found` |
| `Dispatch.HtmlRouting` | src/controller.py:97-172 | `run_this` answers every request on an HTML path as `HtmlPages` states |
| `Dispatch.AjaxLookupError` | src/controller.py:149-153 | a `URLError` of the `next_element` lookup reaches the outer handler: the error status, plain text and its message as the body, not the not-found text |
| `Dispatch.SchemaNotFound` | src/controller.py:154-164 | on the default branch, a `URLError` from the lookup gives `300 Error`, plain text and body `Schema "<path[1:]>" not found` |
| `Dispatch.CatchAll` | src/controller.py:165-172 | any `Exception` reaching the outer handler gives `300 Error`, plain text and its first argument as the body; with no argument or a non-text first argument, `run_this` raises |
| `Dispatch.MissingPath` | src/controller.py:109 | a request without `PATH_INFO` is answered `300 Error` with the body `PATH_INFO` |
| `Dispatch.Precedence` | src/controller.py:110-134 | `/quit`, `/restart`, image paths and `/schema.js` are decided before any view call; the result depends on the files only, and for `/quit` and `/restart` on no collaborator |
| `Dispatch.SaveSchemaIdempotent` | src/controller.py:140-143 | repeated `/SaveSchema` requests get the same answer, whatever their parameters and time |
| `Lifecycle.Generations` | src/controller.py:302-306 | the entry point builds at least one controller, and no more than one per request plus the first |
| `Lifecycle.Leaves` | src/controller.py:302-306 | leaving the loop takes at least one request |
| `Lifecycle.StopKinds` | src/controller.py:302-306 | there are no more stops than requests |
| `Lifecycle.StopKindsSession` | src/controller.py:302-306 | the stopping requests of the traffic are the first session's stop, if any, followed by those of the rest |
| `Lifecycle.GenerationsCountsRestarts` | src/controller.py:302-306 | the entry point builds one controller plus one for every `/restart` that stops a listener before the first `/quit` does |
| `Lifecycle.LeavesIffQuit` | src/controller.py:302-306 | the entry point leaves its loop exactly when some `/quit` stops a listener |
| `Lifecycle.NoRestartOneController` | src/controller.py:36 | traffic without a `/restart` builds exactly one controller |
| `Lifecycle.RunProcess` | src/controller.py:302-306 | the loop builds `1 + LeadingTrues(StopKinds(traffic))` controllers, and it is left exactly when a `/quit` stopped a listener |

## Left out

- The WSGI server (`make_server`, `serve_forever`, `server_close`, binding the port): network I/O. Serving is a loop over a given sequence of requests, and closing the socket before the next controller binds is not modelled.
- The `EZQuit` thread and `shutdown`: concurrency. Starting it sets the controller's `stopping` field, and the listener ends right after that request. A request that slips in before the shutdown takes effect is not modelled.
- File reads for images and `schema.js`: the files are a map from path (`"view" + path`) to content. A name missing from the map stands for any `OSError` of `open`; all of them carry an error number as their first argument, like `FileNotFoundError`.
- `view/schema.js` is read in text mode: its entry in the map stands for what that read returns. Newline translation and decoding in the locale's encoding, and their errors, are not modelled.
- The Python built-ins are those of a Python from 3.6 on without the digit limit of `int()`: 3.6, 3.7 up to 3.7.13, 3.8 up to 3.8.13, 3.9 up to 3.9.13 and 3.10 up to 3.10.6. `int()` accepts underscores between digits, which needs 3.6. The releases with the limit (3.7.14, 3.8.14, 3.9.14, 3.10.7 and later, and 3.11 on) refuse more than 4300 digits, which would leave the map empty where `InvalidMethodIff` says a GET request raises; its "exactly" holds only for the releases without the limit.
- `MaxSize` is `sys.maxsize` of a 64-bit platform. A body length that the stream cannot allocate a buffer for raises `MemoryError` and leaves the map empty; the model reads the body instead, because available memory is not modelled.
- `Hierarchy` and `SchemaView` internals: not part of this model. They are functions in `Collaborators` that return a value or raise. Their results are taken to be text.
- `datetime.now().strftime(...)`: the clock reading is the `now` parameter, and its format is not checked.
- UTF-8 encoding and decoding: body text and bytes are the same character sequences. A body that fails to decode (Python would leave the map empty) is not modelled.
- `int()` also accepts non-ASCII decimal digits; the model accepts ASCII digits only.
- An exception whose first argument is a list would be returned as the body. The model treats every non-text first argument as one that cannot be encoded.
- The port argument, `chdir`, the prints and the `KeyboardInterrupt` handling of the entry point: process plumbing.
- The unused `CGIHandler` stubs (`get_stdin`, `_flush`, `get_stderr`, `add_cgi_vars`, `_write`).
- `get_keys`: it returns the bound `keys` method rather than the keys, so there is nothing about it to state.
- Dispatch.Controller.constructor: does not state the status and headers the last request leaves; `RunThis` states them for each request.
- Dispatch.Controller.Serve: does not restate the status, headers and answer of the request, which `RunThis` states.
- What the server does after `run_this` raises (its own error page) is not modelled; `run_this`'s result is then an `Abort` with the reason.

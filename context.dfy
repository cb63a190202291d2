/**
 * The request context of src/controller.py (`EZContext`): the parameters of
 * one request, read from the query string of a GET request or from the body
 * of any other request, and looked up with a total `get`.
 */
module RequestContext {
  import opened Wrappers
  import opened PyStr

  /**
   * One request as the context sees it: the WSGI environment's text entries
   * (`REQUEST_METHOD`, `CONTENT_LENGTH`, `QUERY_STRING`, `PATH_INFO`, ...; a
   * missing key is a `KeyError`), and what the body stream `wsgi.input` would
   * deliver (`None` when the environment has no stream). Body bytes are
   * modelled as characters, so decoding them is the identity.
   */
  datatype Request = Request(environ: map<string, string>, input: Option<string>)

  /** What building the context comes to: the `Invalid method` exception, or a parameter map. */
  datatype ParseOutcome = InvalidMethod | Parsed(params: map<string, string>)

  /** The parameters an outcome leaves in the context: none after the exception. */
  function ParamsOf(o: ParseOutcome): map<string, string>
  {
    if o.Parsed? then o.params else map[]
  }

  /** The largest size the body stream accepts: `sys.maxsize` on a 64-bit platform. */
  const MaxSize: int := 0x7FFF_FFFF_FFFF_FFFF

  /**
   * `stream.read(n)` on the server's buffered body stream: `-1` reads to the
   * end, a size from 0 to `MaxSize` reads at most that many characters, and
   * any other size raises (`ValueError` below -1, `OverflowError` above
   * `MaxSize`), shown as `None`.
   */
  function Read(stream: string, n: int): (r: Option<string>)
    ensures r.None? <==> n < -1 || MaxSize < n
    ensures n == -1 ==> r == Some(stream)
    ensures r.Some? ==> r.value <= stream
    ensures 0 <= n <= MaxSize ==> |r.value| == if n < |stream| then n else |stream|
  {
    if n < -1 || MaxSize < n then None
    else if n == -1 || n >= |stream| then Some(stream)
    else Some(stream[..n])
  }

  // ---------------------------------------------------------------------------
  // Splitting the query text (lines 221-226)
  // ---------------------------------------------------------------------------

  /**
   * `k, v = q.split('=')`: exactly two pieces unpack; `None` stands for the
   * `ValueError` of a segment with no `=` or with several.
   */
  function SplitPair(q: string): (r: Option<(string, string)>)
    ensures r.Some? ==> '=' !in r.value.0 && '=' !in r.value.1
  {
    var parts := Split(q, '=');
    SplitPiecesFree(q, '=');
    if |parts| == 2 then Some((parts[0], parts[1])) else None
  }

  /** A segment unpacks to `(k, v)` exactly when it is `k=v` with no other `=`. */
  lemma SplitPairIff(q: string, k: string, v: string)
    ensures SplitPair(q) == Some((k, v)) <==> (q == k + "=" + v && '=' !in k && '=' !in v)
  {
    if SplitPair(q) == Some((k, v)) {
      JoinSplit(q, '=');
      SplitPiecesFree(q, '=');
      assert Split(q, '=') == [k, v];
    }
    if q == k + "=" + v && '=' !in k && '=' !in v {
      SplitJoin([k, v], '=');
      assert Join([k, v], '=') == q;
    }
  }

  /** A segment fails to unpack exactly when it holds zero or several `=`. */
  lemma SplitPairFailsIff(q: string)
    ensures SplitPair(q).None? <==> Count(q, '=') != 1
  {
    SplitCount(q, '=');
  }

  /** Segment `seg` stores `k`: it unpacks with key `k` and a non-empty value. */
  predicate Binds(seg: string, k: string)
  {
    SplitPair(seg).Some? && SplitPair(seg).value.0 == k && SplitPair(seg).value.1 != ""
  }

  /** The value an unpacking segment carries. */
  function ValueOf(seg: string): string
    requires SplitPair(seg).Some?
  {
    SplitPair(seg).value.1
  }

  /** Segment `j` is the last of `segs` that stores `k`. */
  predicate LastBinding(segs: seq<string>, j: int, k: string)
  {
    0 <= j < |segs| && Binds(segs[j], k)
    && forall j' :: j < j' < |segs| ==> !Binds(segs[j'], k)
  }

  /**
   * The insertion loop of lines 222-226 run over `segs`: each unpacked pair
   * with a non-empty value overwrites its key; `None` once a segment fails to
   * unpack (the exception that ends the loop).
   */
  function Fold(segs: seq<string>): (r: Option<map<string, string>>)
    ensures r.Some? ==> forall k :: k in r.value ==> r.value[k] != ""
    decreases |segs|
  {
    if segs == [] then Some(map[])
    else
      match Fold(segs[..|segs| - 1])
      case None => None
      case Some(m) =>
        match SplitPair(segs[|segs| - 1])
        case None => None
        case Some(kv) => Some(if kv.1 != "" then m[kv.0 := kv.1] else m)
  }

  /** The parameters of a query text; the handler of line 229 leaves them empty after a failure. */
  function ParseQuery(qs: string): (r: map<string, string>)
    ensures forall k :: k in r ==> r[k] != ""
  {
    match Fold(Split(qs, '&'))
    case None => map[]
    case Some(m) => m
  }

  /** The loop fails exactly when some segment fails to unpack. */
  lemma {:induction false} FoldFailsIff(segs: seq<string>)
    ensures Fold(segs).None? <==> exists j :: 0 <= j < |segs| && SplitPair(segs[j]).None?
    decreases |segs|
  {
    if segs != [] {
      var p := segs[..|segs| - 1];
      FoldFailsIff(p);
      forall j | 0 <= j < |p| ensures p[j] == segs[j] { }
      if j :| 0 <= j < |p| && SplitPair(p[j]).None? {
        assert SplitPair(segs[j]).None?;
      }
    }
  }

  /** Once a prefix of the segments has failed, the whole loop has failed. */
  lemma {:induction false} FoldStuck(segs: seq<string>, i: nat)
    requires i <= |segs| && Fold(segs[..i]).None?
    ensures Fold(segs).None?
    decreases |segs| - i
  {
    if i == |segs| {
      assert segs[..i] == segs;
    } else {
      assert segs[..i + 1][..i] == segs[..i];
      FoldStuck(segs, i + 1);
    }
  }

  /** One step of the loop: the last segment overwrites its key when its value is non-empty. */
  lemma FoldLast(segs: seq<string>)
    requires segs != [] && Fold(segs[..|segs| - 1]).Some? && SplitPair(segs[|segs| - 1]).Some?
    ensures var m, kv := Fold(segs[..|segs| - 1]).value, SplitPair(segs[|segs| - 1]).value;
      Fold(segs) == Some(if kv.1 != "" then m[kv.0 := kv.1] else m)
  {
  }

  /** The last segment of `segs` that stores `k`, or -1 when none does. */
  function LastStore(segs: seq<string>, k: string): (j: int)
    ensures -1 <= j < |segs|
    ensures j >= 0 ==> LastBinding(segs, j, k)
    ensures j < 0 ==> forall j' :: 0 <= j' < |segs| ==> !Binds(segs[j'], k)
    decreases |segs|
  {
    if segs == [] then -1
    else if Binds(segs[|segs| - 1], k) then |segs| - 1
    else
      var p := segs[..|segs| - 1];
      assert forall j' :: 0 <= j' < |p| ==> p[j'] == segs[j'];
      LastStore(p, k)
  }

  /** When every segment unpacks, a key is present exactly when some segment stores it. */
  lemma {:induction false} FoldKeys(segs: seq<string>)
    requires forall j :: 0 <= j < |segs| ==> SplitPair(segs[j]).Some?
    ensures Fold(segs).Some?
    ensures forall k :: k in Fold(segs).value <==> LastStore(segs, k) >= 0
    decreases |segs|
  {
    if segs != [] {
      var p := segs[..|segs| - 1];
      assert forall j :: 0 <= j < |p| ==> p[j] == segs[j];
      FoldKeys(p);
      FoldLast(segs);
    }
  }

  /** When every segment unpacks, a present key carries the value of its last storing segment. */
  lemma {:induction false} FoldLastValue(segs: seq<string>)
    requires forall j :: 0 <= j < |segs| ==> SplitPair(segs[j]).Some?
    ensures Fold(segs).Some?
    ensures forall k :: k in Fold(segs).value ==>
      LastStore(segs, k) >= 0 && Fold(segs).value[k] == ValueOf(segs[LastStore(segs, k)])
    decreases |segs|
  {
    FoldKeys(segs);
    if segs != [] {
      var p := segs[..|segs| - 1];
      assert forall j :: 0 <= j < |p| ==> p[j] == segs[j];
      FoldLastValue(p);
      forall k | k in Fold(segs).value
        ensures LastStore(segs, k) >= 0 && Fold(segs).value[k] == ValueOf(segs[LastStore(segs, k)])
      {
        FoldLastValueStep(segs, k);
      }
    }
  }

  /** One step of `FoldLastValue`: the last segment either stores `k` or leaves it as the prefix had it. */
  lemma FoldLastValueStep(segs: seq<string>, k: string)
    requires segs != [] && SplitPair(segs[|segs| - 1]).Some?
    requires var p := segs[..|segs| - 1];
      && Fold(p).Some?
      && (k in Fold(p).value ==> LastStore(p, k) >= 0 && Fold(p).value[k] == ValueOf(p[LastStore(p, k)]))
    ensures Fold(segs).Some?
    ensures k in Fold(segs).value ==>
      LastStore(segs, k) >= 0 && Fold(segs).value[k] == ValueOf(segs[LastStore(segs, k)])
  {
    var p := segs[..|segs| - 1];
    FoldLast(segs);
    var kv := SplitPair(segs[|segs| - 1]).value;
    if k in Fold(segs).value && (k != kv.0 || kv.1 == "") {
      assert LastStore(segs, k) == LastStore(p, k);
      assert p[LastStore(p, k)] == segs[LastStore(p, k)];
    }
  }

  /** If any segment holds zero or several `=`, no parameter survives, earlier pairs included. */
  lemma MalformedSegmentEmptiesAll(qs: string, j: nat)
    requires j < |Split(qs, '&')| && Count(Split(qs, '&')[j], '=') != 1
    ensures ParseQuery(qs) == map[]
  {
    SplitPairFailsIff(Split(qs, '&')[j]);
    FoldFailsIff(Split(qs, '&'));
  }

  /**
   * `m` holds what the loop should store for `segs`: a key is present exactly
   * when some segment gives it a non-empty value, and it carries the value of
   * the last such segment.
   */
  ghost predicate Stores(segs: seq<string>, m: map<string, string>)
  {
    && (forall k :: k in m <==> exists j :: 0 <= j < |segs| && Binds(segs[j], k))
    && (forall k :: k in m ==> exists j :: LastBinding(segs, j, k) && m[k] == ValueOf(segs[j]))
  }

  /** When every `&`-segment holds exactly one `=`, the parameters are what `Stores` describes. */
  lemma WellFormedQueryContents(qs: string)
    requires forall j :: 0 <= j < |Split(qs, '&')| ==> Count(Split(qs, '&')[j], '=') == 1
    ensures Stores(Split(qs, '&'), ParseQuery(qs))
  {
    var segs := Split(qs, '&');
    AllUnpack(segs);
    FoldContents(segs);
    assert ParseQuery(qs) == Fold(segs).value;
  }

  /** When every segment unpacks, the loop stores what `Stores` describes. */
  lemma FoldContents(segs: seq<string>)
    requires forall j :: 0 <= j < |segs| ==> SplitPair(segs[j]).Some?
    ensures Fold(segs).Some? && Stores(segs, Fold(segs).value)
  {
    FoldLastValue(segs);
    FoldKeys(segs);
    var m := Fold(segs).value;
    forall k ensures k in m <==> exists j :: 0 <= j < |segs| && Binds(segs[j], k) {
      var j := LastStore(segs, k);
      if j >= 0 {
        assert Binds(segs[j], k);
      }
    }
    forall k | k in m ensures exists j :: LastBinding(segs, j, k) && m[k] == ValueOf(segs[j]) {
      var j := LastStore(segs, k);
      assert LastBinding(segs, j, k) && m[k] == ValueOf(segs[j]);
    }
  }

  /** Segments with exactly one `=` each all unpack. */
  lemma AllUnpack(segs: seq<string>)
    requires forall j :: 0 <= j < |segs| ==> Count(segs[j], '=') == 1
    ensures forall j :: 0 <= j < |segs| ==> SplitPair(segs[j]).Some?
  {
    forall j | 0 <= j < |segs| ensures SplitPair(segs[j]).Some? {
      SplitPairFailsIff(segs[j]);
    }
  }

  // ---------------------------------------------------------------------------
  // The whole constructor (lines 202-231)
  // ---------------------------------------------------------------------------

  /**
   * What `EZContext(environ)` comes to. A GET request reads `QUERY_STRING`,
   * and raises `Invalid method` when its stripped `CONTENT_LENGTH` is a
   * positive number; any other method raises it when `QUERY_STRING` is not
   * empty, and otherwise reads `CONTENT_LENGTH` characters of the body, as
   * `int()` reads the length without stripping it first. A missing key, a
   * length that is not a number or that the stream refuses, and a segment
   * that does not unpack all end in the empty map.
   */
  function ParseRequest(req: Request): (r: ParseOutcome)
    ensures var env := req.environ;
      r.Parsed? && r.params != map[] ==>
        && "REQUEST_METHOD" in env && "CONTENT_LENGTH" in env && "QUERY_STRING" in env
        && (env["REQUEST_METHOD"] != "GET" ==> env["QUERY_STRING"] == "" && req.input.Some?)
  {
    var env := req.environ;
    if "REQUEST_METHOD" !in env then Parsed(map[])
    else if env["REQUEST_METHOD"] == "GET" then
      if "CONTENT_LENGTH" !in env then Parsed(map[])
      else
        var i := Strip(env["CONTENT_LENGTH"]);
        if i != "" && ParseInt(i).None? then Parsed(map[])
        else if i != "" && 0 < ParseInt(i).value then InvalidMethod
        else if "QUERY_STRING" !in env then Parsed(map[])
        else Parsed(ParseQuery(env["QUERY_STRING"]))
    else
      if "QUERY_STRING" !in env then Parsed(map[])
      else if 0 < |env["QUERY_STRING"]| then InvalidMethod
      else if "CONTENT_LENGTH" !in env || req.input.None? then Parsed(map[])
      else
        match ParseInt(env["CONTENT_LENGTH"])
        case None => Parsed(map[])
        case Some(size) =>
          match Read(req.input.value, size)
          case None => Parsed(map[])
          case Some(body) => Parsed(ParseQuery(body))
  }

  /**
   * The only exception that escapes: a GET request whose stripped length is a
   * positive number, or another method with a non-empty query string.
   */
  lemma InvalidMethodIff(req: Request)
    ensures var env := req.environ;
      ParseRequest(req) == InvalidMethod <==>
        && "REQUEST_METHOD" in env
        && (if env["REQUEST_METHOD"] == "GET" then
              "CONTENT_LENGTH" in env
              && ParseInt(Strip(env["CONTENT_LENGTH"])).Some?
              && 0 < ParseInt(Strip(env["CONTENT_LENGTH"])).value
            else
              "QUERY_STRING" in env && 0 < |env["QUERY_STRING"]|)
  {
  }

  /** A GET request whose stripped length is empty, zero or negative parses its query string. */
  lemma GetWithoutBodyParsesQuery(req: Request)
    requires var env := req.environ;
      && "REQUEST_METHOD" in env && env["REQUEST_METHOD"] == "GET"
      && "CONTENT_LENGTH" in env && "QUERY_STRING" in env
      && (Strip(env["CONTENT_LENGTH"]) == ""
          || (ParseInt(Strip(env["CONTENT_LENGTH"])).Some? && ParseInt(Strip(env["CONTENT_LENGTH"])).value <= 0))
    ensures ParseRequest(req) == Parsed(ParseQuery(req.environ["QUERY_STRING"]))
  {
  }

  /**
   * A length `int()` rejects leaves the map empty and raises nothing: for GET
   * a stripped length that is not empty and no number, for another method
   * (with an empty query string) any length that is no number, the empty
   * length included.
   */
  lemma BadLengthEmpties(req: Request)
    requires var env := req.environ;
      && "REQUEST_METHOD" in env && "CONTENT_LENGTH" in env
      && (if env["REQUEST_METHOD"] == "GET" then
            Strip(env["CONTENT_LENGTH"]) != "" && ParseInt(Strip(env["CONTENT_LENGTH"])).None?
          else
            "QUERY_STRING" in env && env["QUERY_STRING"] == "" && ParseInt(env["CONTENT_LENGTH"]).None?)
    ensures ParseRequest(req) == Parsed(map[])
  {
  }

  /**
   * A size the body stream refuses (`ValueError` below -1, `OverflowError`
   * beyond `MaxSize`) is swallowed by the handler of lines 227-229: the map
   * is empty and nothing is raised.
   */
  lemma RefusedSizeEmpties(req: Request, n: int)
    requires var env := req.environ;
      && "REQUEST_METHOD" in env && env["REQUEST_METHOD"] != "GET"
      && "QUERY_STRING" in env && env["QUERY_STRING"] == ""
      && "CONTENT_LENGTH" in env && ParseInt(env["CONTENT_LENGTH"]) == Some(n)
      && req.input.Some? && (n < -1 || MaxSize < n)
    ensures ParseRequest(req) == Parsed(map[])
  {
  }

  /** The empty length of a request without a body is no number for `int()`. */
  lemma EmptyLengthIsNoNumber()
    ensures ParseInt("").None?
  {
  }

  /**
   * A request other than GET with an empty query string and a length `n`
   * the stream accepts parses the body prefix `read(n)` returns, exactly as
   * a GET request parses its query string.
   */
  lemma PostParsesBody(req: Request, n: int, body: string)
    requires var env := req.environ;
      && "REQUEST_METHOD" in env && env["REQUEST_METHOD"] != "GET"
      && "QUERY_STRING" in env && env["QUERY_STRING"] == ""
      && "CONTENT_LENGTH" in env && ParseInt(env["CONTENT_LENGTH"]) == Some(n)
      && req.input.Some? && Read(req.input.value, n) == Some(body)
    ensures ParseRequest(req) == Parsed(ParseQuery(body))
    ensures body <= req.input.value
  {
  }

  /** Every parameter a request yields has a non-empty value. */
  lemma RequestValuesNonEmpty(req: Request)
    ensures forall k :: k in ParamsOf(ParseRequest(req)) ==> ParamsOf(ParseRequest(req))[k] != ""
  {
  }

  // ---------------------------------------------------------------------------
  // Worked examples
  // ---------------------------------------------------------------------------

  /** The loop over two unpacking segments, the first with a non-empty value. */
  lemma FoldTwoPairs(segs: seq<string>, k1: string, v1: string, k2: string, v2: string)
    requires |segs| == 2 && v1 != ""
    requires SplitPair(segs[0]) == Some((k1, v1)) && SplitPair(segs[1]) == Some((k2, v2))
    ensures Fold(segs) == Some(if v2 != "" then map[k1 := v1][k2 := v2] else map[k1 := v1])
  {
    assert segs[..1] == [segs[0]] && segs[..1][..0] == [];
    FoldLast(segs[..1]);
    FoldLast(segs);
  }

  /** `a=1&b=2` gives both keys. */
  lemma TwoKeysExample()
    ensures ParseQuery("a=1&b=2") == map["a" := "1", "b" := "2"]
  {
    var segs := ["a=1", "b=2"];
    SplitJoin(segs, '&');
    assert Join(segs, '&') == "a=1&b=2";
    SplitPairIff("a=1", "a", "1");
    SplitPairIff("b=2", "b", "2");
    FoldTwoPairs(segs, "a", "1", "b", "2");
  }

  /** `a=1&a=` keeps the last non-empty value. */
  lemma EmptyValueIgnoredExample()
    ensures ParseQuery("a=1&a=") == map["a" := "1"]
  {
    var segs := ["a=1", "a="];
    SplitJoin(segs, '&');
    assert Join(segs, '&') == "a=1&a=";
    SplitPairIff("a=1", "a", "1");
    SplitPairIff("a=", "a", "");
    FoldTwoPairs(segs, "a", "1", "a", "");
  }

  /** `a=` alone gives nothing, and neither does the empty query string. */
  lemma AbsentExamples()
    ensures ParseQuery("a=") == map[]
    ensures ParseQuery("") == map[]
  {
    SplitPairIff("a=", "a", "");
    SplitFree("a=", '&');
    var segs := ["a="];
    assert segs[..0] == [];
  }

  /** `a=1&b`: the second segment does not unpack, so the first pair is lost too. */
  lemma MalformedExample()
    ensures ParseQuery("a=1&b") == map[]
  {
    SplitFree("b", '=');
    SplitJoin(["a=1", "b"], '&');
    assert Join(["a=1", "b"], '&') == "a=1&b";
    MalformedSegmentEmptiesAll("a=1&b", 1);
  }

  /** A POST request whose body is `a=1` and whose length is `len`. */
  function PostRequest(len: string): Request
  {
    Request(map["REQUEST_METHOD" := "POST", "QUERY_STRING" := "", "CONTENT_LENGTH" := len], Some("a=1"))
  }

  lemma OnePairExample()
    ensures ParseQuery("a=1") == map["a" := "1"]
  {
    SplitFree("a=1", '&');
    SplitPairIff("a=1", "a", "1");
    var segs := ["a=1"];
    assert segs[..0] == [];
  }

  /**
   * The length of a POST body goes to `int()` unstripped: a leading U+001C
   * is no number there, so the map stays empty, while a GET request strips
   * it and finds the positive length 3.
   */
  lemma SeparatorLengthExample()
    ensures ParseRequest(PostRequest("\U{1C}3")) == Parsed(map[])
    ensures ParseRequest(Request(map["REQUEST_METHOD" := "GET", "CONTENT_LENGTH" := "\U{1C}3"], None)) == InvalidMethod
  {
    SeparatorIsNoNumber();
  }

  /** A length of -1 reads the whole body; -2 makes the stream raise, and the map stays empty. */
  lemma NegativeLengthExamples()
    ensures ParseRequest(PostRequest("-1")) == Parsed(map["a" := "1"])
    ensures ParseRequest(PostRequest("-2")) == Parsed(map[])
  {
    NegativeDigit('1');
    NegativeDigit('2');
    assert ParseInt("-1") == Some(-1) && ParseInt("-2") == Some(-2);
    OnePairExample();
  }

  // ---------------------------------------------------------------------------
  // The context object
  // ---------------------------------------------------------------------------

  /** The lookup `get` performs: the stored value, or `''` when the key is absent. */
  function Lookup(params: map<string, string>, key: string): (r: string)
    ensures key in params ==> r == params[key]
    ensures key !in params ==> r == ""
  {
    if key in params then params[key] else ""
  }

  /** `EZContext`: the parameter map `_QUERY_STRING` of one request. */
  class Context {
    var params: map<string, string>
    /** The constructor raised `BaseException('Invalid method')`; the object is then never used. */
    var invalidMethod: bool

    /** No stored value is empty, so `get` returns `''` exactly for absent keys. */
    ghost predicate Valid()
      reads this
    {
      forall k :: k in params ==> params[k] != ""
    }

    /** `EZContext(environ)` (lines 202-231). */
    constructor (req: Request)
      ensures invalidMethod <==> ParseRequest(req) == InvalidMethod
      ensures params == ParamsOf(ParseRequest(req))
      ensures Valid()
    {
      params := map[];
      invalidMethod := false;
      new;
      invalidMethod := Load(req);
      RequestValuesNonEmpty(req);
    }

    /**
     * The body of the constructor's `try` (lines 204-231), run on the empty
     * map of line 203; `invalid` reports the exception that escapes.
     */
    method Load(req: Request) returns (invalid: bool)
      requires params == map[]
      modifies this
      ensures invalid <==> ParseRequest(req) == InvalidMethod
      ensures params == ParamsOf(ParseRequest(req))
      ensures invalidMethod == old(invalidMethod)
    {
      var env := req.environ;
      if "REQUEST_METHOD" !in env {
        return false;
      }
      var queryString: string;
      if "GET" == env["REQUEST_METHOD"] {
        if "CONTENT_LENGTH" !in env {
          return false;
        }
        var i := Strip(env["CONTENT_LENGTH"]);
        if i != "" {
          var n := ParseInt(i);
          if n.None? {
            return false;
          }
          if 0 < n.value {
            return true;
          }
        }
        if "QUERY_STRING" !in env {
          return false;
        }
        queryString := env["QUERY_STRING"];
      } else {
        if "QUERY_STRING" !in env {
          return false;
        }
        if 0 < |env["QUERY_STRING"]| {
          return true;
        }
        if "CONTENT_LENGTH" !in env {
          return false;
        }
        var bodySize := ParseInt(env["CONTENT_LENGTH"]);
        if bodySize.None? || req.input.None? {
          return false;
        }
        var body := Read(req.input.value, bodySize.value);
        if body.None? {
          return false;
        }
        queryString := body.value;
      }
      StoreAll(queryString);
      invalid := false;
    }

    /**
     * The loop of lines 221-226 with the handler of line 229: store every
     * pair with a non-empty value, and empty the map again when a segment
     * does not unpack.
     */
    method StoreAll(queryString: string)
      requires params == map[]
      modifies this
      ensures params == ParseQuery(queryString)
      ensures invalidMethod == old(invalidMethod)
    {
      var qs := Split(queryString, '&');
      var j := 0;
      while j < |qs|
        invariant 0 <= j <= |qs|
        invariant Fold(qs[..j]) == Some(params)
        invariant invalidMethod == old(invalidMethod)
      {
        assert qs[..j + 1][..j] == qs[..j];
        var kv := SplitPair(qs[j]);
        if kv.None? {
          FoldStuck(qs, j + 1);
          params := map[];
          return;
        }
        if |kv.value.1| > 0 {
          params := params[kv.value.0 := kv.value.1];
        }
        j := j + 1;
      }
      assert qs[..j] == qs;
    }

    /** `get(key)` (lines 233-250): never fails. */
    function Get(key: string): (r: string)
      reads this
      ensures r == Lookup(params, key)
      ensures Valid() ==> (r == "" <==> key !in params)
    {
      Lookup(params, key)
    }
  }
}

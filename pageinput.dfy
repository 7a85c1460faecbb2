/**
  The two page-automation routines of gather_utils.py built on the CDP
  correlator: `click_element` and `set_dates_and_run`.

  The DevTools target list (`GET <endpoint>/json`) is an input. Opening the
  WebSocket is `new Socket(url, script)`, where `script` is what the browser
  will send on that connection. A call's timeout in seconds becomes a
  receive budget of `seconds * rate` attempts.
 */
module PageInput {
  import opened Common
  import opened Cdp
  import opened Dates

  // ---------------------------------------------------------------------
  // Choosing the page target
  // ---------------------------------------------------------------------

  /** One entry of the DevTools target list. */
  datatype Target = Target(kind: Option<string>, wsUrl: Option<string>)

  /** `t.get("type") == "page"` */
  predicate IsPage(t: Target) { t.kind == Some("page") }

  /** `next((t for t in targets if t.get("type") == "page"), None)`, as an index. */
  function FirstPage(targets: seq<Target>): (r: Option<nat>)
    ensures r.Some? ==> r.value < |targets| && IsPage(targets[r.value])
                        && forall j :: 0 <= j < r.value ==> !IsPage(targets[j])
    ensures r.None? ==> forall j :: 0 <= j < |targets| ==> !IsPage(targets[j])
  {
    if targets == [] then None
    else if IsPage(targets[0]) then Some(0)
    else match FirstPage(targets[1..])
      case None => None
      case Some(i) => Some(i + 1)
  }

  const NoPageOnEndpoint := "No 'page' targets found on DevTools endpoint."
  const NoPageFound := "No page targets found."
  const NoDebuggerUrl := "Selected target has no webSocketDebuggerUrl."

  /**
    The WebSocket URL of the first page target, or the RuntimeError raised
    when there is no page target (`noPage` is the caller's message) or the
    chosen one has an empty or missing `webSocketDebuggerUrl`.
   */
  function PageSocketUrl(targets: seq<Target>, noPage: string): (r: Result<string>)
    ensures r.Ok? <==> FirstPage(targets).Some? && targets[FirstPage(targets).value].wsUrl.GetOr("") != ""
    ensures r.Ok? ==> Some(r.value) == targets[FirstPage(targets).value].wsUrl
    ensures r.Err? ==> r.error == RuntimeError(if FirstPage(targets).None? then noPage else NoDebuggerUrl)
  {
    match FirstPage(targets)
    case None => Err(RuntimeError(noPage))
    case Some(i) =>
      var url := targets[i].wsUrl.GetOr("");
      if url == "" then Err(RuntimeError(NoDebuggerUrl)) else Ok(url)
  }

  /** A later page target never shadows an earlier one. */
  lemma {:induction false} FirstPageWins(before: seq<Target>, t: Target, after: seq<Target>)
    requires forall j :: 0 <= j < |before| ==> !IsPage(before[j])
    requires IsPage(t)
    ensures FirstPage(before + [t] + after) == Some(|before|)
    decreases |before|
  {
    if before != [] {
      assert (before + [t] + after)[1..] == before[1..] + [t] + after;
      FirstPageWins(before[1..], t, after);
    }
  }

  /** `set_dates_and_run` uses the URL it is given when it is not empty. */
  function SocketUrlFor(wsUrl: Option<string>, targets: seq<Target>): (r: Result<string>)
    ensures wsUrl.GetOr("") != "" ==> r == Ok(wsUrl.value)
    ensures wsUrl.GetOr("") == "" ==> r == PageSocketUrl(targets, NoPageFound)
  {
    if wsUrl.GetOr("") != "" then Ok(wsUrl.value) else PageSocketUrl(targets, NoPageFound)
  }

  // ---------------------------------------------------------------------
  // The box-model centroid
  // ---------------------------------------------------------------------

  /** The box model's `content` as numbers, or the TypeError arithmetic on it raises. */
  function Numbers(j: Json): (r: Result<seq<real>>)
    ensures r.Ok? <==> j.JArr? && forall i :: 0 <= i < |j.items| ==> j.items[i].JNum?
    ensures r.Ok? ==> |r.value| == |j.items| && forall i :: 0 <= i < |j.items| ==> j.items[i] == JNum(r.value[i])
    ensures r.Err? ==> r.error.TypeError?
  {
    if j.JArr? && forall i :: 0 <= i < |j.items| ==> j.items[i].JNum? then
      Ok(seq(|j.items|, i requires 0 <= i < |j.items| => j.items[i].n))
    else Err(TypeError("unsupported operand type(s) for +"))
  }

  function Min4(a: real, b: real, c: real, d: real): real
  {
    var ab := if a <= b then a else b;
    var cd := if c <= d then c else d;
    if ab <= cd then ab else cd
  }

  function Max4(a: real, b: real, c: real, d: real): real
  {
    var ab := if a >= b then a else b;
    var cd := if c >= d then c else d;
    if ab >= cd then ab else cd
  }

  /**
    `click_element`'s centre of the quad `[x1,y1, x2,y2, x3,y3, x4,y4]`:
    the mean of the four corners, which lies within their bounding box.
   */
  function Centroid(c: seq<real>): (p: (real, real))
    requires |c| >= 8
    ensures 4.0 * p.0 == c[0] + c[2] + c[4] + c[6]
    ensures 4.0 * p.1 == c[1] + c[3] + c[5] + c[7]
    ensures Min4(c[0], c[2], c[4], c[6]) <= p.0 <= Max4(c[0], c[2], c[4], c[6])
    ensures Min4(c[1], c[3], c[5], c[7]) <= p.1 <= Max4(c[1], c[3], c[5], c[7])
  {
    ((c[0] + c[2] + c[4] + c[6]) / 4.0, (c[1] + c[3] + c[5] + c[7]) / 4.0)
  }

  /** `c[::2]` */
  function Evens(c: seq<real>): (e: seq<real>)
    ensures |e| == (|c| + 1) / 2
    decreases |c|
  {
    if |c| == 0 then []
    else if |c| == 1 then [c[0]]
    else [c[0]] + Evens(c[2..])
  }

  /** `c[1::2]` */
  function Odds(c: seq<real>): (o: seq<real>)
    ensures |o| == |c| / 2
  {
    if c == [] then [] else Evens(c[1..])
  }

  /** `sum(xs)` */
  function Sum(xs: seq<real>): real
  {
    if xs == [] then 0.0 else xs[0] + Sum(xs[1..])
  }

  /** `set_dates_and_run`'s centre: `sum(content[::2]) / 4`, `sum(content[1::2]) / 4`. */
  function SliceCentroid(c: seq<real>): (real, real)
  {
    (Sum(Evens(c)) / 4.0, Sum(Odds(c)) / 4.0)
  }

  lemma Sum4(a: real, b: real, c: real, d: real)
    ensures Sum([a, b, c, d]) == a + b + c + d
  {
    assert Sum([d]) == d by { assert [d][1..] == []; }
    assert Sum([c, d]) == c + d by { assert [c, d][1..] == [d]; }
    assert Sum([b, c, d]) == b + c + d by { assert [b, c, d][1..] == [c, d]; }
    assert [a, b, c, d][1..] == [b, c, d];
  }

  /** On the eight numbers of a quad the slice form is the explicit form. */
  lemma SliceCentroidOfQuad(c: seq<real>)
    requires |c| == 8
    ensures SliceCentroid(c) == Centroid(c)
  {
    assert Evens(c[6..]) == [c[6]] by { assert c[6..][2..] == []; }
    assert Evens(c[4..]) == [c[4], c[6]] by { assert c[4..][2..] == c[6..]; }
    assert Evens(c[2..]) == [c[2], c[4], c[6]] by { assert c[2..][2..] == c[4..]; }
    assert Evens(c) == [c[0], c[2], c[4], c[6]];
    var d := c[1..];
    assert Evens(d[6..]) == [c[7]];
    assert Evens(d[4..]) == [c[5], c[7]] by { assert d[4..][2..] == d[6..]; }
    assert Evens(d[2..]) == [c[3], c[5], c[7]] by { assert d[2..][2..] == d[4..]; }
    assert Odds(c) == [c[1], c[3], c[5], c[7]];
    Sum4(c[0], c[2], c[4], c[6]);
    Sum4(c[1], c[3], c[5], c[7]);
  }

  /** The square with corners (0,0), (10,0), (10,10), (0,10) is clicked at (5,5) by both routines. */
  lemma SquareCentroid()
    ensures Centroid([0.0, 0.0, 10.0, 0.0, 10.0, 10.0, 0.0, 10.0]) == (5.0, 5.0)
    ensures SliceCentroid([0.0, 0.0, 10.0, 0.0, 10.0, 10.0, 0.0, 10.0]) == (5.0, 5.0)
  {
    SliceCentroidOfQuad([0.0, 0.0, 10.0, 0.0, 10.0, 10.0, 0.0, 10.0]);
  }

  /**
    The slice form reads every number after the eighth too: a content array
    with a fifth point (x, y) moves `set_dates_and_run`'s click by a quarter
    of that point, while `click_element`'s stays where it was.
   */
  lemma SliceCentroidReadsPastQuad(c: seq<real>, x: real, y: real)
    requires |c| == 8
    ensures Centroid(c + [x, y]) == Centroid(c)
    ensures SliceCentroid(c + [x, y]) == (Centroid(c).0 + x / 4.0, Centroid(c).1 + y / 4.0)
  {
    var e := c + [x, y];
    EvensOfFive(e);
    EvensOfFive(e[1..]);
    assert Evens(e) == [c[0]] + [c[2], c[4], c[6], x];
    assert Odds(e) == [c[1]] + [c[3], c[5], c[7], y];
    Sum4(c[2], c[4], c[6], x);
    Sum4(c[3], c[5], c[7], y);
  }

  /** `s[::2]` of nine or ten numbers is the five at even positions. */
  lemma EvensOfFive(s: seq<real>)
    requires |s| == 9 || |s| == 10
    ensures Evens(s) == [s[0], s[2], s[4], s[6], s[8]]
  {
    EvensOfThree(s[4..]);
    assert Evens(s[2..]) == [s[2], s[4], s[6], s[8]] by { assert s[2..][2..] == s[4..]; }
  }

  /** `t[::2]` of five or six numbers is the three at even positions. */
  lemma EvensOfThree(t: seq<real>)
    requires |t| == 5 || |t| == 6
    ensures Evens(t) == [t[0], t[2], t[4]]
  {
    assert Evens(t[4..]) == [t[4]] by { if |t| == 6 { assert t[4..][2..] == []; } }
    assert Evens(t[2..]) == [t[2], t[4]] by { assert t[2..][2..] == t[4..]; }
  }

  // ---------------------------------------------------------------------
  // Mouse-event scripts
  // ---------------------------------------------------------------------

  const DispatchMouse := "Input.dispatchMouseEvent"
  const CallFunctionOn := "Runtime.callFunctionOn"

  /** `{"type": "mouseMoved", "x": x, "y": y}` as `click_element` sends it (no button). */
  function MoveParams(x: real, y: real): (p: Json)
    ensures Truthy(p)
  {
    var fields := map["type" := JStr("mouseMoved"), "x" := JNum(x), "y" := JNum(y)];
    assert "type" in fields;
    JObj(fields)
  }

  /** `{"type": kind, "x": x, "y": y, "button": "left", "clickCount": 1}` */
  function ButtonParams(kind: string, x: real, y: real): (p: Json)
    ensures Truthy(p)
  {
    var fields := map["type" := JStr(kind), "x" := JNum(x), "y" := JNum(y),
                      "button" := JStr("left"), "clickCount" := JNum(1.0)];
    assert "type" in fields;
    JObj(fields)
  }

  /** The mouse events of `n` repetitions of `click_element`'s loop, oldest first. */
  function ClickScript(x: real, y: real, n: nat): (s: seq<Json>)
    ensures |s| == 3 * n
  {
    if n == 0 then []
    else ClickScript(x, y, n - 1)
         + [MoveParams(x, y), ButtonParams("mousePressed", x, y), ButtonParams("mouseReleased", x, y)]
  }

  /** Every repetition is move, press, release, at the same point. */
  lemma {:induction false} ClickScriptShape(x: real, y: real, n: nat)
    ensures forall k :: 0 <= k < n ==>
              && ClickScript(x, y, n)[3 * k] == MoveParams(x, y)
              && ClickScript(x, y, n)[3 * k + 1] == ButtonParams("mousePressed", x, y)
              && ClickScript(x, y, n)[3 * k + 2] == ButtonParams("mouseReleased", x, y)
  {
    if n > 0 {
      ClickScriptShape(x, y, n - 1);
      var s := ClickScript(x, y, n);
      assert s[..3 * (n - 1)] == ClickScript(x, y, n - 1);
      forall k | 0 <= k < n - 1
        ensures s[3 * k] == MoveParams(x, y) && s[3 * k + 1] == ButtonParams("mousePressed", x, y)
                && s[3 * k + 2] == ButtonParams("mouseReleased", x, y)
      {
        assert s[3 * k] == s[..3 * (n - 1)][3 * k];
        assert s[3 * k + 1] == s[..3 * (n - 1)][3 * k + 1];
        assert s[3 * k + 2] == s[..3 * (n - 1)][3 * k + 2];
      }
    }
  }

  /** The three events `set_dates_and_run` sends; every one carries the button. */
  function RunScript(x: real, y: real): seq<Json>
  {
    [ButtonParams("mouseMoved", x, y), ButtonParams("mousePressed", x, y), ButtonParams("mouseReleased", x, y)]
  }

  /** The mouse events among the commands sent, in order. */
  function Dispatched(cmds: seq<Command>): seq<Json>
  {
    if cmds == [] then []
    else Dispatched(cmds[..|cmds| - 1]) + DispatchOf(cmds[|cmds| - 1])
  }

  function DispatchOf(c: Command): seq<Json>
  {
    if c.name == DispatchMouse then [c.params] else []
  }

  /** The "arguments" member of a command's params. */
  function ArgumentsOf(p: Json): Json
  {
    if p.JObj? && "arguments" in p.fields then p.fields["arguments"] else JNull
  }

  /** The arguments of the functions called on page objects, in order. */
  function Injected(cmds: seq<Command>): seq<Json>
  {
    if cmds == [] then []
    else Injected(cmds[..|cmds| - 1]) + InjectedOf(cmds[|cmds| - 1])
  }

  function InjectedOf(c: Command): seq<Json>
  {
    if c.name == CallFunctionOn then [ArgumentsOf(c.params)] else []
  }

  /** The ids of the commands sent, in order. */
  function Ids(cmds: seq<Command>): seq<int>
  {
    if cmds == [] then [] else Ids(cmds[..|cmds| - 1]) + [cmds[|cmds| - 1].id]
  }

  /**
    Every command on `ws` carries an id drawn from `corr` since position
    `n0` of its history, in the order drawn; with `corr.Valid()` they are
    strictly increasing and so never repeat.
   */
  ghost predicate Tracks(corr: Correlator, ws: Socket, n0: nat)
    reads corr, ws
  {
    && n0 <= |corr.issued| && Ids(ws.sent) == corr.issued[n0..]
    && Suffix(ws.inbound, ws.script)
  }

  /** `a` is what is left of `b` once some of its front has been read. */
  predicate Suffix<T(==)>(a: seq<T>, b: seq<T>)
  {
    |a| <= |b| && a == b[|b| - |a|..]
  }

  /** What is left of what is left of `c` is what is left of `c`. */
  lemma SuffixTrans<T>(a: seq<T>, b: seq<T>, c: seq<T>)
    requires Suffix(a, b) && Suffix(b, c)
    ensures Suffix(a, c)
  {
    assert c[|c| - |b|..][|b| - |a|..] == c[|c| - |a|..];
  }


  /** `more` is `sent` followed by zero or more further commands, one at a time. */
  predicate Grows(sent: seq<Command>, more: seq<Command>)
    decreases |more| - |sent|
  {
    if |more| <= |sent| then more == sent else Grows(sent + [more[|sent|]], more)
  }

  /** Sending one command grows the log. */
  lemma GrowsByOne(sent: seq<Command>, c: Command)
    ensures Grows(sent, sent + [c])
  {
    assert (sent + [c])[|sent|] == c;
  }

  /** A grown log keeps the old one as its prefix. */
  lemma {:induction false} GrowsPrefix(sent: seq<Command>, more: seq<Command>)
    requires Grows(sent, more)
    ensures sent <= more
    decreases |more| - |sent|
  {
    if |more| > |sent| {
      GrowsPrefix(sent + [more[|sent|]], more);
    }
  }

  /** What grows from what grows from `a` grows from `a`. */
  lemma {:induction false} GrowsTrans(a: seq<Command>, b: seq<Command>, c: seq<Command>)
    requires Grows(a, b) && Grows(b, c)
    ensures Grows(a, c)
    decreases |b| - |a|
  {
    GrowsPrefix(b, c);
    if |b| > |a| {
      GrowsPrefix(a, b);
      assert c[|a|] == b[|a|];
      GrowsTrans(a + [b[|a|]], b, c);
    }
  }

  /** Errors a call itself raises: the wait timed out, or the reply carried an error. */
  predicate CallError(e: Error) { e.TimeoutError? || e.RuntimeError? }

  /** One `_cdp_call` on the page socket, with what it adds to the command log. */
  method Cmd(corr: Correlator, ws: Socket, ghost n0: nat, name: string, params: Json, budget: nat)
    returns (r: Result<Option<Json>>)
    requires corr.Valid() && Tracks(corr, ws, n0)
    modifies corr, ws
    ensures corr.Valid() && Tracks(corr, ws, n0)
    ensures ws.closed == old(ws.closed)
    ensures Dispatched(ws.sent) == Dispatched(old(ws.sent)) + DispatchOf(Command(0, name, ParamsOrEmpty(params)))
    ensures Injected(ws.sent) == Injected(old(ws.sent)) + InjectedOf(Command(0, name, ParamsOrEmpty(params)))
    ensures corr.lastId == old(corr.lastId) + 1
    ensures ws.sent == old(ws.sent) + [Command(corr.lastId, name, ParamsOrEmpty(params))]
    ensures (r, ws.inbound) == Await(old(ws.inbound), corr.lastId, name, budget)
    ensures r.Err? ==> CallError(r.error)
  {
    ghost var before := ws.sent;
    r := corr.Call(ws, name, params, budget);
    SuffixTrans(ws.inbound, old(ws.inbound), ws.script);
    assert ws.sent[..|ws.sent| - 1] == before;
    assert Ids(ws.sent) == Ids(before) + [corr.lastId];
    assert corr.issued[n0..] == old(corr.issued)[n0..] + [corr.lastId];
  }

  /**
    Where one call sits in a run: command `cmd` of the sent log, and frame
    `at` of the script, the reply the call read.
   */
  datatype Reading = Reading(cmd: int, at: int)

  /** Command `i` of `sent` is `name` with `params`. */
  predicate Sent(sent: seq<Command>, i: int, name: string, params: Json)
  {
    0 <= i < |sent| && sent[i].name == name && sent[i].params == params
  }

  /**
    Command `rd.cmd` of `sent` is `name` with `params`, and frame `rd.at` of
    `script` is the error-free reply carrying that command's id.
   */
  predicate Replied(script: seq<Frame>, sent: seq<Command>, rd: Reading, name: string, params: Json)
  {
    && Sent(sent, rd.cmd, name, params)
    && 0 <= rd.at < |script| && Answers(script[rd.at], sent[rd.cmd].id) && !script[rd.at].hasError
  }

  /** The "result" of the frame a reading points at. */
  function ReplyOf(script: seq<Frame>, rd: Reading): Option<Json>
  {
    if 0 <= rd.at < |script| && script[rd.at].Msg? then script[rd.at].result else None
  }

  /** Sending more commands keeps a sent command where it was. */
  lemma SentKept(sent: seq<Command>, more: seq<Command>, i: int, name: string, params: Json)
    requires Sent(sent, i, name, params) && Grows(sent, more)
    ensures Sent(more, i, name, params)
  {
    GrowsPrefix(sent, more);
    assert more[i] == sent[i];
  }

  /** Sending more commands keeps a call and its reply where they were. */
  lemma RepliedKept(script: seq<Frame>, sent: seq<Command>, more: seq<Command>, rd: Reading, name: string,
                    params: Json)
    requires Replied(script, sent, rd, name, params) && Grows(sent, more)
    ensures Replied(script, more, rd, name, params)
  {
    SentKept(sent, more, rd.cmd, name, params);
    GrowsPrefix(sent, more);
    assert more[rd.cmd] == sent[rd.cmd];
  }

  /**
    What a successful call returns is the result of a frame of the whole
    script: an error-free reply carrying the call's id that had not been
    read when the call began.
   */
  lemma AwaitReply(script: seq<Frame>, frames: seq<Frame>, id: int, name: string, budget: nat) returns (at: nat)
    requires Suffix(frames, script) && Await(frames, id, name, budget).0.Ok?
    ensures at < |script| && Answers(script[at], id) && !script[at].hasError
    ensures Await(frames, id, name, budget).0 == Ok(script[at].result)
    ensures |script| - |frames| <= at
  {
    AwaitReturnsOwnReply(frames, id, name, budget);
    var k :| k < budget && ReplyAt(frames, id, k, Await(frames, id, name, budget));
    at := |script| - |frames| + k;
    assert script[at] == frames[k];
  }

  /**
    A call whose command is neither a mouse event nor a function call on a
    page object. On success `rd` locates the command and the reply whose
    result the call returns.
   */
  method Plain(corr: Correlator, ws: Socket, ghost n0: nat, name: string, params: Json, budget: nat)
    returns (r: Result<Option<Json>>, ghost rd: Reading)
    requires name != DispatchMouse && name != CallFunctionOn
    requires corr.Valid() && Tracks(corr, ws, n0)
    modifies corr, ws
    ensures corr.Valid() && Tracks(corr, ws, n0)
    ensures ws.closed == old(ws.closed)
    ensures Dispatched(ws.sent) == Dispatched(old(ws.sent)) && Injected(ws.sent) == Injected(old(ws.sent))
    ensures Grows(old(ws.sent), ws.sent) && |ws.sent| == |old(ws.sent)| + 1
    ensures rd.cmd == |old(ws.sent)| && Sent(ws.sent, rd.cmd, name, ParamsOrEmpty(params))
    ensures r.Ok? ==> Replied(ws.script, ws.sent, rd, name, ParamsOrEmpty(params)) && r.value == ReplyOf(ws.script, rd)
    ensures r.Err? ==> CallError(r.error)
  {
    ghost var frames := ws.inbound;
    rd := Reading(|ws.sent|, 0);
    r := Cmd(corr, ws, n0, name, params, budget);
    GrowsByOne(old(ws.sent), Command(corr.lastId, name, ParamsOrEmpty(params)));
    if r.Ok? {
      var at := AwaitReply(ws.script, frames, corr.lastId, name, budget);
      rd := Reading(rd.cmd, at);
    }
  }

  /** `_cdp_call(ws, "Input.dispatchMouseEvent", params)` */
  method Dispatch(corr: Correlator, ws: Socket, ghost n0: nat, params: Json, budget: nat)
    returns (r: Result<Option<Json>>)
    requires Truthy(params)
    requires corr.Valid() && Tracks(corr, ws, n0)
    modifies corr, ws
    ensures corr.Valid() && Tracks(corr, ws, n0)
    ensures ws.closed == old(ws.closed)
    ensures Dispatched(ws.sent) == Dispatched(old(ws.sent)) + [params]
    ensures Injected(ws.sent) == Injected(old(ws.sent))
    ensures Grows(old(ws.sent), ws.sent)
    ensures r.Err? ==> CallError(r.error)
  {
    r := Cmd(corr, ws, n0, DispatchMouse, params, budget);
    GrowsByOne(old(ws.sent), Command(corr.lastId, DispatchMouse, ParamsOrEmpty(params)));
  }

  /** `_cdp_call(ws, "Runtime.callFunctionOn", params)` */
  method Inject(corr: Correlator, ws: Socket, ghost n0: nat, params: Json, budget: nat)
    returns (r: Result<Option<Json>>)
    requires Truthy(params)
    requires corr.Valid() && Tracks(corr, ws, n0)
    modifies corr, ws
    ensures corr.Valid() && Tracks(corr, ws, n0)
    ensures ws.closed == old(ws.closed)
    ensures Dispatched(ws.sent) == Dispatched(old(ws.sent))
    ensures Injected(ws.sent) == Injected(old(ws.sent)) + [ArgumentsOf(params)]
    ensures Grows(old(ws.sent), ws.sent) && Sent(ws.sent, |old(ws.sent)|, CallFunctionOn, params)
    ensures r.Err? ==> CallError(r.error)
  {
    r := Cmd(corr, ws, n0, CallFunctionOn, params, budget);
    GrowsByOne(old(ws.sent), Command(corr.lastId, CallFunctionOn, ParamsOrEmpty(params)));
  }

  function DocumentParams(): (p: Json)
    ensures Truthy(p)
  {
    var fields := map["depth" := JNum(1.0), "pierce" := JBool(true)];
    assert "depth" in fields;
    JObj(fields)
  }

  function QueryParams(root: Json, selector: string): (p: Json)
    ensures Truthy(p)
  {
    var fields := map["nodeId" := root, "selector" := JStr(selector)];
    assert "nodeId" in fields;
    JObj(fields)
  }

  function NodeParams(node: Json): (p: Json)
    ensures Truthy(p)
  {
    var fields := map["nodeId" := node];
    assert "nodeId" in fields;
    JObj(fields)
  }

  /** `[{"value": value}]`, the arguments of the value-setting function. */
  function ValueArgs(value: string): Json
  {
    JArr([JObj(map["value" := JStr(value)])])
  }

  const SetValueFunction := "(function(val){ this.value = val; this.dispatchEvent(new Event('input')); })"

  function SetValueParams(objectId: Json, value: string): (p: Json)
    ensures Truthy(p) && ArgumentsOf(p) == ValueArgs(value)
  {
    var fields := map["objectId" := objectId, "functionDeclaration" := JStr(SetValueFunction),
                      "arguments" := ValueArgs(value)];
    assert "objectId" in fields;
    JObj(fields)
  }

  function NotFoundForSelector(selector: string): string
  {
    "Element not found for selector: " + Repr(selector)
  }


  const UnexpectedTimeoutS := "_cdp_call() got an unexpected keyword argument 'timeout_s'"

  // ---------------------------------------------------------------------
  // Steps shared by click_element and set_dates_and_run
  // ---------------------------------------------------------------------

  const GetDocument := "DOM.getDocument"
  const QuerySelector := "DOM.querySelector"
  const ResolveNode := "DOM.resolveNode"

  /** `root` is `["root"]["nodeId"]` of the result of the `DOM.getDocument` call `doc`. */
  predicate RootRead(script: seq<Frame>, sent: seq<Command>, doc: Reading, root: Json)
  {
    && Replied(script, sent, doc, GetDocument, DocumentParams())
    && ResultAt(ReplyOf(script, doc), ["root", "nodeId"]) == Ok(root)
  }

  lemma RootReadKept(script: seq<Frame>, sent: seq<Command>, more: seq<Command>, doc: Reading, root: Json)
    requires RootRead(script, sent, doc, root) && Grows(sent, more)
    ensures RootRead(script, more, doc, root)
  {
    RepliedKept(script, sent, more, doc, GetDocument, DocumentParams());
  }

  /**
    `doc = _cdp_call(ws, "DOM.getDocument", ...)` then `doc["result"]["root"]["nodeId"]`:
    on success the root is read from the reply to that call.
   */
  method DocumentRoot(corr: Correlator, ws: Socket, ghost n0: nat, budget: nat)
    returns (r: Result<Json>, ghost doc: Reading)
    requires corr.Valid() && Tracks(corr, ws, n0)
    modifies corr, ws
    ensures corr.Valid() && Tracks(corr, ws, n0)
    ensures ws.closed == old(ws.closed)
    ensures Dispatched(ws.sent) == Dispatched(old(ws.sent)) && Injected(ws.sent) == Injected(old(ws.sent))
    ensures Grows(old(ws.sent), ws.sent) && doc.cmd == |old(ws.sent)| < |ws.sent|
    ensures r.Ok? ==> RootRead(ws.script, ws.sent, doc, r.value)
    ensures r.Err? ==> !r.error.ValueError?
  {
    var d;
    d, doc := Plain(corr, ws, n0, GetDocument, DocumentParams(), budget);
    if d.Err? { return Err(d.error), doc; }
    r := ResultAt(d.value, ["root", "nodeId"]);
  }

  /**
    `node` is the truthy `["nodeId"]` of the result of the
    `DOM.querySelector` call `query` for `selector` under `root`.
   */
  predicate NodeRead(script: seq<Frame>, sent: seq<Command>, query: Reading, root: Json, selector: string,
                     node: Json)
  {
    && Replied(script, sent, query, QuerySelector, QueryParams(root, selector))
    && ResultAt(ReplyOf(script, query), ["nodeId"]) == Ok(node) && Truthy(node)
  }

  /** The `DOM.querySelector` call `query` for `selector` under `root` was answered with a falsy nodeId. */
  predicate NodeMissing(script: seq<Frame>, sent: seq<Command>, query: Reading, root: Json, selector: string)
  {
    && Replied(script, sent, query, QuerySelector, QueryParams(root, selector))
    && ResultAt(ReplyOf(script, query), ["nodeId"]).Ok?
    && !Truthy(ResultAt(ReplyOf(script, query), ["nodeId"]).value)
  }

  lemma NodeReadKept(script: seq<Frame>, sent: seq<Command>, more: seq<Command>, query: Reading, root: Json,
                     selector: string, node: Json)
    requires NodeRead(script, sent, query, root, selector, node) && Grows(sent, more)
    ensures NodeRead(script, more, query, root, selector, node)
  {
    RepliedKept(script, sent, more, query, QuerySelector, QueryParams(root, selector));
  }

  /**
    `DOM.querySelector` for `selector` under `root`, then `q["result"]["nodeId"]`.
    On success the node is the truthy nodeId of that query's reply; the
    ValueError with the caller's message `missing` is raised exactly when
    that nodeId is falsy.
   */
  method FindNode(corr: Correlator, ws: Socket, ghost n0: nat, root: Json, selector: string, missing: string,
                  budget: nat) returns (r: Result<Json>, ghost query: Reading)
    requires corr.Valid() && Tracks(corr, ws, n0)
    modifies corr, ws
    ensures corr.Valid() && Tracks(corr, ws, n0)
    ensures ws.closed == old(ws.closed)
    ensures Dispatched(ws.sent) == Dispatched(old(ws.sent)) && Injected(ws.sent) == Injected(old(ws.sent))
    ensures Grows(old(ws.sent), ws.sent) && |ws.sent| == |old(ws.sent)| + 1 && query.cmd == |old(ws.sent)|
    ensures r.Ok? ==> NodeRead(ws.script, ws.sent, query, root, selector, r.value)
    ensures r.Err? && r.error.ValueError? ==>
              r.error == ValueError(missing) && NodeMissing(ws.script, ws.sent, query, root, selector)
  {
    var q;
    q, query := Plain(corr, ws, n0, QuerySelector, QueryParams(root, selector), budget);
    if q.Err? { return Err(q.error), query; }
    var node := ResultAt(q.value, ["nodeId"]);
    if node.Err? { return Err(node.error), query; }
    if !Truthy(node.value) {
      return Err(ValueError(missing)), query;
    }
    r := Ok(node.value);
  }

  const ScrollIntoView := "DOM.scrollIntoViewIfNeeded"
  const GetBoxModel := "DOM.getBoxModel"

  /** `box["result"]["model"]["content"]` of a `DOM.getBoxModel` reply, as numbers. */
  function ContentNumbers(reply: Option<Json>): (r: Result<seq<real>>)
    ensures r.Err? ==> r.error.KeyError? || r.error.TypeError?
  {
    match ResultAt(reply, ["model", "content"])
    case Err(e) => Err(e)
    case Ok(c) => Numbers(c)
  }

  /** What the box-model call with id `id` yields on `frames`: its reply's content as numbers. */
  function BoxModelOf(frames: seq<Frame>, id: int, budget: nat): Result<seq<real>>
  {
    var box := Await(frames, id, GetBoxModel, budget).0;
    if box.Err? then Err(box.error) else ContentNumbers(box.value)
  }

  /**
    Conversely, a box-model reply behind nothing but events is read, and
    its numbers are those of the `content` it carries.
   */
  lemma BoxModelOfReply(id: int, budget: nat, events: seq<Frame>, content: Json, rest: seq<Frame>)
    requires |events| < budget && forall j :: 0 <= j < |events| ==> events[j] == Msg(None, false, None)
    ensures BoxModelOf(events + [Msg(Some(id), false, Some(JObj(map["model" := JObj(map["content" := content])])))]
                       + rest, id, budget)
            == Numbers(content)
  {
    var box := Some(JObj(map["model" := JObj(map["content" := content])]));
    var fs := events + [Msg(Some(id), false, box)] + rest;
    assert fs[|events|] == Msg(Some(id), false, box);
    forall j | 0 <= j < |events| ensures Skipped(fs[j], id) {
      assert fs[j] == events[j];
    }
    AwaitFindsOwnReply(fs, id, GetBoxModel, budget, |events|);
  }

  /**
    `box` is a `DOM.getBoxModel` call on `node`, and `corners` are the
    numbers of the content quad of its reply.
   */
  predicate BoxRead(script: seq<Frame>, sent: seq<Command>, box: Reading, node: Json, corners: seq<real>)
  {
    Replied(script, sent, box, GetBoxModel, NodeParams(node)) && ContentNumbers(ReplyOf(script, box)) == Ok(corners)
  }

  /** Sending more commands keeps a box-model read where it was. */
  lemma BoxReadKept(script: seq<Frame>, sent: seq<Command>, more: seq<Command>, box: Reading, node: Json,
                    corners: seq<real>)
    requires BoxRead(script, sent, box, node, corners) && Grows(sent, more)
    ensures BoxRead(script, more, box, node, corners)
  {
    RepliedKept(script, sent, more, box, GetBoxModel, NodeParams(node));
  }

  /**
    Scroll `node` into view and read the numbers of its box model's
    `content` quad. On success the scroll command for `node` comes right
    before the box-model call on `node`, whose reply gave the numbers.
   */
  method BoxContent(corr: Correlator, ws: Socket, ghost n0: nat, node: Json, budget: nat)
    returns (r: Result<seq<real>>, ghost box: Reading)
    requires corr.Valid() && Tracks(corr, ws, n0)
    modifies corr, ws
    ensures corr.Valid() && Tracks(corr, ws, n0)
    ensures ws.closed == old(ws.closed)
    ensures Dispatched(ws.sent) == Dispatched(old(ws.sent)) && Injected(ws.sent) == Injected(old(ws.sent))
    ensures Grows(old(ws.sent), ws.sent) && |old(ws.sent)| <= box.cmd
    ensures r.Err? ==> !r.error.ValueError?
    ensures r.Ok? ==>
              && box.cmd == |old(ws.sent)| + 1 && Sent(ws.sent, box.cmd - 1, ScrollIntoView, NodeParams(node))
              && BoxRead(ws.script, ws.sent, box, node, r.value)
  {
    var s, scroll := Plain(corr, ws, n0, ScrollIntoView, NodeParams(node), budget);
    if s.Err? {
      return Err(s.error), scroll;
    }
    ghost var scrolled := ws.sent;
    r, box := MeasureBox(corr, ws, n0, node, budget);
    GrowsTrans(old(ws.sent), scrolled, ws.sent);
    if r.Ok? {
      SentKept(scrolled, ws.sent, scroll.cmd, ScrollIntoView, NodeParams(node));
    }
  }

  /**
    The `DOM.getBoxModel` call on `node`: exactly `BoxModelOf` on the frames
    left waiting, and on success the numbers come from `box`, that call's reply.
   */
  method MeasureBox(corr: Correlator, ws: Socket, ghost n0: nat, node: Json, budget: nat)
    returns (r: Result<seq<real>>, ghost box: Reading)
    requires corr.Valid() && Tracks(corr, ws, n0)
    modifies corr, ws
    ensures corr.Valid() && Tracks(corr, ws, n0)
    ensures ws.closed == old(ws.closed)
    ensures Dispatched(ws.sent) == Dispatched(old(ws.sent)) && Injected(ws.sent) == Injected(old(ws.sent))
    ensures corr.lastId == old(corr.lastId) + 1 && Grows(old(ws.sent), ws.sent) && box.cmd == |old(ws.sent)|
    ensures r.Err? ==> !r.error.ValueError?
    ensures r == BoxModelOf(old(ws.inbound), corr.lastId, budget)
    ensures r.Ok? ==> BoxRead(ws.script, ws.sent, box, node, r.value)
  {
    ghost var frames := ws.inbound;
    box := Reading(|ws.sent|, 0);
    var bm := Cmd(corr, ws, n0, GetBoxModel, NodeParams(node), budget);
    GrowsByOne(old(ws.sent), Command(corr.lastId, GetBoxModel, NodeParams(node)));
    if bm.Err? { return Err(bm.error), box; }
    r := ContentNumbers(bm.value);
    if r.Ok? {
      var at := AwaitReply(ws.script, frames, corr.lastId, GetBoxModel, budget);
      box := Reading(box.cmd, at);
    }
  }

  /** Appending two values one at a time to nothing gives the two of them. */
  lemma AppendTwo<T>(a: T, b: T)
    ensures [] + [a] + [b] == [a, b]
  {
  }

  /** Appending three values one at a time appends the three of them. */
  lemma AppendThree<T>(s: seq<T>, a: T, b: T, c: T)
    ensures s + [a] + [b] + [c] == s + [a, b, c]
  {
  }

  /** Send three mouse events in order, stopping at the first failure. */
  method DispatchThree(corr: Correlator, ws: Socket, ghost n0: nat, a: Json, b: Json, c: Json, budget: nat)
    returns (r: Result<()>)
    requires corr.Valid() && Tracks(corr, ws, n0)
    requires Truthy(a) && Truthy(b) && Truthy(c)
    modifies corr, ws
    ensures corr.Valid() && Tracks(corr, ws, n0)
    ensures ws.closed == old(ws.closed)
    ensures Injected(ws.sent) == Injected(old(ws.sent))
    ensures r.Err? ==> CallError(r.error)
    ensures r.Ok? ==> Dispatched(ws.sent) == Dispatched(old(ws.sent)) + [a, b, c]
    ensures Grows(old(ws.sent), ws.sent)
  {
    ghost var d0 := Dispatched(ws.sent);
    var m := Dispatch(corr, ws, n0, a, budget);
    if m.Err? { return Err(m.error); }
    ghost var s1 := ws.sent;
    m := Dispatch(corr, ws, n0, b, budget);
    GrowsTrans(old(ws.sent), s1, ws.sent);
    if m.Err? { return Err(m.error); }
    ghost var s2 := ws.sent;
    m := Dispatch(corr, ws, n0, c, budget);
    GrowsTrans(old(ws.sent), s2, ws.sent);
    if m.Err? { return Err(m.error); }
    AppendThree(d0, a, b, c);
    r := Ok(());
  }

  /**
    How the element a click aims at was found and measured: the
    `DOM.querySelector` call and the node it named, then the
    `DOM.getBoxModel` call on that node and its content quad.
   */
  datatype Aim = Aim(query: Reading, node: Json, box: Reading, corners: seq<real>)

  /** `a` found the element `selector` names under `root` and measured that same node. */
  predicate AimedAt(script: seq<Frame>, sent: seq<Command>, root: Json, selector: string, a: Aim)
  {
    && NodeRead(script, sent, a.query, root, selector, a.node)
    && BoxRead(script, sent, a.box, a.node, a.corners)
    && a.query.cmd < a.box.cmd
  }

  lemma AimedAtKept(script: seq<Frame>, sent: seq<Command>, more: seq<Command>, root: Json, selector: string,
                    a: Aim)
    requires AimedAt(script, sent, root, selector, a) && Grows(sent, more)
    ensures AimedAt(script, more, root, selector, a)
  {
    NodeReadKept(script, sent, more, a.query, root, selector, a.node);
    BoxReadKept(script, sent, more, a.box, a.node, a.corners);
  }

  // ---------------------------------------------------------------------
  // click_element
  // ---------------------------------------------------------------------

  /** A command as the page sees it: its method name and its params. */
  type Call = (string, Json)

  const NoParams := JObj(map[])

  /** `Page.enable`, `Runtime.enable` and `DOM.enable`, each sent without params. */
  const EnabledDomains: seq<Call> := [("Page.enable", NoParams), ("Runtime.enable", NoParams), ("DOM.enable", NoParams)]

  /** `Debugger.enable`, then skip all pauses, then do not pause on exceptions. */
  const DebuggerSetup: seq<Call> :=
    [("Debugger.enable", NoParams),
     ("Debugger.setSkipAllPauses", JObj(map["skip" := JBool(true)])),
     ("Debugger.setPauseOnExceptions", JObj(map["state" := JStr("none")]))]

  /** The name and params of each command sent, in order. */
  function Calls(cmds: seq<Command>): seq<Call>
  {
    if cmds == [] then [] else Calls(cmds[..|cmds| - 1]) + [(cmds[|cmds| - 1].name, cmds[|cmds| - 1].params)]
  }

  /** One more command sent adds its name and params to the calls sent. */
  lemma CallsGrow(sent: seq<Command>, more: seq<Command>)
    requires Grows(sent, more) && |more| == |sent| + 1
    ensures Calls(more) == Calls(sent) + [(more[|sent|].name, more[|sent|].params)]
  {
    GrowsPrefix(sent, more);
    assert more[..|more| - 1] == sent;
  }

  /** `sent` is `start` followed by the first `k` entries of `setup`, and nothing else. */
  predicate SetupSent(start: seq<Command>, sent: seq<Command>, setup: seq<Call>, k: nat)
  {
    && k <= |setup|
    && Dispatched(sent) == Dispatched(start) && Injected(sent) == Injected(start)
    && Calls(sent) == Calls(start) + setup[..k]
    && Grows(start, sent) && |sent| == |start| + k
  }

  /** Sending entry `k` of `setup` after the first `k` extends the calls sent by it. */
  lemma SetupStep(start: seq<Command>, sent: seq<Command>, more: seq<Command>, setup: seq<Call>, k: nat)
    requires k < |setup| && SetupSent(start, sent, setup, k)
    requires Dispatched(more) == Dispatched(sent) && Injected(more) == Injected(sent)
    requires Calls(more) == Calls(sent) + [setup[k]]
    requires Grows(sent, more) && |more| == |sent| + 1
    ensures SetupSent(start, more, setup, k + 1)
  {
    GrowsTrans(start, sent, more);
    PrefixStep(Calls(start), Calls(sent), Calls(more), setup, k);
  }

  /** Appending entry `k` to the first `k` entries gives the first `k + 1`. */
  lemma PrefixStep(c0: seq<Call>, c1: seq<Call>, c2: seq<Call>, setup: seq<Call>, k: nat)
    requires k < |setup| && c1 == c0 + setup[..k] && c2 == c1 + [setup[k]]
    ensures c2 == c0 + setup[..k + 1]
  {
    assert setup[..k + 1] == setup[..k] + [setup[k]];
  }

  /** The first `n` entries of `a + b`, split at the end of `a`. */
  lemma PrefixOfJoin(a: seq<Call>, b: seq<Call>, n: nat)
    requires n <= |a| + |b|
    ensures n <= |a| ==> (a + b)[..n] == a[..n]
    ensures |a| <= n ==> (a + b)[..n] == a + b[..n - |a|]
  {
    if n <= |a| {
      assert (a + b)[..n] == a[..n];
    } else {
      assert (a + b)[..n] == a + b[..n - |a|];
    }
  }

  /**
    A set-up call whose reply is not looked at: `(name, params or {})` is
    the one command sent, and nothing is dispatched or injected.
   */
  method Setup(corr: Correlator, ws: Socket, ghost n0: nat, name: string, params: Json, budget: nat)
    returns (r: Result<()>)
    requires name != DispatchMouse && name != CallFunctionOn
    requires corr.Valid() && Tracks(corr, ws, n0)
    modifies corr, ws
    ensures corr.Valid() && Tracks(corr, ws, n0)
    ensures ws.closed == old(ws.closed)
    ensures Dispatched(ws.sent) == Dispatched(old(ws.sent)) && Injected(ws.sent) == Injected(old(ws.sent))
    ensures Grows(old(ws.sent), ws.sent) && |ws.sent| == |old(ws.sent)| + 1
    ensures Calls(ws.sent) == Calls(old(ws.sent)) + [(name, ParamsOrEmpty(params))]
    ensures r.Err? ==> CallError(r.error)
  {
    var e, rd := Plain(corr, ws, n0, name, params, budget);
    CallsGrow(old(ws.sent), ws.sent);
    r := if e.Ok? then Ok(()) else Err(e.error);
  }

  /**
    A list of set-up calls: none is a mouse event or a function call on a
    page object, and each params is what `_cdp_call` sends for it.
   */
  predicate SetupList(setup: seq<Call>)
  {
    forall i :: 0 <= i < |setup| ==>
      setup[i].0 != DispatchMouse && setup[i].0 != CallFunctionOn && ParamsOrEmpty(setup[i].1) == setup[i].1
  }

  lemma SetupListsHold()
    ensures SetupList(EnabledDomains) && SetupList(DebuggerSetup)
  {
  }

  /**
    Send the entries of `setup` one after the other, stopping at the first
    failure: the commands sent are the first `n` entries, in order, the
    failed one last, and all of them on success.
   */
  method SendEach(corr: Correlator, ws: Socket, ghost n0: nat, setup: seq<Call>, budget: nat)
    returns (r: Result<()>, ghost n: nat)
    requires SetupList(setup)
    requires corr.Valid() && Tracks(corr, ws, n0)
    modifies corr, ws
    ensures corr.Valid() && Tracks(corr, ws, n0)
    ensures ws.closed == old(ws.closed)
    ensures Dispatched(ws.sent) == Dispatched(old(ws.sent)) && Injected(ws.sent) == Injected(old(ws.sent))
    ensures n <= |setup| && Calls(ws.sent) == Calls(old(ws.sent)) + setup[..n]
    ensures Grows(old(ws.sent), ws.sent) && |ws.sent| == |old(ws.sent)| + n
    ensures r.Ok? ==> n == |setup|
    ensures r.Err? ==> 1 <= n && CallError(r.error)
  {
    n := 0;
    for k := 0 to |setup|
      invariant corr.Valid() && Tracks(corr, ws, n0)
      invariant ws.closed == old(ws.closed)
      invariant n == k && SetupSent(old(ws.sent), ws.sent, setup, k)
    {
      ghost var before := ws.sent;
      var e := Setup(corr, ws, n0, setup[k].0, setup[k].1, budget);
      SetupStep(old(ws.sent), before, ws.sent, setup, k);
      n := k + 1;
      if e.Err? { return Err(e.error), n; }
    }
    r := Ok(());
  }

  /**
    Enable the Page, Runtime and DOM domains (the same three commands, in
    the same order, as `set_dates_and_run`'s loop), then try the Debugger
    set-up. The commands sent are the first `n` of those six, in order.
    The result is an error exactly when one of the three domain enables
    failed: once `Debugger.enable` is sent, failures are swallowed.
   */
  method EnableForClick(corr: Correlator, ws: Socket, ghost n0: nat, budget: nat)
    returns (r: Result<()>, ghost n: nat)
    requires corr.Valid() && Tracks(corr, ws, n0)
    modifies corr, ws
    ensures corr.Valid() && Tracks(corr, ws, n0)
    ensures ws.closed == old(ws.closed)
    ensures Dispatched(ws.sent) == Dispatched(old(ws.sent)) && Injected(ws.sent) == Injected(old(ws.sent))
    ensures n <= |EnabledDomains + DebuggerSetup|
    ensures Calls(ws.sent) == Calls(old(ws.sent)) + (EnabledDomains + DebuggerSetup)[..n]
    ensures Grows(old(ws.sent), ws.sent) && |ws.sent| == |old(ws.sent)| + n
    ensures r.Ok? <==> n > |EnabledDomains|
    ensures r.Err? ==> CallError(r.error)
  {
    SetupListsHold();
    r, n := SendEach(corr, ws, n0, EnabledDomains, budget);
    PrefixOfJoin(EnabledDomains, DebuggerSetup, n);
    if r.Err? { return; }
    // inside `try: ... except Exception: pass`: a failure is swallowed
    ghost var enabled := ws.sent;
    var _, k := SendEach(corr, ws, n0, DebuggerSetup, budget);
    GrowsTrans(old(ws.sent), enabled, ws.sent);
    n := |EnabledDomains| + k;
    PrefixOfJoin(EnabledDomains, DebuggerSetup, n);
  }

  /** Right after the commands of `before`, the next commands sent were `calls`, in order. */
  predicate SentAfter(sent: seq<Command>, before: seq<Command>, calls: seq<Call>)
  {
    |before| + |calls| <= |sent| && Calls(sent[..|before| + |calls|]) == Calls(before) + calls
  }

  /** Sending more commands keeps what was sent after `before`. */
  lemma SentAfterKept(sent: seq<Command>, more: seq<Command>, before: seq<Command>, calls: seq<Call>)
    requires SentAfter(sent, before, calls) && Grows(sent, more)
    ensures SentAfter(more, before, calls)
  {
    GrowsPrefix(sent, more);
    assert more[..|before| + |calls|] == sent[..|before| + |calls|];
  }

  /** A log that grew from `before` by `calls` holds them right after `before`. */
  lemma SentAfterNow(sent: seq<Command>, before: seq<Command>, calls: seq<Call>)
    requires |sent| == |before| + |calls| && Calls(sent) == Calls(before) + calls
    ensures SentAfter(sent, before, calls)
  {
    assert sent[..|before| + |calls|] == sent;
  }

  /**
    The part of `click_element` before the element is touched: enable the
    domains, read the document root and query `selector` under it. On
    success the node is the one the query's reply names; nothing is
    dispatched.
   */
  method LocateNode(corr: Correlator, ws: Socket, ghost n0: nat, selector: string, rate: nat)
    returns (r: Result<Json>, ghost doc: Reading, ghost root: Json, ghost query: Reading, ghost n: nat)
    requires corr.Valid() && Tracks(corr, ws, n0)
    modifies corr, ws
    ensures corr.Valid() && Tracks(corr, ws, n0)
    ensures ws.closed == old(ws.closed)
    ensures Dispatched(ws.sent) == Dispatched(old(ws.sent))
    ensures Grows(old(ws.sent), ws.sent)
    ensures n <= |EnabledDomains + DebuggerSetup| && SentAfter(ws.sent, old(ws.sent), (EnabledDomains + DebuggerSetup)[..n])
    ensures !r.Err? || r.error.ValueError? ==> n > |EnabledDomains| && |old(ws.sent)| + n <= doc.cmd
    ensures r.Ok? ==>
              && RootRead(ws.script, ws.sent, doc, root)
              && NodeRead(ws.script, ws.sent, query, root, selector, r.value)
              && doc.cmd < query.cmd
    ensures r.Err? && r.error.ValueError? ==>
              && r.error == ValueError(NotFoundForSelector(selector))
              && RootRead(ws.script, ws.sent, doc, root) && NodeMissing(ws.script, ws.sent, query, root, selector)
  {
    root := JNull;
    doc, query := Reading(0, 0), Reading(0, 0);
    var e;
    e, n := EnableForClick(corr, ws, n0, 6 * rate);
    SentAfterNow(ws.sent, old(ws.sent), (EnabledDomains + DebuggerSetup)[..n]);
    if e.Err? { return Err(e.error), doc, root, query, n; }
    ghost var enabled := ws.sent;
    var rt;
    rt, doc := DocumentRoot(corr, ws, n0, 6 * rate);
    if rt.Err? {
      GrowsTrans(old(ws.sent), enabled, ws.sent);
      SentAfterKept(enabled, ws.sent, old(ws.sent), (EnabledDomains + DebuggerSetup)[..n]);
      return Err(rt.error), doc, root, query, n;
    }
    root := rt.value;
    ghost var rooted := ws.sent;
    r, query := FindNode(corr, ws, n0, rt.value, selector, NotFoundForSelector(selector), 6 * rate);
    RootReadKept(ws.script, rooted, ws.sent, doc, root);
    GrowsTrans(enabled, rooted, ws.sent);
    GrowsTrans(old(ws.sent), enabled, ws.sent);
    SentAfterKept(enabled, ws.sent, old(ws.sent), (EnabledDomains + DebuggerSetup)[..n]);
  }

  /** One more repetition of the loop appends one move-press-release triple. */
  lemma ClickScriptStep(d0: seq<Json>, x: real, y: real, i: nat)
    ensures d0 + ClickScript(x, y, i) + [MoveParams(x, y), ButtonParams("mousePressed", x, y), ButtonParams("mouseReleased", x, y)]
            == d0 + ClickScript(x, y, i + 1)
  {
  }

  /** `for i in range(n)`: move, press and release at (x, y), `n` times. */
  method ClickRepeatedly(corr: Correlator, ws: Socket, ghost n0: nat, x: real, y: real, n: nat, budget: nat)
    returns (r: Result<()>)
    requires corr.Valid() && Tracks(corr, ws, n0)
    modifies corr, ws
    ensures corr.Valid() && Tracks(corr, ws, n0)
    ensures ws.closed == old(ws.closed)
    ensures r.Err? ==> CallError(r.error)
    ensures r.Ok? ==> Dispatched(ws.sent) == Dispatched(old(ws.sent)) + ClickScript(x, y, n)
    ensures Grows(old(ws.sent), ws.sent)
  {
    ghost var d0 := Dispatched(ws.sent);
    for i := 0 to n
      invariant corr.Valid() && Tracks(corr, ws, n0)
      invariant ws.closed == old(ws.closed)
      invariant Grows(old(ws.sent), ws.sent)
      invariant Dispatched(ws.sent) == d0 + ClickScript(x, y, i)
    {
      ghost var before := ws.sent;
      var m := DispatchThree(corr, ws, n0, MoveParams(x, y), ButtonParams("mousePressed", x, y),
                             ButtonParams("mouseReleased", x, y), budget);
      GrowsTrans(old(ws.sent), before, ws.sent);
      if m.Err? { return Err(m.error); }
      ClickScriptStep(d0, x, y, i);
    }
    r := Ok(());
  }

  /**
    The rest of `click_element` on a located node: scroll it into view,
    read its box model, and dispatch `clickCount` move-press-release
    triples at the centre of its content quad. The quad is the reply to
    the box-model call on `node` itself.
   */
  method ClickNode(corr: Correlator, ws: Socket, ghost n0: nat, node: Json, clickCount: int, rate: nat)
    returns (r: Result<bool>, ghost box: Reading, ghost corners: seq<real>)
    requires corr.Valid() && Tracks(corr, ws, n0)
    modifies corr, ws
    ensures corr.Valid() && Tracks(corr, ws, n0)
    ensures ws.closed == old(ws.closed)
    ensures Grows(old(ws.sent), ws.sent) && |old(ws.sent)| <= box.cmd
    ensures r.Err? ==> !r.error.ValueError?
    ensures r.Ok? ==>
              && r.value && |corners| >= 8
              && BoxRead(ws.script, ws.sent, box, node, corners)
              && Dispatched(ws.sent) == Dispatched(old(ws.sent))
                 + ClickScript(Centroid(corners).0, Centroid(corners).1, if clickCount > 0 then clickCount else 0)
  {
    corners := [];
    var b;
    b, box := BoxContent(corr, ws, n0, node, 2 * rate);
    if b.Err? { return Err(b.error), box, corners; }
    var c := b.value;
    if |c| < 8 { return Err(IndexError("list index out of range")), box, corners; }
    corners := c;
    ghost var measured := ws.sent;
    var x := Centroid(c).0;
    var y := Centroid(c).1;
    var n: nat := if clickCount > 0 then clickCount else 0;
    var m := ClickRepeatedly(corr, ws, n0, x, y, n, rate);
    GrowsTrans(old(ws.sent), measured, ws.sent);
    if m.Err? { return Err(m.error), box, corners; }
    BoxReadKept(ws.script, measured, ws.sent, box, node, corners);
    assert Centroid(corners) == (x, y);
    r := Ok(true);
  }

  /**
    `click_element(diag, selector, click_count)` with the per-call
    timeouts it evidently intends (2 s for scrolling and the box model,
    1 s per mouse event): the URL of the first page target, a fresh
    connection that is closed on every path, and, on success, exactly
    `click_count` move-press-release triples at the centre of the element
    `selector` names under the document root. A falsy nodeId raises
    ValueError before any mouse event.
   */
  method ClickElement(corr: Correlator, targets: seq<Target>, selector: string, clickCount: int,
                      script: seq<Frame>, rate: nat)
    returns (r: Result<bool>, ws: Socket?, ghost doc: Reading, ghost root: Json, ghost aim: Aim, ghost n: nat)
    requires corr.Valid()
    modifies corr
    ensures corr.Valid()
    ensures PageSocketUrl(targets, NoPageOnEndpoint).Err? ==>
              && ws == null && r == Err(PageSocketUrl(targets, NoPageOnEndpoint).error)
              && corr.lastId == old(corr.lastId) && corr.issued == old(corr.issued)
    ensures PageSocketUrl(targets, NoPageOnEndpoint).Ok? ==>
              && ws != null && fresh(ws) && ws.url == PageSocketUrl(targets, NoPageOnEndpoint).value
              && ws.closed && Tracks(corr, ws, |old(corr.issued)|)
    ensures r.Ok? ==>
              && r.value && ws != null && |aim.corners| >= 8
              && |EnabledDomains| < n <= |EnabledDomains + DebuggerSetup| && n <= doc.cmd
              && SentAfter(ws.sent, [], (EnabledDomains + DebuggerSetup)[..n])
              && RootRead(ws.script, ws.sent, doc, root) && AimedAt(ws.script, ws.sent, root, selector, aim)
              && Dispatched(ws.sent) == ClickScript(Centroid(aim.corners).0, Centroid(aim.corners).1,
                                                   if clickCount > 0 then clickCount else 0)
    ensures r == Err(ValueError(NotFoundForSelector(selector))) ==>
              && ws != null && Dispatched(ws.sent) == []
              && RootRead(ws.script, ws.sent, doc, root) && NodeMissing(ws.script, ws.sent, aim.query, root, selector)
  {
    doc, root, n := Reading(0, 0), JNull, 0;
    aim := Aim(Reading(0, 0), JNull, Reading(0, 0), []);
    var url := PageSocketUrl(targets, NoPageOnEndpoint);
    if url.Err? {
      return Err(url.error), null, doc, root, aim, n;
    }
    ws := new Socket(url.value, script);
    ghost var n0 := |corr.issued|;
    var node;
    ghost var query;
    node, doc, root, query, n := LocateNode(corr, ws, n0, selector, rate);
    aim := Aim(query, JNull, query, []);
    if node.Err? {
      r := Err(node.error);
    } else {
      ghost var located := ws.sent;
      ghost var box, corners;
      r, box, corners := ClickNode(corr, ws, n0, node.value, clickCount, rate);
      aim := Aim(query, node.value, box, corners);
      if r.Ok? {
        RootReadKept(ws.script, located, ws.sent, doc, root);
        NodeReadKept(ws.script, located, ws.sent, query, root, selector, node.value);
        SentAfterKept(located, ws.sent, [], (EnabledDomains + DebuggerSetup)[..n]);
      }
    }
    ghost var before := ws.sent;
    ws.Close();
    assert ws.sent == before;
  }

  /**
    `click_element` as written: the scroll call passes `timeout_s=`, which
    `_cdp_call` does not accept, so every run that finds the element ends in
    TypeError before that call draws an id, and no mouse event is sent.
   */
  method ClickElementAsWritten(corr: Correlator, targets: seq<Target>, selector: string, clickCount: int,
                               script: seq<Frame>, rate: nat)
    returns (r: Result<bool>, ws: Socket?)
    requires corr.Valid()
    modifies corr
    ensures corr.Valid()
    ensures PageSocketUrl(targets, NoPageOnEndpoint).Err? ==>
              ws == null && r == Err(PageSocketUrl(targets, NoPageOnEndpoint).error)
    ensures PageSocketUrl(targets, NoPageOnEndpoint).Ok? ==>
              && ws != null && fresh(ws) && ws.closed && Dispatched(ws.sent) == []
              && Tracks(corr, ws, |old(corr.issued)|)
    ensures r.Err?
  {
    var url := PageSocketUrl(targets, NoPageOnEndpoint);
    if url.Err? {
      return Err(url.error), null;
    }
    ws := new Socket(url.value, script);
    ghost var n0 := |corr.issued|;
    var node, doc, root, query, n := LocateNode(corr, ws, n0, selector, rate);
    if node.Err? {
      r := Err(node.error);
    } else {
      r := Err(TypeError(UnexpectedTimeoutS));
    }
    ws.Close();
  }

  // ---------------------------------------------------------------------
  // set_dates_and_run
  // ---------------------------------------------------------------------

  /**
    How `set_text` set one field: the `DOM.querySelector` call and the node
    it named, the `DOM.resolveNode` call on that node and the objectId its
    reply gave, and the index of the `Runtime.callFunctionOn` command.
   */
  datatype TextTrace = TextTrace(query: Reading, node: Json, resolve: Reading, objectId: Json, call: int)

  /**
    `value` was set on `node`: resolving the node (call `resolve`) gave
    `objectId`, and the value-setting function was then called on that
    object with `value` (command `call`).
   */
  predicate ValueSet(script: seq<Frame>, sent: seq<Command>, node: Json, value: string, resolve: Reading,
                     objectId: Json, call: int)
  {
    && Replied(script, sent, resolve, ResolveNode, NodeParams(node))
    && ResultAt(ReplyOf(script, resolve), ["object", "objectId"]) == Ok(objectId)
    && Sent(sent, call, CallFunctionOn, SetValueParams(objectId, value))
    && resolve.cmd < call
  }

  lemma ValueSetKept(script: seq<Frame>, sent: seq<Command>, more: seq<Command>, node: Json, value: string,
                     resolve: Reading, objectId: Json, call: int)
    requires ValueSet(script, sent, node, value, resolve, objectId, call) && Grows(sent, more)
    ensures ValueSet(script, more, node, value, resolve, objectId, call)
  {
    RepliedKept(script, sent, more, resolve, ResolveNode, NodeParams(node));
    SentKept(sent, more, call, CallFunctionOn, SetValueParams(objectId, value));
  }

  /**
    `value` was set on the element `selector` names under `root`: the
    query found `t.node`, and then `value` was set on that node.
   */
  predicate TextSet(script: seq<Frame>, sent: seq<Command>, root: Json, selector: string, value: string,
                    t: TextTrace)
  {
    && NodeRead(script, sent, t.query, root, selector, t.node)
    && ValueSet(script, sent, t.node, value, t.resolve, t.objectId, t.call)
    && t.query.cmd < t.resolve.cmd
  }

  lemma TextSetKept(script: seq<Frame>, sent: seq<Command>, more: seq<Command>, root: Json, selector: string,
                    value: string, t: TextTrace)
    requires TextSet(script, sent, root, selector, value, t) && Grows(sent, more)
    ensures TextSet(script, more, root, selector, value, t)
  {
    NodeReadKept(script, sent, more, t.query, root, selector, t.node);
    ValueSetKept(script, sent, more, t.node, value, t.resolve, t.objectId, t.call);
  }

  /**
    The part of `set_text` after the query: `DOM.resolveNode` on `node`,
    then `Runtime.callFunctionOn` on the objectId of its reply with
    `value`. On success exactly `value` is injected; a failure raises no
    ValueError.
   */
  method SetNodeValue(corr: Correlator, ws: Socket, ghost n0: nat, node: Json, value: string, budget: nat)
    returns (r: Result<()>, ghost resolve: Reading, ghost objectId: Json, ghost call: int)
    requires corr.Valid() && Tracks(corr, ws, n0)
    modifies corr, ws
    ensures corr.Valid() && Tracks(corr, ws, n0)
    ensures ws.closed == old(ws.closed)
    ensures Dispatched(ws.sent) == Dispatched(old(ws.sent))
    ensures Grows(old(ws.sent), ws.sent) && resolve.cmd == |old(ws.sent)|
    ensures Injected(ws.sent) == Injected(old(ws.sent))
            || Injected(ws.sent) == Injected(old(ws.sent)) + [ValueArgs(value)]
    ensures r.Ok? ==>
              && Injected(ws.sent) == Injected(old(ws.sent)) + [ValueArgs(value)]
              && ValueSet(ws.script, ws.sent, node, value, resolve, objectId, call) && call < |ws.sent|
    ensures r.Err? ==> !r.error.ValueError?
  {
    var rn;
    rn, resolve := Plain(corr, ws, n0, ResolveNode, NodeParams(node), budget);
    objectId, call := JNull, 0;
    if rn.Err? { return Err(rn.error), resolve, objectId, call; }
    var obj := ResultAt(rn.value, ["object", "objectId"]);
    if obj.Err? { return Err(obj.error), resolve, objectId, call; }
    ghost var resolved := ws.sent;
    objectId, call := obj.value, |ws.sent|;
    var c := Inject(corr, ws, n0, SetValueParams(obj.value, value), budget);
    GrowsTrans(old(ws.sent), resolved, ws.sent);
    if c.Err? { return Err(c.error), resolve, objectId, call; }
    RepliedKept(ws.script, resolved, ws.sent, resolve, ResolveNode, NodeParams(node));
    r := Ok(());
  }

  /**
    The inner `set_text(selector, value)`: query the element under the
    root, resolve it to a remote object and call the value-setting function
    on it with `value`. A falsy nodeId raises ValueError and nothing is
    injected.
   */
  method SetText(corr: Correlator, ws: Socket, ghost n0: nat, root: Json, selector: string, value: string,
                 budget: nat) returns (r: Result<()>, ghost t: TextTrace)
    requires corr.Valid() && Tracks(corr, ws, n0)
    modifies corr, ws
    ensures corr.Valid() && Tracks(corr, ws, n0)
    ensures ws.closed == old(ws.closed)
    ensures Dispatched(ws.sent) == Dispatched(old(ws.sent))
    ensures Grows(old(ws.sent), ws.sent) && |old(ws.sent)| <= t.query.cmd
    ensures Injected(ws.sent) == Injected(old(ws.sent))
            || Injected(ws.sent) == Injected(old(ws.sent)) + [ValueArgs(value)]
    ensures r.Ok? ==>
              && Injected(ws.sent) == Injected(old(ws.sent)) + [ValueArgs(value)]
              && TextSet(ws.script, ws.sent, root, selector, value, t) && t.call < |ws.sent|
    ensures r.Err? && r.error.ValueError? ==>
              && r.error == ValueError("Element not found: " + selector)
              && Injected(ws.sent) == Injected(old(ws.sent))
              && NodeMissing(ws.script, ws.sent, t.query, root, selector)
  {
    var node, query := FindNode(corr, ws, n0, root, selector, "Element not found: " + selector, budget);
    t := TextTrace(query, JNull, query, JNull, 0);
    if node.Err? { return Err(node.error), t; }
    ghost var found := ws.sent;
    var v, resolve, objectId, call := SetNodeValue(corr, ws, n0, node.value, value, budget);
    GrowsTrans(old(ws.sent), found, ws.sent);
    t := TextTrace(query, node.value, resolve, objectId, call);
    if v.Err? { return Err(v.error), t; }
    NodeReadKept(ws.script, found, ws.sent, query, root, selector, node.value);
    r := Ok(());
  }

  const FromField := "#txtFromDate"
  const ToField := "#txtToDate"
  const RunButton := "#imgLoad"

  /**
    `set_text("#txtFromDate", convert_date_slash_to_dash(start_date))` and
    the same for the end date; each date is converted before its field is
    looked up, and the start date's field is set before the end date's is
    looked up.
   */
  method SetDates(corr: Correlator, ws: Socket, ghost n0: nat, root: Json, startDate: string, endDate: string,
                  budget: nat) returns (r: Result<()>, ghost from: TextTrace, ghost to: TextTrace)
    requires corr.Valid() && Tracks(corr, ws, n0)
    requires Injected(ws.sent) == []
    modifies corr, ws
    ensures corr.Valid() && Tracks(corr, ws, n0)
    ensures ws.closed == old(ws.closed)
    ensures Dispatched(ws.sent) == Dispatched(old(ws.sent))
    ensures Grows(old(ws.sent), ws.sent)
    ensures ConvertDateSlashToDash(startDate).Err? ==> Injected(ws.sent) == [] && r.Err?
    ensures r.Ok? ==>
              && ConvertDateSlashToDash(startDate).Ok? && ConvertDateSlashToDash(endDate).Ok?
              && Injected(ws.sent) == [ValueArgs(ConvertDateSlashToDash(startDate).value),
                                       ValueArgs(ConvertDateSlashToDash(endDate).value)]
              && |old(ws.sent)| <= from.query.cmd && from.call < to.query.cmd && to.call < |ws.sent|
              && TextSet(ws.script, ws.sent, root, FromField, ConvertDateSlashToDash(startDate).value, from)
              && TextSet(ws.script, ws.sent, root, ToField, ConvertDateSlashToDash(endDate).value, to)
  {
    from := TextTrace(Reading(0, 0), JNull, Reading(0, 0), JNull, 0);
    to := from;
    var start := ConvertDateSlashToDash(startDate);
    if start.Err? { return Err(start.error), from, to; }
    var t;
    t, from := SetText(corr, ws, n0, root, FromField, start.value, budget);
    if t.Err? { return Err(t.error), from, to; }
    ghost var first := ws.sent;
    var end := ConvertDateSlashToDash(endDate);
    if end.Err? { return Err(end.error), from, to; }
    t, to := SetText(corr, ws, n0, root, ToField, end.value, budget);
    GrowsTrans(old(ws.sent), first, ws.sent);
    if t.Err? { return Err(t.error), from, to; }
    TextSetKept(ws.script, first, ws.sent, root, FromField, start.value, from);
    assert from.call < |first| <= to.query.cmd;
    AppendTwo(ValueArgs(start.value), ValueArgs(end.value));
    r := Ok(());
  }

  /**
    The run button step of `set_dates_and_run`: find `#imgLoad` under the
    root, scroll it into view, read its box model and click it once at the
    slice-form centre of its content quad.
   */
  method ClickRunButton(corr: Correlator, ws: Socket, ghost n0: nat, root: Json, budget: nat)
    returns (r: Result<()>, ghost aim: Aim)
    requires corr.Valid() && Tracks(corr, ws, n0)
    modifies corr, ws
    ensures corr.Valid() && Tracks(corr, ws, n0)
    ensures ws.closed == old(ws.closed)
    ensures Injected(ws.sent) == Injected(old(ws.sent))
    ensures Grows(old(ws.sent), ws.sent) && |old(ws.sent)| <= aim.query.cmd
    ensures r.Ok? ==>
              && AimedAt(ws.script, ws.sent, root, RunButton, aim)
              && Dispatched(ws.sent) == Dispatched(old(ws.sent))
                 + RunScript(SliceCentroid(aim.corners).0, SliceCentroid(aim.corners).1)
    ensures r.Err? && r.error.ValueError? ==>
              && r.error == ValueError("Run button #imgLoad not found.")
              && Dispatched(ws.sent) == Dispatched(old(ws.sent))
              && NodeMissing(ws.script, ws.sent, aim.query, root, RunButton)
  {
    var node, query := FindNode(corr, ws, n0, root, RunButton, "Run button #imgLoad not found.", budget);
    aim := Aim(query, JNull, query, []);
    if node.Err? { return Err(node.error), aim; }
    ghost var found := ws.sent;
    var b, box := BoxContent(corr, ws, n0, node.value, budget);
    GrowsTrans(old(ws.sent), found, ws.sent);
    aim := Aim(query, node.value, box, []);
    if b.Err? { return Err(b.error), aim; }
    aim := Aim(query, node.value, box, b.value);
    ghost var measured := ws.sent;
    var (x, y) := SliceCentroid(b.value);
    var m := DispatchThree(corr, ws, n0, ButtonParams("mouseMoved", x, y), ButtonParams("mousePressed", x, y),
                           ButtonParams("mouseReleased", x, y), budget);
    GrowsTrans(old(ws.sent), measured, ws.sent);
    if m.Err? { return Err(m.error), aim; }
    NodeReadKept(ws.script, found, measured, query, root, RunButton, node.value);
    AimedAtKept(ws.script, measured, ws.sent, root, RunButton, aim);
    r := Ok(());
  }

  /**
    What `set_dates_and_run` did on the page: the root read from
    `DOM.getDocument`, the two fields set under it, and the run button
    found under it and measured.
   */
  datatype RunTrace = RunTrace(doc: Reading, root: Json, from: TextTrace, to: TextTrace, aim: Aim)

  /**
    Under the root of `t.doc`, `from` was typed into `#txtFromDate`, then
    `to` into `#txtToDate`, and then `#imgLoad` was found and measured.
   */
  predicate DatesRun(script: seq<Frame>, sent: seq<Command>, from: string, to: string, t: RunTrace)
  {
    && RootRead(script, sent, t.doc, t.root)
    && TextSet(script, sent, t.root, FromField, from, t.from)
    && TextSet(script, sent, t.root, ToField, to, t.to)
    && AimedAt(script, sent, t.root, RunButton, t.aim)
    && t.doc.cmd < t.from.query.cmd && t.from.call < t.to.query.cmd && t.to.call < t.aim.query.cmd
  }

  /**
    Everything `set_dates_and_run` does on the open connection: enable the
    domains, read the root, type both converted dates, then click the run
    button.
   */
  method RunSteps(corr: Correlator, ws: Socket, ghost n0: nat, startDate: string, endDate: string, rate: nat)
    returns (r: Result<bool>, ghost t: RunTrace)
    requires corr.Valid() && Tracks(corr, ws, n0)
    requires Dispatched(ws.sent) == [] && Injected(ws.sent) == []
    modifies corr, ws
    ensures corr.Valid() && Tracks(corr, ws, n0)
    ensures ws.closed == old(ws.closed)
    ensures ConvertDateSlashToDash(startDate).Err? ==> Injected(ws.sent) == [] && Dispatched(ws.sent) == []
    ensures r.Ok? ==>
              && r.value
              && SentAfter(ws.sent, old(ws.sent), EnabledDomains) && |old(ws.sent)| + |EnabledDomains| <= t.doc.cmd
              && ConvertDateSlashToDash(startDate).Ok? && ConvertDateSlashToDash(endDate).Ok?
              && Injected(ws.sent) == [ValueArgs(ConvertDateSlashToDash(startDate).value),
                                       ValueArgs(ConvertDateSlashToDash(endDate).value)]
              && DatesRun(ws.script, ws.sent, ConvertDateSlashToDash(startDate).value,
                          ConvertDateSlashToDash(endDate).value, t)
              && Dispatched(ws.sent) == RunScript(SliceCentroid(t.aim.corners).0, SliceCentroid(t.aim.corners).1)
  {
    ghost var blank := TextTrace(Reading(0, 0), JNull, Reading(0, 0), JNull, 0);
    t := RunTrace(Reading(0, 0), JNull, blank, blank, Aim(Reading(0, 0), JNull, Reading(0, 0), []));
    var budget := 6 * rate;
    var e := EnableDomains(corr, ws, n0, budget);
    if e.Err? { return Err(e.error), t; }
    ghost var enabled := ws.sent;
    var root, doc := DocumentRoot(corr, ws, n0, budget);
    if root.Err? { return Err(root.error), t; }
    ghost var rooted := ws.sent;
    var s;
    s, t := TypeDatesAndClick(corr, ws, n0, doc, root.value, startDate, endDate, budget);
    if s.Err? { return Err(s.error), t; }
    GrowsTrans(enabled, rooted, ws.sent);
    SentAfterKept(enabled, ws.sent, old(ws.sent), EnabledDomains);
    r := Ok(true);
  }

  /** The first step of `set_dates_and_run`: enable the Page, Runtime and DOM domains. */
  method EnableDomains(corr: Correlator, ws: Socket, ghost n0: nat, budget: nat) returns (r: Result<()>)
    requires corr.Valid() && Tracks(corr, ws, n0)
    modifies corr, ws
    ensures corr.Valid() && Tracks(corr, ws, n0)
    ensures ws.closed == old(ws.closed)
    ensures Dispatched(ws.sent) == Dispatched(old(ws.sent)) && Injected(ws.sent) == Injected(old(ws.sent))
    ensures Grows(old(ws.sent), ws.sent)
    ensures r.Ok? ==> SentAfter(ws.sent, old(ws.sent), EnabledDomains) && |ws.sent| == |old(ws.sent)| + |EnabledDomains|
  {
    SetupListsHold();
    ghost var n;
    r, n := SendEach(corr, ws, n0, EnabledDomains, budget);
    if r.Ok? { SentAfterNow(ws.sent, old(ws.sent), EnabledDomains); }
  }

  /**
    The part of `set_dates_and_run` after the root is read: type both
    converted dates, then click the run button, all under `root`.
   */
  method TypeDatesAndClick(corr: Correlator, ws: Socket, ghost n0: nat, ghost doc: Reading, root: Json,
                           startDate: string, endDate: string, budget: nat)
    returns (r: Result<()>, ghost t: RunTrace)
    requires corr.Valid() && Tracks(corr, ws, n0)
    requires Dispatched(ws.sent) == [] && Injected(ws.sent) == []
    requires RootRead(ws.script, ws.sent, doc, root) && doc.cmd < |ws.sent|
    modifies corr, ws
    ensures corr.Valid() && Tracks(corr, ws, n0)
    ensures ws.closed == old(ws.closed)
    ensures Grows(old(ws.sent), ws.sent) && t.doc == doc
    ensures ConvertDateSlashToDash(startDate).Err? ==> Injected(ws.sent) == [] && Dispatched(ws.sent) == []
    ensures r.Ok? ==>
              && ConvertDateSlashToDash(startDate).Ok? && ConvertDateSlashToDash(endDate).Ok?
              && Injected(ws.sent) == [ValueArgs(ConvertDateSlashToDash(startDate).value),
                                       ValueArgs(ConvertDateSlashToDash(endDate).value)]
              && DatesRun(ws.script, ws.sent, ConvertDateSlashToDash(startDate).value,
                          ConvertDateSlashToDash(endDate).value, t)
              && Dispatched(ws.sent) == RunScript(SliceCentroid(t.aim.corners).0, SliceCentroid(t.aim.corners).1)
  {
    ghost var blank := TextTrace(Reading(0, 0), JNull, Reading(0, 0), JNull, 0);
    t := RunTrace(doc, root, blank, blank, Aim(Reading(0, 0), JNull, Reading(0, 0), []));
    ghost var rooted := ws.sent;
    var s, from, to := SetDates(corr, ws, n0, root, startDate, endDate, budget);
    if s.Err? { return Err(s.error), t; }
    ghost var typed := ws.sent;
    var c, aim := ClickRunButton(corr, ws, n0, root, budget);
    GrowsTrans(rooted, typed, ws.sent);
    if c.Err? { return Err(c.error), t; }
    t := RunTrace(doc, root, from, to, aim);
    RunStepsTrace(ws.script, rooted, typed, ws.sent, ConvertDateSlashToDash(startDate).value,
                  ConvertDateSlashToDash(endDate).value, t);
    r := Ok(());
  }

  /** The facts `TypeDatesAndClick` gathers step by step add up to `DatesRun` on the final log. */
  lemma RunStepsTrace(script: seq<Frame>, rooted: seq<Command>, typed: seq<Command>, sent: seq<Command>,
                      from: string, to: string, t: RunTrace)
    requires Grows(rooted, typed) && Grows(typed, sent)
    requires RootRead(script, rooted, t.doc, t.root) && t.doc.cmd < |rooted| <= t.from.query.cmd
    requires TextSet(script, typed, t.root, FromField, from, t.from)
    requires TextSet(script, typed, t.root, ToField, to, t.to) && t.from.call < t.to.query.cmd && t.to.call < |typed|
    requires AimedAt(script, sent, t.root, RunButton, t.aim) && |typed| <= t.aim.query.cmd
    ensures DatesRun(script, sent, from, to, t)
  {
    GrowsTrans(rooted, typed, sent);
    RootReadKept(script, rooted, sent, t.doc, t.root);
    TextSetKept(script, typed, sent, t.root, FromField, from, t.from);
    TextSetKept(script, typed, sent, t.root, ToField, to, t.to);
  }

  /**
    `set_dates_and_run(diag, start_date, end_date, ws_url)`: the given URL
    or that of the first page target, a fresh connection closed on every
    path, the two dates typed in "DD-MON-YYYY" form into `#txtFromDate`
    and `#txtToDate`, then one click on `#imgLoad`.
   */
  method SetDatesAndRun(corr: Correlator, targets: seq<Target>, startDate: string, endDate: string,
                        wsUrl: Option<string>, script: seq<Frame>, rate: nat)
    returns (r: Result<bool>, ws: Socket?, ghost t: RunTrace)
    requires corr.Valid()
    modifies corr
    ensures corr.Valid()
    ensures SocketUrlFor(wsUrl, targets).Err? ==>
              && ws == null && r == Err(SocketUrlFor(wsUrl, targets).error)
              && corr.lastId == old(corr.lastId) && corr.issued == old(corr.issued)
    ensures SocketUrlFor(wsUrl, targets).Ok? ==>
              && ws != null && fresh(ws) && ws.url == SocketUrlFor(wsUrl, targets).value
              && ws.closed && Tracks(corr, ws, |old(corr.issued)|)
    ensures ws != null && ConvertDateSlashToDash(startDate).Err? ==>
              Injected(ws.sent) == [] && Dispatched(ws.sent) == []
    ensures r.Ok? ==>
              && r.value && ws != null
              && SentAfter(ws.sent, [], EnabledDomains) && |EnabledDomains| <= t.doc.cmd
              && ConvertDateSlashToDash(startDate).Ok? && ConvertDateSlashToDash(endDate).Ok?
              && Injected(ws.sent) == [ValueArgs(ConvertDateSlashToDash(startDate).value),
                                       ValueArgs(ConvertDateSlashToDash(endDate).value)]
              && DatesRun(ws.script, ws.sent, ConvertDateSlashToDash(startDate).value,
                          ConvertDateSlashToDash(endDate).value, t)
              && Dispatched(ws.sent) == RunScript(SliceCentroid(t.aim.corners).0, SliceCentroid(t.aim.corners).1)
  {
    ghost var blank := TextTrace(Reading(0, 0), JNull, Reading(0, 0), JNull, 0);
    t := RunTrace(Reading(0, 0), JNull, blank, blank, Aim(Reading(0, 0), JNull, Reading(0, 0), []));
    var url := SocketUrlFor(wsUrl, targets);
    if url.Err? {
      return Err(url.error), null, t;
    }
    ws := new Socket(url.value, script);
    ghost var n0 := |corr.issued|;
    r, t := RunSteps(corr, ws, n0, startDate, endDate, rate);
    ghost var before := ws.sent;
    ws.Close();
    assert ws.sent == before;
  }
}

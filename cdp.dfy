/**
  The Chrome DevTools Protocol call correlator of gather_utils.py (`_cdp_call`
  and its module-wide counter `_cdp_msg_id`).

  The WebSocket is a `Socket` object holding the frames the browser will
  deliver, in order, and the commands sent so far. The wall-clock deadline of
  a call is abstracted to `budget`, the number of receive attempts that fit
  before it passes. A receive on a socket with no frame left is a receive
  timeout.
 */
module Cdp {
  import opened Common

  /** A decoded JSON value. Numbers, integral or not, are reals. */
  datatype Json =
    | JNull
    | JBool(b: bool)
    | JNum(n: real)
    | JStr(s: string)
    | JArr(items: seq<Json>)
    | JObj(fields: map<string, Json>)

  /** Python truthiness of a decoded JSON value (`if not x`). */
  predicate Truthy(j: Json)
  {
    match j
    case JNull => false
    case JBool(b) => b
    case JNum(n) => n != 0.0
    case JStr(s) => s != ""
    case JArr(items) => items != []
    case JObj(fields) => fields != map[]
  }

  /** `j[key]`: a dict lookup, KeyError when the key is absent, TypeError on a non-dict. */
  function Member(j: Json, key: string): (r: Result<Json>)
    ensures r.Ok? <==> j.JObj? && key in j.fields
    ensures r.Ok? ==> r.value == j.fields[key]
    ensures r.Err? ==> (r.error.KeyError? <==> j.JObj?)
  {
    match j
    case JObj(fields) => if key in fields then Ok(fields[key]) else Err(KeyError(key))
    case _ => Err(TypeError("object is not subscriptable by '" + key + "'"))
  }

  /** `j[k1][k2]...` along a path of keys. */
  function Lookup(j: Json, path: seq<string>): (r: Result<Json>)
    ensures path == [] ==> r == Ok(j)
    ensures r.Err? ==> r.error.KeyError? || r.error.TypeError?
    decreases |path|
  {
    if path == [] then Ok(j)
    else match Member(j, path[0])
      case Ok(v) => Lookup(v, path[1..])
      case Err(e) => Err(e)
  }

  /** `reply["result"][k1]...` on the message a call returned; `reply` holds the
      message's "result" member, None when the message had none. */
  function ResultAt(reply: Option<Json>, path: seq<string>): (r: Result<Json>)
    ensures reply.None? ==> r == Err(KeyError("result"))
    ensures reply.Some? ==> r == Lookup(reply.value, path)
    ensures r.Err? ==> r.error.KeyError? || r.error.TypeError?
  {
    match reply
    case None => Err(KeyError("result"))
    case Some(r) => Lookup(r, path)
  }

  /** One outbound command, `{"id": id, "method": method, "params": params}`. */
  datatype Command = Command(id: int, name: string, params: Json)

  /** One inbound frame as `ws.recv()` delivers it. */
  datatype Frame =
    | Empty                                                 // an empty frame
    | TimedOut                                              // recv() raised WebSocketTimeoutException
    | Msg(id: Option<int>, hasError: bool, result: Option<Json>)   // a decoded message

  /** What one `recv()` yields and what is left behind it. */
  function Next(frames: seq<Frame>): (p: (Frame, seq<Frame>))
    ensures frames == [] ==> p == (TimedOut, [])
    ensures frames != [] ==> p == (frames[0], frames[1..])
  {
    if frames == [] then (TimedOut, []) else (frames[0], frames[1..])
  }

  /** `params or {}` */
  function ParamsOrEmpty(params: Json): (p: Json)
    ensures Truthy(params) ==> p == params
    ensures !Truthy(params) ==> p == JObj(map[])
  {
    if Truthy(params) then params else JObj(map[])
  }

  function TimeoutMessage(name: string): string
  {
    "Timed out waiting for response to " + name
  }

  function RemoteErrorMessage(name: string): string
  {
    "CDP error for " + name
  }

  /** A frame the correlator passes over while waiting for reply `id`. */
  predicate Skipped(f: Frame, id: int)
  {
    f.Empty? || (f.Msg? && f.id != Some(id))
  }

  /** A message that answers command `id`. */
  predicate Answers(f: Frame, id: int)
  {
    f.Msg? && f.id == Some(id)
  }

  /**
    What waiting for reply `id` yields, and the frames left unread: the
    receive loop of `_cdp_call` as a function of the inbound frames.
   */
  function Await(frames: seq<Frame>, id: int, name: string, budget: nat): (p: (Result<Option<Json>>, seq<Frame>))
    ensures |p.1| <= |frames| && p.1 == frames[|frames| - |p.1|..]
    ensures p.0.Err? ==> p.0.error == TimeoutError(TimeoutMessage(name)) || p.0.error == RuntimeError(RemoteErrorMessage(name))
    decreases budget
  {
    if budget == 0 then (Err(TimeoutError(TimeoutMessage(name))), frames)
    else
      var (f, rest) := Next(frames);
      match f
      case TimedOut => (Err(TimeoutError(TimeoutMessage(name))), rest)
      case Empty => Await(rest, id, name, budget - 1)
      case Msg(mid, hasError, res) =>
        if mid == Some(id) then
          (if hasError then Err(RuntimeError(RemoteErrorMessage(name))) else Ok(res), rest)
        else Await(rest, id, name, budget - 1)
  }

  /**
    Frame `k` is the reply to command `id` that the wait returns as `p`: it
    carries the id and no error, `p` holds its result and the frames after
    it, and every frame before it is one the correlator passes over.
   */
  predicate ReplyAt(frames: seq<Frame>, id: int, k: int, p: (Result<Option<Json>>, seq<Frame>))
  {
    && 0 <= k < |frames| && Answers(frames[k], id)
    && !frames[k].hasError && p.0 == Ok(frames[k].result)
    && (forall j :: 0 <= j < k ==> Skipped(frames[j], id))
    && p.1 == frames[k + 1..]
  }

  /**
    A successful call returns the "result" of a message carrying its own id,
    and every frame read before that one was an empty frame, an event without
    an id, or a message for another id.
   */
  lemma {:induction false} AwaitReturnsOwnReply(frames: seq<Frame>, id: int, name: string, budget: nat)
    requires Await(frames, id, name, budget).0.Ok?
    ensures exists k :: k < budget && ReplyAt(frames, id, k, Await(frames, id, name, budget))
    decreases budget
  {
    assert budget > 0 && frames != [];
    var f := frames[0];
    if Answers(f, id) {
      assert ReplyAt(frames, id, 0, Await(frames, id, name, budget));
    } else {
      assert Skipped(f, id);
      assert Await(frames, id, name, budget) == Await(frames[1..], id, name, budget - 1);
      AwaitReturnsOwnReply(frames[1..], id, name, budget - 1);
      var k :| k < budget - 1 && ReplyAt(frames[1..], id, k, Await(frames[1..], id, name, budget - 1));
      SkipOne(frames, id, k, Await(frames, id, name, budget));
    }
  }

  /** A reply found behind one skipped frame is found at the next position. */
  lemma SkipOne(frames: seq<Frame>, id: int, k: int, p: (Result<Option<Json>>, seq<Frame>))
    requires frames != [] && Skipped(frames[0], id) && ReplyAt(frames[1..], id, k, p)
    ensures ReplyAt(frames, id, k + 1, p)
  {
    assert frames[1..][k + 1..] == frames[k + 2..];
    forall j | 0 <= j < k + 1
      ensures Skipped(frames[j], id)
    {
      if j > 0 { assert frames[j] == frames[1..][j - 1]; }
    }
  }

  /**
    Conversely, a reply with the call's id that arrives within the budget,
    after nothing but skippable frames, is what the call yields: its result
    when it carries no error, a RuntimeError when it does.
   */
  lemma {:induction false} AwaitFindsOwnReply(frames: seq<Frame>, id: int, name: string, budget: nat, k: nat)
    requires k < |frames| && k < budget && Answers(frames[k], id)
    requires forall j :: 0 <= j < k ==> Skipped(frames[j], id)
    ensures Await(frames, id, name, budget) ==
      (if frames[k].hasError then Err(RuntimeError(RemoteErrorMessage(name))) else Ok(frames[k].result),
       frames[k + 1..])
    decreases k
  {
    if k > 0 {
      assert Skipped(frames[0], id);
      assert frames[1..][k - 1] == frames[k];
      assert forall j :: 0 <= j < k - 1 ==> Skipped(frames[1..][j], id) by {
        forall j | 0 <= j < k - 1 ensures Skipped(frames[1..][j], id) {
          assert frames[1..][j] == frames[j + 1];
        }
      }
      AwaitFindsOwnReply(frames[1..], id, name, budget - 1, k - 1);
      assert frames[1..][k..] == frames[k + 1..];
    }
  }

  /**
    When no message with the call's id is among the frames that fit in the
    budget, the call fails with TimeoutError. It never returns another
    command's reply.
   */
  lemma {:induction false} AwaitTimesOut(frames: seq<Frame>, id: int, name: string, budget: nat)
    requires forall j :: 0 <= j < |frames| && j < budget ==> !Answers(frames[j], id)
    ensures Await(frames, id, name, budget).0 == Err(TimeoutError(TimeoutMessage(name)))
    decreases budget
  {
    if budget > 0 && frames != [] && !frames[0].TimedOut? {
      assert !Answers(frames[0], id);
      assert forall j :: 0 <= j < |frames[1..]| && j < budget - 1 ==> !Answers(frames[1..][j], id) by {
        forall j | 0 <= j < |frames[1..]| && j < budget - 1 ensures !Answers(frames[1..][j], id) {
          assert frames[1..][j] == frames[j + 1];
        }
      }
      AwaitTimesOut(frames[1..], id, name, budget - 1);
    }
  }

  /** A receive timeout ends the wait at once: frames behind it are never read. */
  lemma AwaitStopsAtReceiveTimeout(rest: seq<Frame>, id: int, name: string, budget: nat)
    requires budget > 0
    ensures Await([TimedOut] + rest, id, name, budget) == (Err(TimeoutError(TimeoutMessage(name))), rest)
  {
    assert ([TimedOut] + rest)[1..] == rest;
  }

  /**
    A stale reply (another command's id) in front of the frames costs one
    receive attempt and changes nothing else about the outcome.
   */
  lemma AwaitSkipsStaleReply(other: int, hasError: bool, res: Option<Json>, rest: seq<Frame>, id: int, name: string, budget: nat)
    requires other != id
    ensures Await([Msg(Some(other), hasError, res)] + rest, id, name, budget + 1) == Await(rest, id, name, budget)
  {
    assert ([Msg(Some(other), hasError, res)] + rest)[1..] == rest;
  }

  /** Two events without an id in front of the reply do not make the call return early. */
  lemma NotificationsBeforeReply(n1: Option<Json>, n2: Option<Json>, res: Option<Json>, id: int, name: string)
    ensures Await([Msg(None, false, n1), Msg(None, false, n2), Msg(Some(id), false, res)], id, name, 3).0 == Ok(res)
  {
    var fs := [Msg(None, false, n1), Msg(None, false, n2), Msg(Some(id), false, res)];
    AwaitFindsOwnReply(fs, id, name, 3, 2);
  }

  /** The WebSocket connection of one page target. */
  class Socket {
    /** The `webSocketDebuggerUrl` the connection was opened to. */
    const url: string
    /** Every frame the browser sends on this connection, from the start. */
    ghost const script: seq<Frame>
    /** Frames the browser will deliver, in order. */
    var inbound: seq<Frame>
    /** Commands sent so far, in order. */
    var sent: seq<Command>
    var closed: bool

    /** `create_connection(url)`; `script` is what the browser will send on it. */
    constructor (url: string, script: seq<Frame>)
      ensures this.url == url && this.script == script && inbound == script && sent == [] && !closed
    {
      this.url := url;
      this.script := script;
      inbound := script;
      sent := [];
      closed := false;
    }

    /** `ws.send(json.dumps(cmd))` */
    method Send(cmd: Command)
      modifies this`sent
      ensures sent == old(sent) + [cmd]
    {
      sent := sent + [cmd];
    }

    /** `ws.recv()`: the next frame, or a receive timeout when none is left. */
    method Recv() returns (f: Frame)
      modifies this`inbound
      ensures (f, inbound) == Next(old(inbound))
    {
      if inbound == [] {
        f := TimedOut;
      } else {
        f := inbound[0];
        inbound := inbound[1..];
      }
    }

    /** `ws.close()`; closing twice is harmless. */
    method Close()
      modifies this`closed
      ensures closed
    {
      closed := true;
    }
  }

  /** The ids 1001, 1002, ..., n that a counter starting at 1000 hands out on its way to n. */
  function IdsThrough(n: int): (ids: seq<int>)
    ensures |ids| == if n <= 1000 then 0 else n - 1000
    decreases n - 1000
  {
    if n <= 1000 then [] else IdsThrough(n - 1) + [n]
  }

  /** Every id handed out lies above the start value and at most at the counter. */
  lemma {:induction false} IdsThroughBounds(n: int)
    ensures forall x :: x in IdsThrough(n) ==> 1000 < x <= n
    decreases n - 1000
  {
    if n > 1000 {
      IdsThroughBounds(n - 1);
    }
  }

  /** The ids are handed out in strictly increasing order, so none is handed out twice. */
  lemma {:induction false} IdsThroughAscending(n: int)
    ensures forall i, j :: 0 <= i < j < |IdsThrough(n)| ==> IdsThrough(n)[i] < IdsThrough(n)[j]
    decreases n - 1000
  {
    if n > 1000 {
      IdsThroughAscending(n - 1);
      IdsThroughBounds(n - 1);
      var ids := IdsThrough(n);
      forall i, j | 0 <= i < j < |ids|
        ensures ids[i] < ids[j]
      {
        assert ids[i] == IdsThrough(n - 1)[i];
        if j == |ids| - 1 {
          assert ids[i] in IdsThrough(n - 1);
        } else {
          assert ids[j] == IdsThrough(n - 1)[j];
        }
      }
    }
  }

  /**
    The module-wide id counter `_cdp_msg_id` and the calls that draw from it.
    `issued` records every id handed out so far.
   */
  class Correlator {
    var lastId: int
    ghost var issued: seq<int>

    /** The ids handed out are exactly those from the start value up to the counter. */
    ghost predicate Valid()
      reads this
    {
      lastId >= 1000 && issued == IdsThrough(lastId)
    }

    /** `_cdp_msg_id = 1000` */
    constructor ()
      ensures Valid() && lastId == 1000 && issued == []
    {
      lastId := 1000;
      issued := [];
    }

    /**
      `_cdp_call(ws, name, params)`: allocate the next id, send the command,
      then read frames until the reply with that id arrives, a receive times
      out, or the budget is spent.
     */
    method Call(ws: Socket, name: string, params: Json, budget: nat) returns (r: Result<Option<Json>>)
      requires Valid()
      modifies this, ws
      ensures Valid()
      ensures lastId == old(lastId) + 1 && issued == old(issued) + [lastId]
      ensures lastId !in old(issued)
      ensures ws.sent == old(ws.sent) + [Command(lastId, name, ParamsOrEmpty(params))]
      ensures ws.closed == old(ws.closed)
      ensures (r, ws.inbound) == Await(old(ws.inbound), lastId, name, budget)
    {
      IdsThroughBounds(lastId);
      lastId := lastId + 1;
      issued := issued + [lastId];
      var msgId := lastId;
      ws.Send(Command(msgId, name, ParamsOrEmpty(params)));

      var left: nat := budget;
      while left > 0
        invariant left <= budget
        invariant lastId == msgId && issued == old(issued) + [msgId]
        invariant Await(old(ws.inbound), msgId, name, budget) == Await(ws.inbound, msgId, name, left)
        invariant ws.sent == old(ws.sent) + [Command(msgId, name, ParamsOrEmpty(params))]
        invariant ws.closed == old(ws.closed)
        invariant Valid()
        decreases left
      {
        ghost var before := ws.inbound;
        left := left - 1;
        var f := ws.Recv();
        assert (f, ws.inbound) == Next(before);
        match f {
          case TimedOut =>
            // the receive timeout breaks out of the loop; the TimeoutError follows
            r := Err(TimeoutError(TimeoutMessage(name)));
            return;
          case Empty =>
            assert Await(before, msgId, name, left + 1) == Await(ws.inbound, msgId, name, left);
          case Msg(mid, hasError, res) =>
            if mid != Some(msgId) {
              assert Await(before, msgId, name, left + 1) == Await(ws.inbound, msgId, name, left);
            } else {
              if hasError {
                r := Err(RuntimeError(RemoteErrorMessage(name)));
              } else {
                r := Ok(res);
              }
              return;
            }
        }
      }
      r := Err(TimeoutError(TimeoutMessage(name)));
    }
  }
}

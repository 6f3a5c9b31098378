/** The attach and exec relay: `Stream.parse_error_channel`, the two `_proxy_ws` tasks sharing
    `_closing`, and `Stream.copy`, which waits for one of them and cancels the other. */
module Relay {
  import opened Wrappers
  import opened Python
  import opened Json
  import opened Digests

  datatype Exn = Cancelled | IndexError | AssertionError | UnicodeError | AttributeError | TypeError | BadValue | Io

  /** The library code around the relay: json, `bytes.decode()` and `int()` of a string, None where they raise. */
  datatype Codec = Codec(lib: Lib, decode: Bytes -> Option<string>, toInt: string -> Option<int>)

  // ---------------------------------------------------------------- the error channel

  /** What a `for` loop over a value visits; None when it is not iterable. */
  function Iterate(j: Json): Option<seq<Json>> {
    match j
    case Arr(items) => Some(items)
    case Obj(fields) => Some(seq(|fields|, i requires 0 <= i < |fields| => Str(fields[i].0)))
    case Str(s) => Some(seq(|s|, i requires 0 <= i < |s| => Str([s[i]])))
    case _ => None
  }

  predicate Truthy(j: Json) {
    match j
    case Null => false
    case Bool(b) => b
    case Num(n) => n != 0
    case Str(s) => |s| > 0
    case Arr(items) => |items| > 0
    case Obj(fields) => |fields| > 0
  }

  function ToInt(c: Codec, j: Json): Result<int, Exn> {
    match j
    case Num(n) => Ok(n)
    case Bool(b) => Ok(if b then 1 else 0)
    case Str(s) => if c.toInt(s).Some? then Ok(c.toInt(s).value) else Err(BadValue)
    case _ => Err(TypeError)
  }

  /** The exit code a cause states, if it is an "ExitCode" cause. */
  function Verdict(c: Codec, cause: Json): Result<Option<int>, Exn> {
    if !cause.Obj? then Err(AttributeError)
    else if Lookup(cause.fields, "reason") != Some(Str("ExitCode")) then Ok(None)
    else
      var message := Lookup(cause.fields, "message");
      match ToInt(c, if message.Some? then message.value else Num(1))
      case Ok(n) => Ok(Some(n))
      case Err(e) => Err(e)
  }

  /** The exit code of a failure with these causes. */
  function ExitCode(c: Codec, causes: seq<Json>): Result<int, Exn> {
    if |causes| == 0 then Ok(1)
    else
      var before := ExitCode(c, causes[..|causes| - 1]);
      if before.Err? then before
      else
        match Verdict(c, causes[|causes| - 1])
        case Err(e) => Err(e)
        case Ok(None) => before
        case Ok(Some(n)) => Ok(n)
  }

  /** The causes of a failed status. */
  function Causes(fields: Fields): Result<seq<Json>, Exn> {
    var details := Lookup(fields, "details");
    if details.None? then Ok([])
    else if !details.value.Obj? then Err(AttributeError)
    else
      var causes := Lookup(details.value.fields, "causes");
      if causes.None? then Ok([])
      else if Iterate(causes.value).None? then Err(TypeError)
      else Ok(Iterate(causes.value).value)
  }

  function Failure(c: Codec, fields: Fields): Result<Fields, Exn> {
    match Causes(fields)
    case Err(e) => Err(e)
    case Ok(causes) =>
      match ExitCode(c, causes)
      case Err(e) => Err(e)
      case Ok(n) =>
        var message := Lookup(fields, "message");
        Ok([("exit_code", Num(n))] + if message.Some? && Truthy(message.value) then [("message",
                                                                                      message.value)] else [])
  }

  /** What an error-channel message is rewritten to. */
  function ErrorStatus(c: Codec, channel: Bytes): Result<Fields, Exn> {
    if |channel| == 0 then Err(IndexError)
    else if channel[0] != 3 then Err(AssertionError)
    else
      var data := channel[1..];
      match c.lib.loads(data)
      case None =>
        if c.decode(data).Some? then Ok([("exit_code", Num(1)), ("message", Str(c.decode(data).value))])
        else Err(UnicodeError)
      case Some(payload) =>
        if !payload.Obj? then Err(AttributeError)
        else
          var status := Lookup(payload.fields, "status");
          if status.Some? && !status.value.Str? then Err(AttributeError)
          else if c.lib.lower(if status.Some? then status.value.s else "success") == "success" then Ok([("exit_code",
                                                                                                         Num(0))])
          else Failure(c, payload.fields)
  }

  /** `Stream.parse_error_channel`. What it raises after the parse is not caught by its own `try`. */
  method ParseErrorChannel(c: Codec, channel: Bytes) returns (r: Result<Fields, Exn>)
    ensures r == ErrorStatus(c, channel)
  {
    if |channel| == 0 {
      return Err(IndexError);
    }
    if channel[0] != 3 {
      return Err(AssertionError);
    }
    var data := channel[1..];
    var payload := c.lib.loads(data);
    if payload.None? {
      var message := c.decode(data);
      return if message.Some? then Ok([("exit_code", Num(1)), ("message", Str(message.value))]) else Err(UnicodeError);
    }
    if !payload.value.Obj? {
      return Err(AttributeError);
    }
    var fields := payload.value.fields;
    var status := Lookup(fields, "status");
    if status.Some? && !status.value.Str? {
      return Err(AttributeError);
    }
    if c.lib.lower(if status.Some? then status.value.s else "success") == "success" {
      return Ok([("exit_code", Num(0))]);
    }
    r := ParseFailure(c, fields);
  }

  method ParseFailure(c: Codec, fields: Fields) returns (r: Result<Fields, Exn>)
    ensures r == Failure(c, fields)
  {
    var exitCode := 1;
    var found := Causes(fields);
    if found.Err? {
      return Err(found.error);
    }
    var causes := found.value;
    for i := 0 to |causes|
      invariant ExitCode(c, causes[..i]) == Ok(exitCode)
    {
      var verdict := Verdict(c, causes[i]);
      assert causes[..i + 1][..i] == causes[..i];
      if verdict.Err? {
        ErrorStays(c, causes, i + 1);
        return Err(verdict.error);
      }
      if verdict.value.Some? {
        exitCode := verdict.value.value;
      }
    }
    assert causes[..|causes|] == causes;
    var message := Lookup(fields, "message");
    var result := [("exit_code", Num(exitCode))];
    if message.Some? && Truthy(message.value) {
      result := result + [("message", message.value)];
    }
    assert [("exit_code", Num(exitCode))] + [] == [("exit_code", Num(exitCode))];
    return Ok(result);
  }

  lemma {:induction false} ErrorStays(c: Codec, causes: seq<Json>, i: nat)
    requires i <= |causes| && ExitCode(c, causes[..i]).Err?
    ensures ExitCode(c, causes) == ExitCode(c, causes[..i])
    decreases |causes| - i
  {
    if i == |causes| {
      assert causes[..i] == causes;
    } else {
      assert causes[..i + 1][..i] == causes[..i];
      ErrorStays(c, causes, i + 1);
    }
  }

  predicate StatesCode(c: Codec, cause: Json) {
    Verdict(c, cause).Ok? && Verdict(c, cause).value.Some?
  }

  /** Cause `i` states code `n`, and no later cause states any. */
  predicate LastToState(c: Codec, causes: seq<Json>, i: nat, n: int) {
    && i < |causes|
    && Verdict(c, causes[i]) == Ok(Some(n))
    && forall j | i < j < |causes| :: !StatesCode(c, causes[j])
  }

  /** An exit code comes out exactly when every cause can be read, and is the one stated by the last
      "ExitCode" cause, or 1 when no cause is one. */
  lemma {:induction false} LastCauseWins(c: Codec, causes: seq<Json>, n: int)
    ensures ExitCode(c, causes) == Ok(n) <==>
      && (forall i | 0 <= i < |causes| :: Verdict(c, causes[i]).Ok?)
      && if exists i | 0 <= i < |causes| :: StatesCode(c, causes[i]) then exists i: nat ::
        LastToState(c, causes, i, n) else n == 1
  {
    if |causes| > 0 {
      var k := |causes| - 1;
      var front := causes[..k];
      LastCauseWins(c, front, n);
      assert forall i | 0 <= i < k :: front[i] == causes[i];
      assert ExitCode(c, front).Ok? <==> forall i | 0 <= i < k :: Verdict(c, front[i]).Ok? by {
        ReadableIffOk(c, front);
      }
      if Verdict(c, causes[k]).Ok? && !StatesCode(c, causes[k]) {
        if i: nat :| LastToState(c, front, i, n) {
          assert LastToState(c, causes, i, n);
        }
        if i: nat :| LastToState(c, causes, i, n) {
          assert LastToState(c, front, i, n);
        }
        if i :| 0 <= i < |causes| && StatesCode(c, causes[i]) {
          assert StatesCode(c, front[i]);
        }
        if i :| 0 <= i < |front| && StatesCode(c, front[i]) {
          assert StatesCode(c, causes[i]);
        }
      } else if StatesCode(c, causes[k]) {
        assert LastToState(c, causes, k, Verdict(c, causes[k]).value.value);
      }
    }
  }

  lemma {:induction false} ReadableIffOk(c: Codec, causes: seq<Json>)
    ensures ExitCode(c, causes).Ok? <==> forall i | 0 <= i < |causes| :: Verdict(c, causes[i]).Ok?
  {
    if |causes| > 0 {
      var front := causes[..|causes| - 1];
      ReadableIffOk(c, front);
      assert forall i | 0 <= i < |front| :: front[i] == causes[i];
    }
  }

  lemma LookupTwo(a: (string, Json), more: Fields, key: string)
    requires |more| <= 1
    ensures Lookup([a] + more, key) ==
      if a.0 == key then Some(a.1) else if |more| == 1 && more[0].0 == key then Some(more[0].1) else None
  {
    assert ([a] + more)[1..] == more;
    assert |more| == 1 ==> Lookup(more[1..], key) == None;
  }

  /** The status a failure is rewritten to carries the exit code of the last "ExitCode" cause, or 1, and
      the failure's message unless that is falsy; it is lost exactly when some cause cannot be read. */
  lemma FailureStatus(c: Codec, channel: Bytes, fields: Fields, status: string, causes: seq<Json>)
    requires |channel| > 0 && channel[0] == 3 && c.lib.loads(channel[1..]) == Some(Obj(fields))
    requires Lookup(fields, "status") == Some(Str(status)) && c.lib.lower(status) != "success"
    requires Causes(fields) == Ok(causes)
    ensures ErrorStatus(c, channel).Ok? <==> forall i | 0 <= i < |causes| :: Verdict(c, causes[i]).Ok?
    ensures ErrorStatus(c, channel).Ok? ==>
      var code := Lookup(ErrorStatus(c, channel).value, "exit_code");
      && code.Some? && code.value.Num?
      && if exists i | 0 <= i < |causes| :: StatesCode(c, causes[i])
         then exists i: nat :: LastToState(c, causes, i, code.value.n)
         else code.value.n == 1
    ensures ErrorStatus(c, channel).Ok? ==>
      var message := Lookup(fields, "message");
      Lookup(ErrorStatus(c, channel).value,
             "message") == if message.Some? && Truthy(message.value) then message else None
  {
    ReadableIffOk(c, causes);
    if ExitCode(c, causes).Ok? {
      var n := ExitCode(c, causes).value;
      LastCauseWins(c, causes, n);
      var message := Lookup(fields, "message");
      var more := if message.Some? && Truthy(message.value) then [("message", message.value)] else [];
      assert "exit_code"[0] == 'e' && "message"[0] == 'm';
      LookupTwo(("exit_code", Num(n)), more, "exit_code");
      LookupTwo(("exit_code", Num(n)), more, "message");
    }
  }

  /** `cause` states the exit code `n`: it says so, as a number, a bool or a string, or says nothing and means 1. */
  ghost predicate States(c: Codec, cause: Json, n: int) {
    && cause.Obj? && Lookup(cause.fields, "reason") == Some(Str("ExitCode"))
    && var message := Lookup(cause.fields, "message");
      || (message.None? && n == 1)
      || message == Some(Num(n))
      || (message == Some(Bool(true)) && n == 1)
      || (message == Some(Bool(false)) && n == 0)
      || (message.Some? && message.value.Str? && c.toInt(message.value.s) == Some(n))
  }

  /** What a cause says, by its fields: only one whose reason is "ExitCode" states a code. */
  lemma VerdictIs(c: Codec, cause: Json, n: int)
    ensures Verdict(c, cause) == Ok(Some(n)) <==> States(c, cause, n)
    ensures Verdict(c, cause) == Ok(None) <==>
      cause.Obj? && Lookup(cause.fields, "reason") != Some(Str("ExitCode"))
    ensures !cause.Obj? ==> Verdict(c, cause) == Err(AttributeError)
  {
    if cause.Obj? {
      var message := Lookup(cause.fields, "message");
      assert message.Some? && message.value.Bool? ==> message.value == Bool(true) || message.value == Bool(false);
    }
  }

  /** A loop over `j` visits `items`: the elements, the keys or the characters. */
  ghost predicate Visits(j: Json, items: seq<Json>) {
    || j == Arr(items)
    || (j.Obj? && |items| == |j.fields| && forall i | 0 <= i < |items| :: items[i] == Str(j.fields[i].0))
    || (j.Str? && |items| == |j.s| && forall i | 0 <= i < |items| :: items[i] == Str([j.s[i]]))
  }

  /** The causes are those under "details" and "causes", and there are none where either is missing. */
  lemma CausesAre(fields: Fields, causes: seq<Json>)
    ensures Causes(fields) == Ok(causes) <==>
      var details := Lookup(fields, "details");
      || (details.None? && causes == [])
      || (details.Some? && details.value.Obj?
          && var listed := Lookup(details.value.fields, "causes");
            if listed.None? then causes == [] else Visits(listed.value, causes))
  {
    var details := Lookup(fields, "details");
    if details.Some? && details.value.Obj? && Lookup(details.value.fields, "causes").Some? {
      VisitsIs(Lookup(details.value.fields, "causes").value, causes);
    }
  }

  lemma VisitsIs(j: Json, items: seq<Json>)
    ensures Visits(j, items) <==> Iterate(j) == Some(items)
  {
    if Visits(j, items) {
      assert Iterate(j).value == items;
    }
  }

  lemma FalsyIs(j: Json)
    ensures !Truthy(j) <==> j in [Null, Bool(false), Num(0), Str(""), Arr([]), Obj([])]
  {
    assert j.Bool? ==> j == Bool(true) || j == Bool(false);
  }

  /** What needs no causes: a payload that is no JSON is a failure with exit code 1 and its text for a message, and a
      status that is missing or reads "success" is exit code 0. */
  lemma StatusIs(c: Codec, channel: Bytes)
    requires |channel| > 0 && channel[0] == 3 && c.lib.lower("success") == "success"
    ensures var (payload, text) := (c.lib.loads(channel[1..]), c.decode(channel[1..]));
      && (payload.None? && text.Some? ==>
          && ErrorStatus(c, channel).Ok?
          && Lookup(ErrorStatus(c, channel).value, "exit_code") == Some(Num(1))
          && Lookup(ErrorStatus(c, channel).value, "message") == Some(Str(text.value)))
      && (payload.None? && text.None? ==> ErrorStatus(c, channel) == Err(UnicodeError))
      && (payload.Some? && !payload.value.Obj? ==> ErrorStatus(c, channel) == Err(AttributeError))
    ensures forall fields | c.lib.loads(channel[1..]) == Some(Obj(fields)) ::
      var status := Lookup(fields, "status");
      && (status.None? ==> ErrorStatus(c, channel) == Ok([("exit_code", Num(0))]))
      && (status.Some? && !status.value.Str? ==> ErrorStatus(c, channel) == Err(AttributeError))
      && (status.Some? && status.value.Str? && c.lib.lower(status.value.s) == "success" ==>
          ErrorStatus(c, channel) == Ok([("exit_code", Num(0))]))
  {
    hide Failure;
    assert "exit_code"[0] == 'e' && "message"[0] == 'm';
    var text := c.decode(channel[1..]);
    if text.Some? {
      var message := [("message", Str(text.value))];
      assert [("exit_code", Num(1)), ("message", Str(text.value))] == [("exit_code", Num(1))] + message;
      LookupTwo(("exit_code", Num(1)), message, "exit_code");
      LookupTwo(("exit_code", Num(1)), message, "message");
    }
  }

  // ---------------------------------------------------------------- one relayed message

  /** What a binary message is forwarded as. */
  function Rewritten(c: Codec, data: Bytes): Result<Bytes, Exn> {
    if |data| == 0 then Err(IndexError)
    else if data[0] != 3 then Ok(data)
    else
      match ErrorStatus(c, data)
      case Err(e) => Err(e)
      case Ok(fields) => Ok([3] + c.lib.dumps(Obj(fields)))
  }

  /** Forwarding `data` sends `out`: the message itself, unless it is of the error channel; then its status, printed. */
  ghost predicate Relays(c: Codec, data: Bytes, out: Bytes) {
    && |data| > 0
    && (data[0] != 3 ==> out == data)
    && (data[0] == 3 ==> ErrorStatus(c, data).Ok? && out == [3] + c.lib.dumps(Obj(ErrorStatus(c, data).value)))
  }

  lemma RewrittenIs(c: Codec, data: Bytes, out: Bytes)
    ensures Rewritten(c, data) == Ok(out) <==> Relays(c, data, out)
  {
  }

  lemma StatusWellKeyed(c: Codec, channel: Bytes)
    requires c.lib.Valid() && ErrorStatus(c, channel).Ok?
    ensures WellKeyed(Obj(ErrorStatus(c, channel).value))
  {
    var f := ErrorStatus(c, channel).value;
    assert "exit_code"[0] == 'e' && "message"[0] == 'm';
    var payload := c.lib.loads(channel[1..]);
    if payload.Some? {
      LookupWellKeyed(payload.value.fields, "message");
    }
    forall i | 0 <= i < |f|
      ensures WellKeyed(f[i].1)
    {
    }
  }

  /** The reader of a forwarded error-channel message parses exactly the status it was rewritten to. */
  lemma ReaderParsesStatus(c: Codec, data: Bytes)
    requires c.lib.Valid() && |data| > 0 && data[0] == 3 && Rewritten(c, data).Ok?
    ensures var sent := Rewritten(c, data).value;
      |sent| > 0 && sent[0] == 3 && c.lib.loads(sent[1..]) == Some(Obj(ErrorStatus(c, data).value))
  {
    StatusWellKeyed(c, data);
    var dump := c.lib.dumps(Obj(ErrorStatus(c, data).value));
    assert ([3] + dump)[1..] == dump;
  }

  /** The rewriting is not idempotent: a rewritten status has no "status" key, so rewriting it
      once more turns every failure into a success. */
  lemma RewritingTwiceForgets(c: Codec, data: Bytes)
    requires c.lib.Valid() && c.lib.lower("success") == "success"
    requires |data| > 0 && data[0] == 3 && Rewritten(c, data).Ok?
    ensures ErrorStatus(c, Rewritten(c, data).value) == Ok([("exit_code", Num(0))])
  {
    ReaderParsesStatus(c, data);
    var f := ErrorStatus(c, data).value;
    assert "exit_code"[0] == 'e' && "message"[0] == 'm' && "status"[0] == 's';
    assert f[0].0 == "exit_code" && |f| <= 2 && (|f| == 2 ==> f[1].0 == "message");
    assert |f| == 2 ==> f[1..][0] == f[1] && f[1..][1..] == [];
    assert Lookup(f[1..], "status") == None;
    assert Lookup(f, "status") == None;
  }

  // ---------------------------------------------------------------- the tasks

  datatype Message = Binary(data: Bytes) | ErrorMessage | Unsupported

  /** How a `_proxy_ws` task ended. One cancelled before its first step never ran, so that its
      `finally` did not run either. */
  datatype How = Finished | Failed(exn: Exn) | NeverRan

  datatype At = Scheduled | Receiving | Sending(data: Bytes) | Ended(how: How)

  /** A task: where it is suspended, everything it read from its source and sent to its
      destination, and whether `copy` cancelled it. */
  datatype Task = Task(at: At, received: seq<Message>, sent: seq<Bytes>, cancelled: bool)

  /** What a suspended task is resumed with: a message, the end of the messages, a completed send, or
      an exception. An interrupted send may have gone out or not. */
  datatype Wake = Got(message: Message) | Exhausted | Flushed | Threw(exn: Exn, delivered: bool)

  function Forward(c: Codec, t: Task, message: Message): Task {
    match message
    case Binary(data) =>
      (match Rewritten(c, data)
       case Ok(d) => t.(at := Sending(d))
       case Err(e) => t.(at := Ended(Failed(e))))
    case ErrorMessage => t
    case Unsupported => t.(at := Ended(Failed(BadValue)))
  }

  /** A task's run from one suspension to the next. */
  function Woken(c: Codec, closing: bool, t: Task, w: Wake): Task {
    match t.at
    case Scheduled => t.(at := if t.cancelled then Ended(NeverRan) else Receiving)
    case Receiving =>
      (match w
       case Got(m) =>
         var read := t.(received := t.received + [m]);
         if closing then read.(at := Ended(Finished)) else Forward(c, read, m)
       case Exhausted => t.(at := Ended(Finished))
       case Threw(e, _) => t.(at := Ended(Failed(e)))
       case Flushed => t)
    case Sending(d) =>
      (match w
       case Flushed => t.(at := Receiving, sent := t.sent + [d])
       case Threw(e, delivered) => t.(at := Ended(Failed(e)), sent := t.sent + if delivered then [d] else [])
       case _ => t)
    case Ended(_) => t
  }

  /** Ended after having run, and so through the `finally`. */
  predicate Ran(t: Task) {
    t.at.Ended? && t.at.how != NeverRan
  }

  // ---------------------------------------------------------------- copy

  /** An exception on its way out of `copy`. */
  datatype Reason = Interrupted | CloseFailed(exn: Exn) | TaskFailed(i: nat, exn: Exn)

  /** Where `copy` is suspended: waiting for a first task, closing the client's side, awaiting a task it
      cancelled, or leaving the connection; or that it is gone, and what closing the connection raised. */
  datatype CopyAt =
    | Waiting
    | Closing(pending: Option<Reason>)
    | Awaiting(i: nat, pending: Option<Reason>)
    | Leaving(pending: Option<Reason>)
    | Gone(pending: Option<Reason>, leaving: Option<Exn>)

  /** A relay: the flag, the two tasks and `copy`; and what befell `copy` so far: whether it was cancelled while it
      waited, and whether closing the client's side raised. */
  datatype Connection = Connection(closing: bool, tasks: seq<Task>, copy: CopyAt, interrupted: bool, closeRaised: bool)

  function Start(): Connection {
    Connection(false, [Task(Scheduled, [], [], false), Task(Scheduled, [], [], false)], Waiting, false, false)
  }

  /** The loop over the tasks, from task `i` to its next await or its end. */
  function Sweep(tasks: seq<Task>, i: nat, pending: Option<Reason>): (seq<Task>, CopyAt)
    decreases |tasks| - i
  {
    if i >= |tasks| then (tasks, Leaving(pending))
    else if tasks[i].at.Ended? then Sweep(tasks, i + 1, pending)
    else (tasks[i := tasks[i].(cancelled := true)], Awaiting(i, pending))
  }

  function Swept(s: Connection, i: nat, pending: Option<Reason>): Connection {
    var (tasks, at) := Sweep(s.tasks, i, pending);
    s.(tasks := tasks, copy := at)
  }

  /** What awaiting an ended task raises past `suppress(CancelledError)`. */
  function Surfaced(t: Task): Option<Exn> {
    if t.at.Ended? && t.at.how.Failed? && t.at.how.exn != Cancelled then Some(t.at.how.exn) else None
  }

  /** The run of `copy` from one suspension to the next; `raised` is what its await raises. Cancelling it
      while it awaits a task goes to that task, or is suppressed. */
  function CopyWoken(s: Connection, raised: Option<Exn>): Connection {
    match s.copy
    case Waiting =>
      if raised == Some(Cancelled) then s.(copy := Closing(Some(Interrupted)), interrupted := true)
      else if exists k | 0 <= k < |s.tasks| :: s.tasks[k].at.Ended? then s.(copy := Closing(None))
      else s
    case Closing(p) =>
      if raised.Some? then s.(copy := Leaving(Some(CloseFailed(raised.value))), closeRaised := true)
      else Swept(s, 0, p)
    case Awaiting(i, p) =>
      if i >= |s.tasks| || !s.tasks[i].at.Ended? then s
      else if raised != Some(Cancelled) && Surfaced(s.tasks[i]).Some?
      then s.(copy := Leaving(Some(TaskFailed(i, Surfaced(s.tasks[i]).value))))
      else Swept(s, i + 1, p)
    case Leaving(p) => s.(copy := Gone(p, raised))
    case Gone(_, _) => s
  }

  function ProxyWoken(c: Codec, s: Connection, k: nat, w: Wake): Connection
    requires k < |s.tasks|
  {
    var t := Woken(c, s.closing, s.tasks[k], w);
    s.(tasks := s.tasks[k := t], closing := s.closing || Ran(t))
  }

  /** A `Stream` while it is copying. */
  class Stream {
    const codec: Codec
    var closing: bool
    var tasks: seq<Task>
    var copyAt: CopyAt
    ghost var interrupted: bool
    ghost var closeRaised: bool

    ghost function State(): Connection
      reads this
    {
      Connection(closing, tasks, copyAt, interrupted, closeRaised)
    }

    constructor (codec: Codec)
      ensures State() == Start() && this.codec == codec
    {
      this.codec := codec;
      closing := false;
      tasks := [Task(Scheduled, [], [], false), Task(Scheduled, [], [], false)];
      copyAt := Waiting;
      interrupted := false;
      closeRaised := false;
    }

    /** `_proxy_ws` as task `k`, from one suspension to the next. */
    method ProxyWs(k: nat, w: Wake)
      requires k < |tasks|
      modifies this
      ensures State() == ProxyWoken(codec, old(State()), k, w)
    {
      var t := tasks[k];
      match t.at {
        case Scheduled =>
          t := t.(at := if t.cancelled then Ended(NeverRan) else Receiving);
        case Receiving =>
          match w {
            case Got(m) =>
              t := t.(received := t.received + [m]);
              if closing {
                t := t.(at := Ended(Finished));
              } else {
                t := Relayed(t, m);
              }
            case Exhausted => t := t.(at := Ended(Finished));
            case Threw(e, _) => t := t.(at := Ended(Failed(e)));
            case Flushed =>
          }
        case Sending(d) =>
          assert t.sent + [] == t.sent;
          if w.Flushed? || (w.Threw? && w.delivered) {
            t := t.(sent := t.sent + [d]);
          }
          if w.Flushed? {
            t := t.(at := Receiving);
          } else if w.Threw? {
            t := t.(at := Ended(Failed(w.exn)));
          }
        case Ended(_) =>
      }
      if Ran(t) {
        closing := true;
      }
      tasks := tasks[k := t];
    }

    /** The body of the loop, up to the send. */
    method Relayed(t: Task, message: Message) returns (u: Task)
      ensures u == Forward(codec, t, message)
    {
      match message {
        case ErrorMessage => return t;
        case Unsupported => return t.(at := Ended(Failed(BadValue)));
        case Binary(received) =>
          var data := received;
          if |data| == 0 {
            return t.(at := Ended(Failed(IndexError)));
          }
          if data[0] == 3 {
            var status := ParseErrorChannel(codec, data);
            if status.Err? {
              return t.(at := Ended(Failed(status.error)));
            }
            data := [3] + codec.lib.dumps(Obj(status.value));
          }
          return t.(at := Sending(data));
      }
    }

    /** `copy`, from one suspension to the next. */
    method Copy(raised: Option<Exn>)
      modifies this
      ensures State() == CopyWoken(old(State()), raised)
    {
      match copyAt {
        case Waiting =>
          if raised == Some(Cancelled) {
            copyAt := Closing(Some(Interrupted));
            interrupted := true;
          } else if exists k | 0 <= k < |tasks| :: tasks[k].at.Ended? {
            copyAt := Closing(None);
          }
        case Closing(p) =>
          if raised.Some? {
            copyAt := Leaving(Some(CloseFailed(raised.value)));
            closeRaised := true;
          } else {
            CancelRest(0, p);
          }
        case Awaiting(i, p) =>
          if i < |tasks| && tasks[i].at.Ended? {
            var e := Surfaced(tasks[i]);
            if raised != Some(Cancelled) && e.Some? {
              copyAt := Leaving(Some(TaskFailed(i, e.value)));
            } else {
              CancelRest(i + 1, p);
            }
          }
        case Leaving(p) =>
          copyAt := Gone(p, raised);
        case Gone(_, _) =>
      }
    }

    /** The loop that cancels whatever is not done, up to its next await. */
    method CancelRest(from: nat, pending: Option<Reason>)
      modifies this
      ensures State() == Swept(old(State()), from, pending)
    {
      var i := from;
      while i < |tasks|
        invariant State() == old(State())
        invariant Sweep(tasks, i, pending) == Sweep(tasks, from, pending)
        decreases |tasks| - i
      {
        if !tasks[i].at.Ended? {
          tasks := tasks[i := tasks[i].(cancelled := true)];
          copyAt := Awaiting(i, pending);
          return;
        }
        i := i + 1;
      }
      copyAt := Leaving(pending);
    }

    /** A whole interleaving. */
    method Play(moves: seq<Move>)
      modifies this
      ensures State() == Run(codec, old(State()), moves)
    {
      for i := 0 to |moves|
        invariant State() == Run(codec, old(State()), moves[..i])
      {
        ghost var before := State();
        match moves[i] {
          case Proxy(k, w) =>
            if k < |tasks| {
              ProxyWs(k, w);
            }
          case Copy(raised) => Copy(raised);
        }
        assert moves[..i + 1] == moves[..i] + [moves[i]];
        RunThen(codec, old(State()), moves[..i], moves[i]);
      }
      assert moves[..|moves|] == moves;
    }
  }

  // ---------------------------------------------------------------- runs

  datatype Move = Proxy(k: nat, w: Wake) | Copy(raised: Option<Exn>)

  function Next(c: Codec, s: Connection, move: Move): Connection {
    match move
    case Proxy(k, w) => if k < |s.tasks| then ProxyWoken(c, s, k, w) else s
    case Copy(raised) => CopyWoken(s, raised)
  }

  function Run(c: Codec, s: Connection, moves: seq<Move>): Connection
    decreases |moves|
  {
    if |moves| == 0 then s else Run(c, Next(c, s, moves[0]), moves[1..])
  }

  lemma {:induction false} RunThen(c: Codec, s: Connection, moves: seq<Move>, move: Move)
    ensures Run(c, s, moves + [move]) == Next(c, Run(c, s, moves), move)
    decreases |moves|
  {
    if |moves| == 0 {
      assert [] + [move] == [move] && [move][1..] == [];
    } else {
      assert (moves + [move])[1..] == moves[1..] + [move];
      RunThen(c, Next(c, s, moves[0]), moves[1..], move);
    }
  }

  /** The binary messages among those received. */
  function Binaries(received: seq<Message>): seq<Bytes> {
    if |received| == 0 then []
    else
      var last := received[|received| - 1];
      Binaries(received[..|received| - 1]) + if last.Binary? then [last.data] else []
  }

  lemma NothingRead()
    ensures Binaries([]) == []
  {
  }

  lemma BinariesAppend(received: seq<Message>, m: Message)
    ensures Binaries(received + [m]) == Binaries(received) + if m.Binary? then [m.data] else []
  {
    assert (received + [m])[..|received|] == received;
  }

  /** What was sent is, message by message, what the first binary messages received are forwarded as. */
  ghost predicate InOrder(c: Codec, binaries: seq<Bytes>, sent: seq<Bytes>) {
    && |sent| <= |binaries| <= |sent| + 1
    && forall i | 0 <= i < |sent| :: Relays(c, binaries[i], sent[i])
  }

  ghost predicate TaskInv(c: Codec, t: Task) {
    var binaries := Binaries(t.received);
    && InOrder(c, binaries, t.sent)
    && (t.at.Scheduled? || t.at == Ended(NeverRan) ==> t.received == [] && t.sent == [])
    && (t.at == Ended(NeverRan) ==> t.cancelled)
    && (t.at.Receiving? ==> |t.sent| == |binaries|)
    && (t.at.Sending? ==> |binaries| == |t.sent| + 1 && Relays(c, binaries[|t.sent|], t.at.data))
  }

  predicate BothEnded(s: Connection) {
    |s.tasks| == 2 && s.tasks[0].at.Ended? && s.tasks[1].at.Ended?
  }

  predicate OneEnded(s: Connection) {
    |s.tasks| == 2 && (s.tasks[0].at.Ended? || s.tasks[1].at.Ended?)
  }

  /** An exception on its way out, and what it says about the tasks. */
  ghost predicate PendingInv(s: Connection, pending: Option<Reason>)
    requires |s.tasks| == 2
  {
    && (s.closeRaised <==> pending.Some? && pending.value.CloseFailed?)
    && (pending == Some(Interrupted) ==> s.interrupted)
    && if pending.None? || pending.value.Interrupted? then BothEnded(s)
       else if pending.value.CloseFailed? then !s.tasks[0].cancelled && !s.tasks[1].cancelled
       else
         && pending.value.i < 2
         && s.tasks[pending.value.i].cancelled
         && Surfaced(s.tasks[pending.value.i]) == Some(pending.value.exn)
         && s.tasks[0].at.Ended?
         && ((s.interrupted && pending.value.i == 0) || s.tasks[1].at.Ended?)
  }

  /** What is pending while `copy` still loops was raised by its cancellation. */
  predicate Early(pending: Option<Reason>) {
    pending.None? || pending.value.Interrupted?
  }

  ghost predicate CopyInv(s: Connection)
    requires |s.tasks| == 2
  {
    && (s.copy.Waiting? || s.copy.Closing? ==> !s.tasks[0].cancelled && !s.tasks[1].cancelled)
    && (s.copy.Waiting? || s.copy.Closing? || s.copy.Awaiting? ==> !s.closeRaised)
    && (!s.copy.Waiting? && !s.interrupted ==> OneEnded(s))
    && (s.copy.Closing? || s.copy.Awaiting? ==> s.copy.pending == Some(Interrupted) ==> s.interrupted)
    && (s.copy.Closing? ==> Early(s.copy.pending))
    && (s.copy.Awaiting? ==>
        && s.copy.i < 2 && Early(s.copy.pending) && s.tasks[s.copy.i].cancelled
        && (s.copy.i == 0 && !s.interrupted ==> s.tasks[1].at.Ended?)
        && (s.copy.i == 1 ==> s.tasks[0].at.Ended?))
    && (s.copy.Leaving? || s.copy.Gone? ==> PendingInv(s, s.copy.pending))
  }

  ghost predicate Inv(c: Codec, s: Connection) {
    && |s.tasks| == 2
    && TaskInv(c, s.tasks[0])
    && TaskInv(c, s.tasks[1])
    && (s.closing <==> Ran(s.tasks[0]) || Ran(s.tasks[1]))
    && CopyInv(s)
  }

  lemma WokenKeepsInv(c: Codec, closing: bool, t: Task, w: Wake)
    requires TaskInv(c, t)
    ensures var u := Woken(c, closing, t, w);
      && TaskInv(c, u)
      && u.cancelled == t.cancelled
      && (t.at.Ended? ==> u == t)
  {
    hide Rewritten, Relays, Binaries;
    NothingRead();
    if t.at.Receiving? && w.Got? {
      BinariesAppend(t.received, w.message);
      if w.message.Binary? && Rewritten(c, w.message.data).Ok? {
        RewrittenIs(c, w.message.data, Rewritten(c, w.message.data).value);
      }
    }
  }

  lemma ProxyKeepsInv(c: Codec, s: Connection, k: nat, w: Wake)
    requires Inv(c, s) && k < 2
    ensures Inv(c, ProxyWoken(c, s, k, w))
  {
    hide Woken, TaskInv;
    WokenKeepsInv(c, s.closing, s.tasks[k], w);
  }

  lemma SweepKeepsInv(c: Codec, s: Connection, i: nat, pending: Option<Reason>)
    requires |s.tasks| == 2 && i <= 2 && Early(pending)
    requires TaskInv(c, s.tasks[0]) && TaskInv(c, s.tasks[1])
    requires s.closing <==> Ran(s.tasks[0]) || Ran(s.tasks[1])
    requires forall j | 0 <= j < i :: s.tasks[j].at.Ended?
    requires !s.closeRaised && (s.interrupted || OneEnded(s)) && (pending == Some(Interrupted) ==> s.interrupted)
    ensures Inv(c, Swept(s, i, pending))
    decreases 2 - i
  {
    hide InOrder;
    if i < 2 && s.tasks[i].at.Ended? {
      SweepKeepsInv(c, s, i + 1, pending);
    }
  }

  lemma CopyKeepsInv(c: Codec, s: Connection, raised: Option<Exn>)
    requires Inv(c, s)
    ensures Inv(c, CopyWoken(s, raised))
  {
    hide TaskInv, Sweep;
    match s.copy
    case Closing(p) =>
      SweepKeepsInv(c, s, 0, p);
    case Awaiting(i, p) =>
      if s.tasks[i].at.Ended? {
        SweepKeepsInv(c, s, i + 1, p);
      }
    case _ =>
  }

  lemma NextKeepsInv(c: Codec, s: Connection, move: Move)
    requires Inv(c, s)
    ensures Inv(c, Next(c, s, move))
  {
    hide TaskInv, CopyInv, ProxyWoken, CopyWoken;
    match move
    case Proxy(k, w) =>
      if k < 2 {
        ProxyKeepsInv(c, s, k, w);
      }
    case Copy(raised) => CopyKeepsInv(c, s, raised);
  }

  lemma {:induction false} RunKeepsInv(c: Codec, s: Connection, moves: seq<Move>)
    requires Inv(c, s)
    ensures Inv(c, Run(c, s, moves))
    decreases |moves|
  {
    if |moves| > 0 {
      NextKeepsInv(c, s, moves[0]);
      RunKeepsInv(c, Next(c, s, moves[0]), moves[1..]);
    }
  }

  /** Every interleaving of the two tasks and `copy`, with any cancellation, keeps the invariant. */
  lemma Reachable(c: Codec, moves: seq<Move>)
    ensures Inv(c, Run(c, Start(), moves))
  {
    RunKeepsInv(c, Start(), moves);
  }

  /** What each peer was sent is, in order, all the binary messages read from the other peer but possibly the last:
      each is byte for byte the one read, or, on the error channel, byte 3 and the printed status of the one read.
      The flag is set exactly when a task that ran has ended. */
  lemma ForwardsInOrder(c: Codec, moves: seq<Move>, k: nat)
    requires k < 2
    ensures var s := Run(c, Start(), moves);
      && |s.tasks| == 2
      && (s.closing <==> Ran(s.tasks[0]) || Ran(s.tasks[1]))
      && (s.tasks[k].at.Receiving? ==> |s.tasks[k].sent| == |Binaries(s.tasks[k].received)|)
    ensures var s := Run(c, Start(), moves);
      var (read, sent) := (Binaries(s.tasks[k].received), s.tasks[k].sent);
      && |sent| <= |read| <= |sent| + 1
      && (forall i | 0 <= i < |sent| :: |read[i]| > 0)
      && (forall i | 0 <= i < |sent| && read[i][0] != 3 :: sent[i] == read[i])
      && (forall i | 0 <= i < |sent| && read[i][0] == 3 ::
          ErrorStatus(c, read[i]).Ok? && sent[i] == [3] + c.lib.dumps(Obj(ErrorStatus(c, read[i]).value)))
  {
    hide ErrorStatus;
    Reachable(c, moves);
    var s := Run(c, Start(), moves);
    forall i | 0 <= i < |s.tasks[k].sent|
      ensures Relays(c, Binaries(s.tasks[k].received)[i], s.tasks[k].sent[i])
    {
      assert InOrder(c, Binaries(s.tasks[k].received), s.tasks[k].sent);
    }
  }

  /** What one message does to a task that waits for it: an ordinary message is on its way as it is; an error of the
      connection is passed over; an empty message and one of another kind end the task, and so does anything that is
      received after the flag was set. */
  lemma ReceivingIs(c: Codec, closing: bool, t: Task, m: Message)
    requires t.at.Receiving?
    ensures var u := Woken(c, closing, t, Got(m));
      && u.received == t.received + [m] && u.sent == t.sent && u.cancelled == t.cancelled
      && (closing ==> u.at == Ended(Finished))
      && (!closing && m == ErrorMessage ==> u.at == Receiving)
      && (!closing && m == Unsupported ==> u.at == Ended(Failed(BadValue)))
      && (!closing && m == Binary([]) ==> u.at == Ended(Failed(IndexError)))
    ensures !closing && m.Binary? && |m.data| > 0 ==>
      var u := Woken(c, closing, t, Got(m));
      && (m.data[0] != 3 ==> u.at == Sending(m.data))
      && (m.data[0] == 3 && ErrorStatus(c, m.data).Ok? ==>
          u.at == Sending([3] + c.lib.dumps(Obj(ErrorStatus(c, m.data).value))))
      && (m.data[0] == 3 && ErrorStatus(c, m.data).Err? ==> u.at == Ended(Failed(ErrorStatus(c, m.data).error)))
  {
    hide ErrorStatus;
  }

  /** All other resumptions. A task that is cancelled before its first step never runs. Where the messages end, the task
      does; an exception ends it wherever it waits. What was being sent is sent once, in its place. */
  lemma ResumedIs(c: Codec, closing: bool, t: Task, w: Wake)
    requires !(t.at.Receiving? && w.Got?)
    ensures var u := Woken(c, closing, t, w);
      && u.received == t.received && u.cancelled == t.cancelled
      && (t.at.Scheduled? ==> u.sent == t.sent && u.at == if t.cancelled then Ended(NeverRan) else Receiving)
      && (t.at.Receiving? && w.Exhausted? ==> u.sent == t.sent && u.at == Ended(Finished))
      && (t.at.Receiving? && w.Threw? ==> u.sent == t.sent && u.at == Ended(Failed(w.exn)))
      && (t.at.Sending? && w.Flushed? ==> u.sent == t.sent + [t.at.data] && u.at == Receiving)
      && (t.at.Sending? && w.Threw? ==>
          u.at == Ended(Failed(w.exn)) && u.sent == t.sent + if w.delivered then [t.at.data] else [])
      && (t.at.Ended? ==> u == t)
  {
  }

  // ---------------------------------------------------------------- after closing

  /** From `a` to `b` a task read at most one message more, at which it ended, and sent nothing
      but what was already on its way. */
  ghost predicate Frozen(c: Codec, a: Task, b: Task) {
    && a.received <= b.received
    && a.sent <= b.sent
    && |b.received| <= |a.received| + 1
    && |b.sent| <= |Binaries(a.received)|
    && (!b.at.Ended? ==> b.received == a.received)
    && (b.at.Sending? ==> |b.sent| < |Binaries(a.received)|)
  }

  lemma WokenStaysFrozen(c: Codec, a: Task, b: Task, w: Wake)
    requires Frozen(c, a, b)
    ensures Frozen(c, a, Woken(c, true, b, w))
  {
  }

  lemma {:induction false} SweepOnlyCancels(tasks: seq<Task>, i: nat, pending: Option<Reason>, k: nat)
    requires k < |tasks|
    ensures var (after, at) := Sweep(tasks, i, pending);
      && |after| == |tasks|
      && after[k].(cancelled := true) == tasks[k].(cancelled := true)
      && (tasks[k].at.Ended? ==> after[k] == tasks[k])
    decreases |tasks| - i
  {
    if i < |tasks| && tasks[i].at.Ended? {
      SweepOnlyCancels(tasks, i + 1, pending, k);
    }
  }

  lemma CopyOnlyCancels(s: Connection, raised: Option<Exn>, k: nat)
    requires k < |s.tasks|
    ensures var n := CopyWoken(s, raised);
      && |n.tasks| == |s.tasks| && n.closing == s.closing
      && n.tasks[k].(cancelled := true) == s.tasks[k].(cancelled := true)
      && (s.tasks[k].at.Ended? ==> n.tasks[k] == s.tasks[k])
  {
    if s.copy.Closing? {
      SweepOnlyCancels(s.tasks, 0, s.copy.pending, k);
    } else if s.copy.Awaiting? {
      SweepOnlyCancels(s.tasks, s.copy.i + 1, s.copy.pending, k);
    }
  }

  lemma NextStaysFrozen(c: Codec, a: Connection, s: Connection, move: Move)
    requires |a.tasks| == |s.tasks| == 2 && s.closing
    requires Frozen(c, a.tasks[0], s.tasks[0]) && Frozen(c, a.tasks[1], s.tasks[1])
    ensures var n := Next(c, s, move);
      && |n.tasks| == 2 && n.closing
      && Frozen(c, a.tasks[0], n.tasks[0]) && Frozen(c, a.tasks[1], n.tasks[1])
  {
    hide Woken, CopyWoken, Rewritten;
    match move
    case Proxy(k, w) =>
      if k < 2 {
        WokenStaysFrozen(c, a.tasks[k], s.tasks[k], w);
      }
    case Copy(_) =>
      CopyOnlyCancels(s, move.raised, 0);
      CopyOnlyCancels(s, move.raised, 1);
  }

  lemma {:induction false} RunStaysFrozen(c: Codec, a: Connection, s: Connection, moves: seq<Move>)
    requires |a.tasks| == |s.tasks| == 2 && s.closing
    requires Frozen(c, a.tasks[0], s.tasks[0]) && Frozen(c, a.tasks[1], s.tasks[1])
    ensures var n := Run(c, s, moves);
      && |n.tasks| == 2
      && Frozen(c, a.tasks[0], n.tasks[0]) && Frozen(c, a.tasks[1], n.tasks[1])
    decreases |moves|
  {
    if |moves| > 0 {
      NextStaysFrozen(c, a, s, moves[0]);
      RunStaysFrozen(c, a, Next(c, s, moves[0]), moves[1..]);
    }
  }

  /** Nothing received after the flag is set is forwarded: however long the run goes on, each task
      sends only what it had received by then, and receives at most one more message. */
  lemma NothingAfterClosing(c: Codec, moves: seq<Move>, more: seq<Move>, k: nat)
    requires k < 2 && Run(c, Start(), moves).closing
    ensures var (s, n) := (Run(c, Start(), moves), Run(c, Run(c, Start(), moves), more));
      && |s.tasks| == 2 && |n.tasks| == 2
      && s.tasks[k].received <= n.tasks[k].received
      && |n.tasks[k].received| <= |s.tasks[k].received| + 1
      && s.tasks[k].sent <= n.tasks[k].sent
      && |n.tasks[k].sent| <= |Binaries(s.tasks[k].received)|
  {
    Reachable(c, moves);
    var s := Run(c, Start(), moves);
    RunStaysFrozen(c, s, s, more);
  }

  // ---------------------------------------------------------------- how copy ends

  /** A `copy` that is gone leaves both tasks done, whether it returned or raised, with two exceptions: closing the
      client's side raised, and then no task was cancelled; or `copy` was cancelled while it waited, and then the
      first task, cancelled in turn, failed with something else. */
  lemma NoTaskOutlives(c: Codec, moves: seq<Move>)
    ensures var s := Run(c, Start(), moves);
      s.copy.Gone? ==>
        && |s.tasks| == 2
        && (BothEnded(s) || s.closeRaised || (s.interrupted && s.tasks[0].cancelled && Surfaced(s.tasks[0]).Some?))
        && (s.closeRaised ==> !s.tasks[0].cancelled && !s.tasks[1].cancelled)
        && (Early(s.copy.pending) ==> BothEnded(s))
  {
    Reachable(c, moves);
  }

  /** What `copy` raises in the end: what leaving the connection raises, or else what was on its way out. */
  function CopyRaises(at: CopyAt): Option<Exn> {
    if !at.Gone? then None
    else if at.leaving.Some? then at.leaving
    else
      match at.pending
      case None => None
      case Some(Interrupted) => Some(Cancelled)
      case Some(CloseFailed(e)) => Some(e)
      case Some(TaskFailed(_, e)) => Some(e)
  }

  /** What `copy` raises comes from leaving the connection, from its own cancellation, from closing the client's
      side, or from a task that it had cancelled. When it raises nothing, both tasks are done. */
  lemma WhatCopyRaises(c: Codec, moves: seq<Move>)
    ensures var s := Run(c, Start(), moves);
      s.copy.Gone? ==>
        && |s.tasks| == 2
        && (CopyRaises(s.copy).None? ==> BothEnded(s))
        && (CopyRaises(s.copy).Some? ==>
            || s.copy.leaving == CopyRaises(s.copy)
            || (s.interrupted && CopyRaises(s.copy) == Some(Cancelled))
            || s.closeRaised
            || exists k | 0 <= k < 2 :: s.tasks[k].cancelled && Surfaced(s.tasks[k]) == CopyRaises(s.copy))
  {
    Reachable(c, moves);
    var s := Run(c, Start(), moves);
    if s.copy.Gone? && s.copy.leaving.None? && s.copy.pending.Some? && s.copy.pending.value.TaskFailed? {
      assert Surfaced(s.tasks[s.copy.pending.value.i]) == CopyRaises(s.copy);
    }
  }

  /** Of several exceptions the last one is raised: what leaving the connection raises, or else what closing the
      client's side raised, or else the cancellation. */
  lemma RaisesLast(c: Codec, s: Connection, e: Exn)
    ensures s.copy.Leaving? ==> CopyRaises(CopyWoken(s, Some(e)).copy) == Some(e)
    ensures s.copy.Closing? ==> CopyRaises(CopyWoken(CopyWoken(s, Some(e)), None).copy) == Some(e)
    ensures s.copy.Waiting? && BothEnded(s) ==>
      && CopyRaises(CopyWoken(CopyWoken(CopyWoken(s, Some(Cancelled)), None), None).copy) == Some(Cancelled)
      && CopyRaises(CopyWoken(CopyWoken(CopyWoken(s, None), None), None).copy) == None
  {
    if |s.tasks| == 2 {
      SweepOfTwo(s.tasks, None);
      SweepOfTwo(s.tasks, Some(Interrupted));
    }
  }

  /** A move that the sockets allow. The client's side is closed once `copy` has come to close it, and the other
      side once `copy` is leaving: from a closed side nothing arrives, and to a closed side nothing goes out. */
  predicate Possible(s: Connection, move: Move) {
    var (clientClosed, serverClosed) := (!s.copy.Waiting?, s.copy.Leaving? || s.copy.Gone?);
    move.Proxy? ==>
      var (sourceClosed, targetClosed) := if move.k == 0 then (clientClosed, serverClosed) else (serverClosed,
                                                                                                 clientClosed);
      && (sourceClosed ==> !move.w.Got?)
      && (targetClosed ==> !move.w.Flushed? && !(move.w.Threw? && move.w.delivered))
  }

  predicate AllPossible(c: Codec, s: Connection, moves: seq<Move>)
    decreases |moves|
  {
    |moves| == 0 || (Possible(s, moves[0]) && AllPossible(c, Next(c, s, moves[0]), moves[1..]))
  }

  /** Both tasks have started and wait for messages. */
  function Relaying(): Connection {
    Start().(tasks := [Task(Receiving, [], [], false), Task(Receiving, [], [], false)])
  }

  /** The first exception can happen: `copy` is cancelled, closing the client's side raises, and `copy` leaves two
      tasks that are neither done nor cancelled. */
  lemma OutlivesFailedClose(c: Codec, e: Exn) returns (moves: seq<Move>)
    ensures AllPossible(c, Start(), moves)
    ensures var s := Run(c, Start(), moves);
      && s.copy == Gone(Some(CloseFailed(e)), None)
      && |s.tasks| == 2
      && (forall k | 0 <= k < 2 :: !s.tasks[k].at.Ended? && !s.tasks[k].cancelled)
  {
    var last := [Copy(Some(Cancelled))] + ([Copy(Some(e))] + ([Copy(None)] + []));
    moves := [Proxy(0, Exhausted)] + ([Proxy(1, Exhausted)] + last);
    var s0 := Relaying();
    var s1 := s0.(copy := Closing(Some(Interrupted)), interrupted := true);
    var s2 := s1.(copy := Leaving(Some(CloseFailed(e))), closeRaised := true);
    assert Next(c, s0, Copy(Some(Cancelled))) == s1 && Next(c, s1, Copy(Some(e))) == s2;
    RunFirst(c, s2, Copy(None), []);
    RunFirst(c, s1, Copy(Some(e)), [Copy(None)] + []);
    RunFirst(c, s0, Copy(Some(Cancelled)), [Copy(Some(e))] + ([Copy(None)] + []));
    Starting(c, last);
  }

  /** So can the second, if an await of the first task answers its cancellation with another exception: `copy` is
      cancelled, the first task fails, and `copy` leaves the second. */
  lemma OutlivesFailedTask(c: Codec, e: Exn) returns (moves: seq<Move>)
    requires e != Cancelled
    ensures AllPossible(c, Start(), moves)
    ensures var s := Run(c, Start(), moves);
      && s.copy == Gone(Some(TaskFailed(0, e)), None)
      && |s.tasks| == 2 && !s.tasks[1].at.Ended? && !s.tasks[1].cancelled && !s.closeRaised
  {
    var m3, m4, m5 := Proxy(0, Threw(e, false)), Copy(None), Copy(None);
    var last := [Copy(Some(Cancelled))] + ([Copy(None)] + ([m3] + ([m4] + ([m5] + []))));
    moves := [Proxy(0, Exhausted)] + ([Proxy(1, Exhausted)] + last);
    var s0 := Relaying();
    var s1 := s0.(copy := Closing(Some(Interrupted)), interrupted := true);
    var s2 := s1.(copy := Awaiting(0, Some(Interrupted)),
                  tasks := [Task(Receiving, [], [], true), Task(Receiving, [], [], false)]);
    var s3 := s2.(tasks := [Task(Ended(Failed(e)), [], [], true), Task(Receiving, [], [], false)], closing := true);
    var s4 := s3.(copy := Leaving(Some(TaskFailed(0, e))));
    assert Next(c, s0, Copy(Some(Cancelled))) == s1;
    assert Next(c, s1, Copy(None)) == s2 by {
      assert Swept(s1, 0, Some(Interrupted)).tasks == s2.tasks;
    }
    assert Next(c, s2, m3) == s3 by {
      assert ProxyWoken(c, s2, 0, m3.w).tasks == s3.tasks;
    }
    assert Next(c, s3, m4) == s4;
    RunFirst(c, s4, m5, []);
    RunFirst(c, s3, m4, [m5] + []);
    RunFirst(c, s2, m3, [m4] + ([m5] + []));
    RunFirst(c, s1, Copy(None), [m3] + ([m4] + ([m5] + [])));
    RunFirst(c, s0, Copy(Some(Cancelled)), [Copy(None)] + ([m3] + ([m4] + ([m5] + []))));
    Starting(c, last);
  }

  /** Both tasks start. */
  lemma Starting(c: Codec, rest: seq<Move>)
    ensures var moves := [Proxy(0, Exhausted)] + ([Proxy(1, Exhausted)] + rest);
      && Run(c, Start(), moves) == Run(c, Relaying(), rest)
      && (AllPossible(c, Relaying(), rest) ==> AllPossible(c, Start(), moves))
  {
    var s1 := Start().(tasks := [Task(Receiving, [], [], false), Task(Scheduled, [], [], false)]);
    assert Next(c, Start(), Proxy(0, Exhausted)).tasks == s1.tasks;
    assert Next(c, s1, Proxy(1, Exhausted)).tasks == Relaying().tasks;
    RunFirst(c, s1, Proxy(1, Exhausted), rest);
    RunFirst(c, Start(), Proxy(0, Exhausted), [Proxy(1, Exhausted)] + rest);
  }

  lemma RunFirst(c: Codec, s: Connection, move: Move, rest: seq<Move>)
    ensures Run(c, s, [move] + rest) == Run(c, Next(c, s, move), rest)
    ensures AllPossible(c, s, [move] + rest) <==> Possible(s, move) && AllPossible(c, Next(c, s, move), rest)
  {
    assert ([move] + rest)[1..] == rest;
  }

  /** A task's own failure never reaches the caller: a task that has ended without having been cancelled is not asked
      for its exception, however the run goes on. */
  lemma FailureIsSilent(c: Codec, moves: seq<Move>, more: seq<Move>, k: nat)
    requires k < 2
    requires var s := Run(c, Start(), moves);
      |s.tasks| == 2 && s.tasks[k].at.Ended? && !s.tasks[k].cancelled
    ensures var n := Run(c, Run(c, Start(), moves), more);
      n.copy.Gone? ==> n.copy.pending.None? || !n.copy.pending.value.TaskFailed? || n.copy.pending.value.i != k
  {
    Reachable(c, moves);
    var s := Run(c, Start(), moves);
    RunKeepsInv(c, s, more);
    StaysUncancelled(c, s, more, k);
  }

  lemma {:induction false} StaysUncancelled(c: Codec, s: Connection, moves: seq<Move>, k: nat)
    requires Inv(c, s) && k < 2
    requires s.tasks[k].at.Ended? && !s.tasks[k].cancelled
    ensures var n := Run(c, s, moves);
      |n.tasks| == 2 && n.tasks[k].at.Ended? && !n.tasks[k].cancelled
    decreases |moves|
  {
    hide TaskInv, Woken;
    if |moves| > 0 {
      NextKeepsInv(c, s, moves[0]);
      NextKeepsUncancelled(c, s, moves[0], k);
      StaysUncancelled(c, Next(c, s, moves[0]), moves[1..], k);
    }
  }

  lemma NextKeepsUncancelled(c: Codec, s: Connection, move: Move, k: nat)
    requires Inv(c, s) && k < 2
    requires s.tasks[k].at.Ended? && !s.tasks[k].cancelled
    ensures var n := Next(c, s, move);
      |n.tasks| == 2 && n.tasks[k].at.Ended? && !n.tasks[k].cancelled
  {
    hide TaskInv;
    match move
    case Proxy(j, w) =>
    case Copy(raised) =>
      CopyOnlyCancels(s, raised, k);
  }

  // ---------------------------------------------------------------- winding down

  /** A wake that a task suspended at `at` can get. */
  predicate Fits(at: At, w: Wake) {
    match at
    case Receiving => !w.Flushed?
    case Sending(_) => w.Flushed? || w.Threw?
    case _ => true
  }

  /** Once the flag is set, a task is over after at most two more resumptions that fit where it is suspended: its
      start or what it was sending, then whatever its peer does next. */
  lemma WindsDown(c: Codec, t: Task, w: Wake, x: Wake)
    requires Fits(t.at, w)
    ensures var u := Woken(c, true, t, w);
      u.at.Ended? || (u.at.Receiving? && (Fits(u.at, x) ==> Woken(c, true, u, x).at.Ended?))
  {
  }

  /** A task that is cancelled once the flag is set is over after two resumptions that fit. */
  lemma CancelledWindsDown(c: Codec, s: Connection, k: nat, w: Wake, x: Wake)
    requires |s.tasks| == 2 && k < 2 && s.closing
    requires Fits(s.tasks[k].at, w) && Fits(Woken(c, true, s.tasks[k], w).at, x)
    ensures var t := Next(c, Next(c, s, Proxy(k, w)), Proxy(k, x));
      && |t.tasks| == 2 && t.closing && t.copy == s.copy
      && t.tasks[1 - k] == s.tasks[1 - k] && t.tasks[k].at.Ended?
  {
    hide Rewritten;
    WindsDown(c, s.tasks[k], w, x);
  }

  /** `copy` comes to its end: once a task has ended while it waits, it closes the client's side, cancels the other task
      if that is still there, and is gone after that task's next two resumptions, if closing does not fail. */
  lemma CopyEnds(c: Codec, moves: seq<Move>, k: nat, w: Wake, x: Wake)
    requires k < 2
    requires var s := Run(c, Start(), moves);
      && s.copy.Waiting? && |s.tasks| == 2 && s.tasks[1 - k].at.Ended?
      && (!s.tasks[k].at.Ended? ==>
          var t := s.tasks[k].(cancelled := true);
          Fits(t.at, w) && Fits(Woken(c, true, t, w).at, x))
    ensures var end := [Copy(None)] + ([Copy(None)] + []);
      var rest := [Copy(None)] + ([Copy(None)] + ([Proxy(k, w)] + ([Proxy(k, x)] + end)));
      Run(c, Run(c, Start(), moves), rest).copy.Gone?
  {
    Reachable(c, moves);
    var s := Run(c, Start(), moves);
    var a := Next(c, s, Copy(None));
    var b := Next(c, a, Copy(None));
    var d := Next(c, b, Proxy(k, w));
    var e := Next(c, d, Proxy(k, x));
    var f := Next(c, e, Copy(None));
    EndGame(c, s, k, w, x);
    RunFirst(c, f, Copy(None), []);
    RunFirst(c, e, Copy(None), [Copy(None)] + []);
    RunFirst(c, d, Proxy(k, x), [Copy(None)] + ([Copy(None)] + []));
    RunFirst(c, b, Proxy(k, w), [Proxy(k, x)] + ([Copy(None)] + ([Copy(None)] + [])));
    RunFirst(c, a, Copy(None), [Proxy(k, w)] + ([Proxy(k, x)] + ([Copy(None)] + ([Copy(None)] + []))));
    RunFirst(c, s, Copy(None), [Copy(None)] + ([Proxy(k, w)] + ([Proxy(k, x)] + ([Copy(None)] + ([Copy(None)] + [])))));
  }

  /** The loop over two tasks, written out. */
  lemma SweepOfTwo(tasks: seq<Task>, pending: Option<Reason>)
    requires |tasks| == 2
    ensures Sweep(tasks, 2, pending) == (tasks, Leaving(pending))
    ensures Sweep(tasks, 1, pending) ==
      if tasks[1].at.Ended? then (tasks, Leaving(pending))
      else (tasks[1 := tasks[1].(cancelled := true)], Awaiting(1, pending))
    ensures Sweep(tasks, 0, pending) ==
      if tasks[0].at.Ended? then Sweep(tasks, 1, pending)
      else (tasks[0 := tasks[0].(cancelled := true)], Awaiting(0, pending))
  {
  }

  /** The moves of such an end. */
  lemma EndGame(c: Codec, s: Connection, k: nat, w: Wake, x: Wake)
    requires Inv(c, s) && k < 2 && s.copy.Waiting? && s.tasks[1 - k].at.Ended?
    requires !s.tasks[k].at.Ended? ==>
      var t := s.tasks[k].(cancelled := true);
      Fits(t.at, w) && Fits(Woken(c, true, t, w).at, x)
    ensures var b := Next(c, Next(c, s, Copy(None)), Copy(None));
      var e := Next(c, Next(c, b, Proxy(k, w)), Proxy(k, x));
      Next(c, Next(c, e, Copy(None)), Copy(None)).copy.Gone?
  {
    hide Woken, InOrder, Sweep;
    var a := Next(c, s, Copy(None));
    assert s.closing && a == s.(copy := Closing(None));
    var b := Next(c, a, Copy(None));
    SweepOfTwo(s.tasks, None);
    SweepOfTwo(Next(c, Next(c, b, Proxy(k, w)), Proxy(k, x)).tasks, None);
    if s.tasks[k].at.Ended? {
      assert b.copy == Leaving(None);
    } else {
      assert b.copy == Awaiting(k, None) && b.tasks[k] == s.tasks[k].(cancelled := true);
      assert b.tasks[1 - k] == s.tasks[1 - k] && b.closing;
      CancelledWindsDown(c, b, k, w, x);
    }
  }
}

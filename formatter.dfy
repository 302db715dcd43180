/** The document formatter of src/providers/FormattingProvider.ts: one
    long-running formatter process, fed one document at a time on its standard
    input, each document followed by a NUL; the process answers each document
    with its formatted text followed by a NUL, and a FIFO of listeners waits for
    those answers. The process is an opaque handle that records what the
    extension does to it; a promise is named by the number of the request that
    created it, and resolving it appends a `Resolution` to a log. */
module Formatting {
  import opened Text
  import opened Wrappers

  /** `EXIT_STRING`: written to the formatter to ask it to stop. */
  const ExitChar: char := 4 as char
  /** `EOF_STRING`: terminates a document on the way in and an answer on the way out. */
  const EofChar: char := 0 as char
  const NoListenerMessage := "ERROR: Received data from formatter, but we weren't waiting on anything."

  /** A pending `FormatResults`: the request whose promise it resolves and the
      answer text received for it so far. */
  datatype FormatResult = FormatResult(request: nat, text: string)

  /** One call of a listener's `resolve`, with the text it was given. */
  datatype Resolution = Resolution(request: nat, text: string)

  /** How a call of `onData` ends: normally, or with the TypeError of reading
      `text` from the missing front listener. */
  datatype DataOutcome = Handled | TypeError

  /** The arguments the formatter is started with: indent width, `-w`, and `-t`
      (indent with tabs) when spaces are not wanted. */
  function FormatterArgs(tabSize: nat, useSpaces: bool): (r: seq<string>)
    ensures |r| == 3 || |r| == 4
    ensures r[..3] == ["-i", NatToString(tabSize), "-w"]
    ensures |r| == 3 <==> useSpaces
    ensures !useSpaces <==> "-t" in r
    ensures useSpaces ==> r == ["-i", NatToString(tabSize), "-w"]
    ensures !useSpaces ==> r == ["-i", NatToString(tabSize), "-w", "-t"]
  {
    var base := ["-i", NatToString(tabSize), "-w"];
    assert NatToString(tabSize) != "-t" by {
      assert IsDigit(NatToString(tabSize)[0]);
    }
    if useSpaces then base else base + ["-t"]
  }

  /** The child process running the formatter. `connected` is Node's flag for an
      IPC channel; the formatter is spawned with plain pipes, so it has none. */
  class FormatterProcess {
    const command: string
    const args: seq<string>
    const connected: bool
    var stdin: string
    var stdinEnded: bool
    var killed: bool
    var disconnected: bool

    /** `cp.spawn(command, args, {stdio: 'pipe'})`. */
    constructor (command: string, args: seq<string>)
      ensures this.command == command && this.args == args
      ensures !connected && stdin == "" && !stdinEnded && !killed && !disconnected
    {
      this.command := command;
      this.args := args;
      connected := false;
      stdin := "";
      stdinEnded := false;
      killed := false;
      disconnected := false;
    }

    method Write(s: string)
      modifies this
      ensures stdin == old(stdin) + s
      ensures stdinEnded == old(stdinEnded) && killed == old(killed) && disconnected == old(disconnected)
    {
      stdin := stdin + s;
    }

    method EndInput()
      modifies this
      ensures stdinEnded
      ensures stdin == old(stdin) && killed == old(killed) && disconnected == old(disconnected)
    {
      stdinEnded := true;
    }

    method Kill()
      modifies this
      ensures killed
      ensures stdin == old(stdin) && stdinEnded == old(stdinEnded) && disconnected == old(disconnected)
    {
      killed := true;
    }

    method Disconnect()
      modifies this
      ensures disconnected
      ensures stdin == old(stdin) && stdinEnded == old(stdinEnded) && killed == old(killed)
    {
      disconnected := true;
    }
  }

  /** One resolution per listener, front first, each with the listener's text
      followed by `segment`. */
  function ResolveAll(ls: seq<FormatResult>, segment: string): seq<Resolution>
    decreases |ls|
  {
    if |ls| == 0 then []
    else [Resolution(ls[0].request, ls[0].text + segment)] + ResolveAll(ls[1..], segment)
  }

  lemma {:induction false} ResolveAllInOrder(ls: seq<FormatResult>, segment: string)
    ensures |ResolveAll(ls, segment)| == |ls|
    ensures forall i :: 0 <= i < |ls| ==>
              ResolveAll(ls, segment)[i] == Resolution(ls[i].request, ls[i].text + segment)
    decreases |ls|
  {
    if |ls| > 0 {
      ResolveAllInOrder(ls[1..], segment);
    }
  }

  /** The effect of one `onData` call on the queue and the resolutions. */
  datatype DataStep = DataStep(listeners: seq<FormatResult>, resolved: seq<Resolution>, outcome: DataOutcome)

  /** `onData(stream)` as written. The `while` loop never shortens `chunks`, so
      once the output holds a NUL it dequeues and resolves every listener with
      the text before the first NUL and then fails on the missing listener;
      without a NUL the whole chunk is appended to the front listener, and an
      empty queue fails at that append. */
  function OnDataAsWritten(ls: seq<FormatResult>, stream: string): (r: DataStep)
    ensures r.outcome == Handled <==> EofChar !in stream && |ls| > 0
    ensures r.outcome == TypeError ==> r.listeners == []
    ensures r.outcome == Handled ==> |r.listeners| == |ls| && r.resolved == []
  {
    var chunks := Split(stream, EofChar);
    if |chunks| > 1 then DataStep([], ResolveAll(ls, chunks[0]), TypeError)
    else if |ls| == 0 then DataStep([], [], TypeError)
    else DataStep([ls[0].(text := ls[0].text + stream)] + ls[1..], [], Handled)
  }

  /** A chunk without NUL keeps the queue length, appends the whole chunk to the
      front listener's text and resolves nothing. */
  lemma OnDataWithoutTerminator(ls: seq<FormatResult>, stream: string)
    requires EofChar !in stream && |ls| > 0
    ensures var r := OnDataAsWritten(ls, stream);
            && r.outcome == Handled && r.resolved == []
            && |r.listeners| == |ls|
            && r.listeners[0] == FormatResult(ls[0].request, ls[0].text + stream)
            && r.listeners[1..] == ls[1..]
  {
  }

  /** A chunk holding a NUL resolves every queued listener, front first, each
      with its accumulated text plus the part of the chunk before the first
      NUL, empties the queue, and ends in the TypeError. */
  lemma OnDataWithTerminator(ls: seq<FormatResult>, stream: string)
    requires EofChar in stream
    ensures var r := OnDataAsWritten(ls, stream);
            var head := Split(stream, EofChar)[0];
            && EofChar !in head && head + [EofChar] <= stream
            && r.outcome == TypeError && r.listeners == []
            && |r.resolved| == |ls|
            && forall i :: 0 <= i < |ls| ==> r.resolved[i] == Resolution(ls[i].request, ls[i].text + head)
  {
    ResolveAllInOrder(ls, Split(stream, EofChar)[0]);
    SplitHeadIsPrefix(stream, EofChar);
  }

  /** Data with nobody waiting resolves nothing and ends in the TypeError. */
  lemma OnDataEmptyQueue(stream: string)
    ensures var r := OnDataAsWritten([], stream);
            r.outcome == TypeError && r.listeners == [] && r.resolved == []
  {
  }

  /** Where a chunk of formatter output leaves the queue, and whom it resolved. */
  datatype Delivery = Delivery(listeners: seq<FormatResult>, resolved: seq<Resolution>)

  /** The request numbers of a queue, front first. */
  function Waiting(ls: seq<FormatResult>): (r: seq<nat>)
    ensures |r| == |ls| && forall i :: 0 <= i < |ls| ==> r[i] == ls[i].request
  {
    seq(|ls|, i requires 0 <= i < |ls| => ls[i].request)
  }

  /** The request numbers of a resolution log, in order. */
  function Answered(rs: seq<Resolution>): (r: seq<nat>)
    ensures |r| == |rs| && forall i :: 0 <= i < |rs| ==> r[i] == rs[i].request
  {
    seq(|rs|, i requires 0 <= i < |rs| => rs[i].request)
  }

  /** Dequeuing the front listener moves its request to the answered ones. */
  lemma WaitingCons(ls: seq<FormatResult>)
    requires |ls| > 0
    ensures Waiting(ls) == [ls[0].request] + Waiting(ls[1..])
  {
  }

  /** Queues that differ only in their texts wait for the same requests. */
  lemma WaitingSameRequests(a: seq<FormatResult>, b: seq<FormatResult>)
    requires |a| == |b| && forall i :: 0 <= i < |a| ==> a[i].request == b[i].request
    ensures Waiting(a) == Waiting(b)
  {
  }

  lemma AnsweredConcat(a: seq<Resolution>, b: seq<Resolution>)
    ensures Answered(a + b) == Answered(a) + Answered(b)
  {
  }

  /** Requests that were answered and requests still waiting, in order, make
      up exactly the requests that waited before: none is lost, duplicated or
      reordered. */
  predicate KeepsRequests(ls: seq<FormatResult>, d: Delivery)
  {
    Answered(d.resolved) + Waiting(d.listeners) == Waiting(ls)
  }

  /** Reference reading of the protocol, one character at a time: a NUL
      completes the front listener's answer, any other character extends it,
      and output nobody waits for is dropped. */
  function DeliverChar(ls: seq<FormatResult>, c: char): Delivery
  {
    if |ls| == 0 then Delivery([], [])
    else if c == EofChar then Delivery(ls[1..], [Resolution(ls[0].request, ls[0].text)])
    else Delivery([ls[0].(text := ls[0].text + [c])] + ls[1..], [])
  }

  /** The reference reading applied to a whole stream, first character first. */
  function Deliver(ls: seq<FormatResult>, s: string): (r: Delivery)
    ensures |r.resolved| + |r.listeners| == |ls|
    decreases |s|
  {
    if |s| == 0 then Delivery(ls, [])
    else
      var first := DeliverChar(ls, s[0]);
      var rest := Deliver(first.listeners, s[1..]);
      Delivery(rest.listeners, first.resolved + rest.resolved)
  }

  /** Feeding `s` after the delivery `d`. */
  function Then(d: Delivery, s: string): Delivery
  {
    var next := Deliver(d.listeners, s);
    Delivery(next.listeners, d.resolved + next.resolved)
  }

  /** One character answers at most the front request and keeps the rest waiting. */
  lemma DeliverCharKeepsRequests(ls: seq<FormatResult>, c: char)
    ensures KeepsRequests(ls, DeliverChar(ls, c))
  {
    if |ls| > 0 {
      if c == EofChar {
        WaitingCons(ls);
      } else {
        WaitingSameRequests(DeliverChar(ls, c).listeners, ls);
      }
    }
  }

  /** The reference reading answers each waiting request at most once, front
      first, and keeps the rest waiting in order. */
  lemma {:induction false} DeliverKeepsRequests(ls: seq<FormatResult>, s: string)
    ensures KeepsRequests(ls, Deliver(ls, s))
    decreases |s|
  {
    if |s| > 0 {
      var first := DeliverChar(ls, s[0]);
      var rest := Deliver(first.listeners, s[1..]);
      assert Deliver(ls, s) == Delivery(rest.listeners, first.resolved + rest.resolved);
      DeliverKeepsRequests(first.listeners, s[1..]);
      DeliverCharKeepsRequests(ls, s[0]);
      AnsweredConcat(first.resolved, rest.resolved);
      calc {
        Answered(first.resolved + rest.resolved) + Waiting(rest.listeners);
        Answered(first.resolved) + (Answered(rest.resolved) + Waiting(rest.listeners));
        Answered(first.resolved) + Waiting(first.listeners);
      }
    }
  }

  /** The reference reading does not depend on how the output is cut into
      `data` events. */
  lemma {:induction false} DeliverConcat(ls: seq<FormatResult>, a: string, b: string)
    ensures Deliver(ls, a + b) == Then(Deliver(ls, a), b)
    decreases |a|
  {
    if |a| == 0 {
      assert a + b == b;
    } else {
      var first := DeliverChar(ls, a[0]);
      assert (a + b)[0] == a[0];
      assert (a + b)[1..] == a[1..] + b;
      DeliverConcat(first.listeners, a[1..], b);
      var x := Deliver(first.listeners, a[1..]);
      var y := Deliver(x.listeners, b);
      assert Deliver(ls, a) == Delivery(x.listeners, first.resolved + x.resolved);
      assert Deliver(ls, a + b) == Delivery(y.listeners, first.resolved + (x.resolved + y.resolved));
      assert first.resolved + (x.resolved + y.resolved) == (first.resolved + x.resolved) + y.resolved;
    }
  }

  /** Nothing is delivered when nobody waits. */
  lemma {:induction false} DeliverNobody(s: string)
    ensures Deliver([], s) == Delivery([], [])
    decreases |s|
  {
    if |s| > 0 {
      DeliverNobody(s[1..]);
    }
  }

  /** Add `t` to the front listener's answer, if there is one. */
  function AppendFront(ls: seq<FormatResult>, t: string): Delivery
  {
    if |ls| == 0 then Delivery([], [])
    else Delivery([ls[0].(text := ls[0].text + t)] + ls[1..], [])
  }

  /** A NUL-free stretch only extends the front listener's answer. */
  lemma {:induction false} DeliverPiece(ls: seq<FormatResult>, p: string)
    requires EofChar !in p
    ensures Deliver(ls, p) == AppendFront(ls, p)
    decreases |p|
  {
    if |ls| == 0 {
      DeliverNobody(p);
    } else if |p| == 0 {
      assert ls[0].(text := ls[0].text + p) == ls[0];
      assert [ls[0]] + ls[1..] == ls;
    } else {
      var first := DeliverChar(ls, p[0]);
      DeliverPiece(first.listeners, p[1..]);
      assert first.listeners[1..] == ls[1..];
      assert ls[0].text + [p[0]] + p[1..] == ls[0].text + p by {
        assert [p[0]] + p[1..] == p;
      }
    }
  }

  /** The pieces of a `split` on NUL: every piece but the last completes the
      front listener's answer, the last extends the next one; pieces with
      nobody waiting are dropped. */
  function ResolvePieces(ls: seq<FormatResult>, pieces: seq<string>): (r: Delivery)
    requires |pieces| >= 1
    ensures |r.resolved| + |r.listeners| == |ls|
    ensures |r.resolved| == if |ls| < |pieces| - 1 then |ls| else |pieces| - 1
    decreases |pieces|
  {
    if |pieces| == 1 then AppendFront(ls, pieces[0])
    else if |ls| == 0 then Delivery([], [])
    else
      var rest := ResolvePieces(ls[1..], pieces[1..]);
      Delivery(rest.listeners, [Resolution(ls[0].request, ls[0].text + pieces[0])] + rest.resolved)
  }

  /** The evidently intended `onData`: each NUL-terminated chunk resolves and
      dequeues one listener, front first, and the text after the last NUL is
      kept for the next listener. */
  function OnDataIntended(ls: seq<FormatResult>, stream: string): (r: Delivery)
    ensures |r.resolved| + |r.listeners| == |ls|
    ensures EofChar !in stream ==> r.resolved == [] && |r.listeners| == |ls|
    ensures EofChar in stream && |ls| > 0 ==> |r.resolved| >= 1
  {
    ResolvePieces(ls, Split(stream, EofChar))
  }

  lemma {:induction false} ResolvePiecesDeliver(ls: seq<FormatResult>, pieces: seq<string>)
    requires |pieces| >= 1
    requires forall i :: 0 <= i < |pieces| ==> EofChar !in pieces[i]
    ensures ResolvePieces(ls, pieces) == Deliver(ls, Join(pieces, [EofChar]))
    decreases |pieces|
  {
    if |pieces| == 1 {
      DeliverPiece(ls, pieces[0]);
    } else if |ls| == 0 {
      DeliverNobody(Join(pieces, [EofChar]));
    } else {
      var p := pieces[0];
      var j := Join(pieces[1..], [EofChar]);
      assert Join(pieces, [EofChar]) == p + ([EofChar] + j);
      DeliverConcat(ls, p, [EofChar] + j);
      DeliverPiece(ls, p);
      var front := [ls[0].(text := ls[0].text + p)] + ls[1..];
      assert ([EofChar] + j)[0] == EofChar && ([EofChar] + j)[1..] == j;
      assert DeliverChar(front, EofChar) == Delivery(ls[1..], [Resolution(ls[0].request, ls[0].text + p)]);
      ResolvePiecesDeliver(ls[1..], pieces[1..]);
    }
  }

  /** Piece by piece, each waiting request is answered at most once, front
      first, and the rest keep waiting in order. */
  lemma {:induction false} ResolvePiecesKeepsRequests(ls: seq<FormatResult>, pieces: seq<string>)
    requires |pieces| >= 1
    ensures KeepsRequests(ls, ResolvePieces(ls, pieces))
    decreases |pieces|
  {
    var r := ResolvePieces(ls, pieces);
    if |pieces| == 1 {
      if |ls| > 0 {
        WaitingSameRequests(r.listeners, ls);
      }
    } else if |ls| > 0 {
      var rest := ResolvePieces(ls[1..], pieces[1..]);
      ResolvePiecesKeepsRequests(ls[1..], pieces[1..]);
      var head := [Resolution(ls[0].request, ls[0].text + pieces[0])];
      AnsweredConcat(head, rest.resolved);
      WaitingCons(ls);
      assert Answered(r.resolved) + Waiting(r.listeners)
          == [ls[0].request] + (Answered(rest.resolved) + Waiting(rest.listeners));
    }
  }

  /** The intended `onData` loses, duplicates and reorders no request. */
  lemma IntendedKeepsRequests(ls: seq<FormatResult>, stream: string)
    ensures KeepsRequests(ls, OnDataIntended(ls, stream))
  {
    ResolvePiecesKeepsRequests(ls, Split(stream, EofChar));
  }

  /** The intended `onData` agrees with the character-level reading. */
  lemma IntendedMatchesReference(ls: seq<FormatResult>, stream: string)
    ensures OnDataIntended(ls, stream) == Deliver(ls, stream)
  {
    JoinSplit(stream, EofChar);
    ResolvePiecesDeliver(ls, Split(stream, EofChar));
  }

  /** So the intended `onData` gives the same answers however the formatter's
      output is cut into `data` events. */
  lemma IntendedChunkingInvariant(ls: seq<FormatResult>, a: string, b: string)
    ensures var first := OnDataIntended(ls, a);
            var second := OnDataIntended(first.listeners, b);
            OnDataIntended(ls, a + b) == Delivery(second.listeners, first.resolved + second.resolved)
  {
    IntendedMatchesReference(ls, a + b);
    IntendedMatchesReference(ls, a);
    IntendedMatchesReference(OnDataIntended(ls, a).listeners, b);
    DeliverConcat(ls, a, b);
  }

  /** Two waiting requests and one complete answer: as written, both promises
      resolve with that answer and the call fails; intended, only the older
      one resolves and the newer one keeps waiting. */
  lemma AsWrittenResolvesEveryListener()
    ensures var ls := [FormatResult(0, ""), FormatResult(1, "")];
            var stream := ['x', EofChar];
            && OnDataAsWritten(ls, stream) == DataStep([], [Resolution(0, "x"), Resolution(1, "x")], TypeError)
            && OnDataIntended(ls, stream) == Delivery([FormatResult(1, "")], [Resolution(0, "x")])
  {
    var ls := [FormatResult(0, ""), FormatResult(1, "")];
    var stream := ['x', EofChar];
    JoinPair("x", "", [EofChar]);
    assert "x" + [EofChar] + "" == stream;
    SplitJoin(["x", ""], EofChar);
    var pieces := Split(stream, EofChar);
    assert pieces == ["x", ""];
    assert pieces[1..] == [""];
    assert ls[1..] == [FormatResult(1, "")];
    assert "" + "x" == "x";
    ResolveAllInOrder(ls, "x");
    assert ResolveAll(ls, "x") == [Resolution(0, "x"), Resolution(1, "x")];
    assert OnDataAsWritten(ls, stream).resolved == ResolveAll(ls, "x");
    assert ls[1..][1..] == [];
    assert FormatResult(1, "" + "") == FormatResult(1, "");
    assert AppendFront(ls[1..], "") == Delivery([FormatResult(1, "")], []);
    assert ResolvePieces(ls, pieces) == Delivery([FormatResult(1, "")], [Resolution(0, "x")]);
  }

  /** Requests in the queue are numbered in the order they were made. */
  predicate Ascending(ls: seq<FormatResult>)
  {
    forall i, j :: 0 <= i < j < |ls| ==> ls[i].request < ls[j].request
  }

  /** The number after the front of `ls`: its first request, or `bound` when empty. */
  function NextRequest(ls: seq<FormatResult>, bound: nat): nat
  {
    if |ls| == 0 then bound else ls[0].request
  }

  /** Each queued request is below the one behind it, and the last is below
      `bound`, the number of requests made so far. */
  predicate QueueOk(ls: seq<FormatResult>, bound: nat)
    decreases |ls|
  {
    |ls| == 0 || (ls[0].request < NextRequest(ls[1..], bound) && QueueOk(ls[1..], bound))
  }

  /** A well-formed queue holds distinct requests, oldest first, all already made. */
  lemma {:induction false} QueueOkAscending(ls: seq<FormatResult>, bound: nat)
    requires QueueOk(ls, bound)
    ensures Ascending(ls)
    ensures forall i :: 0 <= i < |ls| ==> ls[i].request < bound
    decreases |ls|
  {
    if |ls| > 0 {
      QueueOkAscending(ls[1..], bound);
      assert forall i :: 1 <= i < |ls| ==> ls[i] == ls[1..][i - 1];
    }
  }

  /** Appending the request numbered `bound` keeps the queue well formed. */
  lemma {:induction false} QueueOkPush(ls: seq<FormatResult>, bound: nat)
    requires QueueOk(ls, bound)
    ensures QueueOk(ls + [FormatResult(bound, "")], bound + 1)
    decreases |ls|
  {
    var ls' := ls + [FormatResult(bound, "")];
    if |ls| == 0 {
      assert ls'[1..] == [];
    } else {
      QueueOkPush(ls[1..], bound);
      assert ls'[1..] == ls[1..] + [FormatResult(bound, "")];
    }
  }

  class SuperColliderFormatter {
    const formatterPath: string
    const tabSize: nat
    const useSpaces: bool
    var formatterProcess: FormatterProcess?
    var listeners: seq<FormatResult>
    /** Lines appended to the output channel. */
    var output: seq<string>
    /** Calls of the listeners' `resolve`, in order. */
    var resolutions: seq<Resolution>
    /** Number of format requests that created a promise; names the next one. */
    var requests: nat

    /** No listener waits without a process, and the queue holds distinct
        requests oldest first. */
    ghost predicate Valid()
      reads this
    {
      && (formatterProcess == null ==> listeners == [])
      && QueueOk(listeners, requests)
    }

    /** The constructor stores the settings and starts the formatter. */
    constructor (formatterPath: string, tabSize: nat, useSpaces: bool)
      ensures Valid()
      ensures this.formatterPath == formatterPath && this.tabSize == tabSize && this.useSpaces == useSpaces
      ensures formatterProcess != null && fresh(formatterProcess)
      ensures formatterProcess.command == formatterPath
      ensures formatterProcess.args == FormatterArgs(tabSize, useSpaces)
      ensures !formatterProcess.killed && formatterProcess.stdin == ""
      ensures !formatterProcess.stdinEnded && !formatterProcess.disconnected
      ensures listeners == [] && output == [] && resolutions == [] && requests == 0
    {
      this.formatterPath := formatterPath;
      this.tabSize := tabSize;
      this.useSpaces := useSpaces;
      formatterProcess := null;
      listeners := [];
      output := [];
      resolutions := [];
      requests := 0;
      new;
      Start();
    }

    /** `start()`: spawn the formatter unless one is already running. */
    method Start()
      requires Valid()
      modifies this
      ensures Valid()
      ensures old(formatterProcess) != null ==> unchanged(this)
      ensures old(formatterProcess) == null ==>
                && formatterProcess != null && fresh(formatterProcess)
                && formatterProcess.command == formatterPath
                && formatterProcess.args == FormatterArgs(tabSize, useSpaces)
                && !formatterProcess.killed && formatterProcess.stdin == ""
                && !formatterProcess.stdinEnded && !formatterProcess.disconnected
      ensures listeners == old(listeners) && output == old(output)
      ensures resolutions == old(resolutions) && requests == old(requests)
    {
      if formatterProcess == null {
        var args := ["-i", NatToString(tabSize), "-w"];
        if !useSpaces {
          args := args + ["-t"];
        }
        formatterProcess := new FormatterProcess(formatterPath, args);
      }
    }

    /** `end()`: ask a connected formatter to exit, kill and disconnect it, and
        drop the process and every waiting listener. */
    method End()
      requires Valid()
      modifies this, formatterProcess
      ensures Valid()
      ensures formatterProcess == null
      ensures old(formatterProcess) == null ==> unchanged(this)
      ensures old(formatterProcess) != null ==>
                && listeners == []
                && old(formatterProcess).killed && old(formatterProcess).disconnected
                && (old(formatterProcess.connected) ==>
                      old(formatterProcess).stdin == old(formatterProcess.stdin) + [ExitChar]
                      && old(formatterProcess).stdinEnded)
                && (!old(formatterProcess.connected) ==>
                      old(formatterProcess).stdin == old(formatterProcess.stdin)
                      && old(formatterProcess).stdinEnded == old(formatterProcess.stdinEnded))
      ensures output == old(output) && resolutions == old(resolutions) && requests == old(requests)
    {
      if formatterProcess != null {
        var p := formatterProcess;
        if p.connected {
          p.Write([ExitChar]);
          p.EndInput();
        }
        p.Kill();
        p.Disconnect();
        formatterProcess := null;
        listeners := [];
      }
    }

    /** `restart()`: `end()` then `start()`; afterwards a fresh formatter runs
        and nothing waits. */
    method Restart()
      requires Valid()
      modifies this, formatterProcess
      ensures Valid()
      ensures formatterProcess != null && fresh(formatterProcess)
      ensures formatterProcess.command == formatterPath
      ensures formatterProcess.args == FormatterArgs(tabSize, useSpaces)
      ensures !formatterProcess.killed && formatterProcess.stdin == ""
      ensures !formatterProcess.stdinEnded && !formatterProcess.disconnected
      ensures listeners == []
      ensures old(formatterProcess) != null ==> old(formatterProcess).killed && old(formatterProcess).disconnected
      ensures output == old(output) && resolutions == old(resolutions) && requests == old(requests)
    {
      End();
      Start();
    }

    /** The queue part of `provideDocumentFormattingEdits(document)`: with a
        running formatter, enqueue one empty listener and write the text and a
        NUL; the result names the promise the edit waits for. Without a
        formatter nothing happens and the result is `undefined`. */
    method ProvideDocumentFormattingEdits(text: string) returns (promise: Option<nat>)
      requires Valid()
      modifies this, formatterProcess
      ensures Valid()
      ensures formatterProcess == old(formatterProcess)
      ensures old(formatterProcess) == null ==> promise == None && unchanged(this)
      ensures old(formatterProcess) != null ==>
                && promise == Some(old(requests))
                && listeners == old(listeners) + [FormatResult(old(requests), "")]
                && formatterProcess.stdin == old(formatterProcess.stdin) + text + [EofChar]
                && formatterProcess.killed == old(formatterProcess.killed)
                && formatterProcess.stdinEnded == old(formatterProcess.stdinEnded)
                && formatterProcess.disconnected == old(formatterProcess.disconnected)
                && requests == old(requests) + 1
      ensures output == old(output) && resolutions == old(resolutions)
    {
      if formatterProcess == null {
        return None;
      }
      QueueOkPush(listeners, requests);
      listeners := listeners + [FormatResult(requests, "")];
      formatterProcess.Write(text);
      formatterProcess.Write([EofChar]);
      promise := Some(requests);
      requests := requests + 1;
    }

    /** `onData(stream)` as written: log when nothing waits, split on NUL, and
        while there is more than one chunk dequeue and resolve the front
        listener with the first chunk; then append the whole chunk to the front
        listener. */
    method OnData(stream: string) returns (outcome: DataOutcome)
      requires Valid()
      modifies this
      ensures Valid()
      ensures output == old(output) + (if |old(listeners)| == 0 then [NoListenerMessage] else [])
      ensures var r := OnDataAsWritten(old(listeners), stream);
              && listeners == r.listeners
              && resolutions == old(resolutions) + r.resolved
              && outcome == r.outcome
      ensures formatterProcess == old(formatterProcess) && requests == old(requests)
    {
      if |listeners| == 0 {
        output := output + [NoListenerMessage];
      }
      var chunks := Split(stream, EofChar);
      while |chunks| > 1
        invariant QueueOk(listeners, requests)
        invariant |chunks| <= 1 ==> listeners == old(listeners) && resolutions == old(resolutions)
        invariant resolutions + ResolveAll(listeners, chunks[0]) ==
                  old(resolutions) + ResolveAll(old(listeners), chunks[0])
        invariant output == old(output) + (if |old(listeners)| == 0 then [NoListenerMessage] else [])
        invariant formatterProcess == old(formatterProcess) && requests == old(requests)
        decreases |listeners|
      {
        if |listeners| == 0 {
          assert resolutions + [] == resolutions;
          assert OnDataAsWritten(old(listeners), stream) ==
                 DataStep([], ResolveAll(old(listeners), chunks[0]), TypeError);
          return TypeError;
        }
        var listener := listeners[0];
        ghost var before := resolutions;
        listeners := listeners[1..];
        listener := listener.(text := listener.text + chunks[0]);
        resolutions := resolutions + [Resolution(listener.request, listener.text)];
        assert resolutions + ResolveAll(listeners, chunks[0]) ==
               before + ([Resolution(listener.request, listener.text)] + ResolveAll(listeners, chunks[0]));
      }
      if |listeners| == 0 {
        return TypeError;
      }
      assert ([listeners[0].(text := listeners[0].text + stream)] + listeners[1..])[1..] == listeners[1..];
      listeners := [listeners[0].(text := listeners[0].text + stream)] + listeners[1..];
      outcome := Handled;
    }

    /** The intended `onData`: the same logging, then one listener resolved
        and dequeued per NUL-terminated chunk while listeners wait, and the
        text after the last NUL added to the next one. */
    method OnDataCorrected(stream: string)
      requires Valid()
      modifies this
      ensures Valid()
      ensures output == old(output) + (if |old(listeners)| == 0 then [NoListenerMessage] else [])
      ensures var r := OnDataIntended(old(listeners), stream);
              listeners == r.listeners && resolutions == old(resolutions) + r.resolved
      ensures formatterProcess == old(formatterProcess) && requests == old(requests)
    {
      if |listeners| == 0 {
        output := output + [NoListenerMessage];
      }
      var chunks := Split(stream, EofChar);
      ghost var goal := OnDataIntended(listeners, stream);
      var i := 0;
      while i < |chunks| - 1 && |listeners| > 0
        invariant 0 <= i < |chunks|
        invariant QueueOk(listeners, requests)
        invariant ResolvePieces(listeners, chunks[i..]).listeners == goal.listeners
        invariant resolutions + ResolvePieces(listeners, chunks[i..]).resolved == old(resolutions) + goal.resolved
        invariant output == old(output) + (if |old(listeners)| == 0 then [NoListenerMessage] else [])
        invariant formatterProcess == old(formatterProcess) && requests == old(requests)
        decreases |chunks| - i
      {
        var listener := listeners[0];
        ghost var before := resolutions;
        ghost var rest := ResolvePieces(listeners[1..], chunks[i + 1..]);
        assert chunks[i..][0] == chunks[i] && chunks[i..][1..] == chunks[i + 1..];
        listeners := listeners[1..];
        listener := listener.(text := listener.text + chunks[i]);
        resolutions := resolutions + [Resolution(listener.request, listener.text)];
        assert resolutions + rest.resolved == before + ([Resolution(listener.request, listener.text)] + rest.resolved);
        i := i + 1;
      }
      if |listeners| > 0 {
        assert chunks[i..] == [chunks[i]];
        assert ([listeners[0].(text := listeners[0].text + chunks[i])] + listeners[1..])[1..] == listeners[1..];
        listeners := [listeners[0].(text := listeners[0].text + chunks[i])] + listeners[1..];
      } else {
        assert resolutions + [] == resolutions;
      }
    }
  }
}

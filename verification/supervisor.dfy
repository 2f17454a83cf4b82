/**
 * The job runner's supervisor: at most one k6 process is held in
 * `currentK6Process`, which each close event sets back to null; each run
 * coalesces its stdout into batches that each hold a line break before
 * pushing them to the browsers, forwards stderr as it comes, and announces
 * its summary when the process closes; a cancel request kills the process
 * the handle holds. A process is an abstract token (`Pid`), and the
 * signals the runner sends and the messages it delivers are recorded in
 * logs.
 */
module Supervisor {
  import opened Text
  import opened Protocol
  import ScriptGen

  type Pid = nat

  /** The `readyState` of a WebSocket connection. */
  datatype ReadyState = Connecting | Open | Closing | Closed

  datatype Client = Client(id: nat, readyState: ReadyState)

  /** One message sent on one connection. */
  datatype Delivery = Delivery(to: Client, message: Message)

  /** What the runner does to the operating system's processes. */
  datatype Signal = Spawn(pid: Pid) | Kill(pid: Pid)

  /** An HTTP reply: a `{ message }` body, or a status code with an `{ error }` body. */
  datatype Reply = Ok(message: string) | Err(status: nat, error: string)

  /** `wss.clients.forEach(...)` with the `OPEN` test: one delivery per open client, in the clients' order. */
  function Deliveries(clients: seq<Client>, m: Message): (r: seq<Delivery>)
    ensures |r| <= |clients|
    ensures clients != [] && clients[|clients| - 1].readyState == Open ==>
      r != [] && r[|r| - 1] == Delivery(clients[|clients| - 1], m)
  {
    if clients == [] then []
    else
      var init, last := clients[..|clients| - 1], clients[|clients| - 1];
      Deliveries(init, m) + (if last.readyState == Open then [Delivery(last, m)] else [])
  }

  /** A message goes to a connection exactly when it is one of the clients and open, and to no more connections than there are. */
  lemma {:induction false} DeliveredToOpen(clients: seq<Client>, m: Message)
    ensures |Deliveries(clients, m)| <= |clients|
    ensures forall d :: d in Deliveries(clients, m) <==> d.message == m && d.to in clients && d.to.readyState == Open
  {
    if clients != [] {
      var init, last := clients[..|clients| - 1], clients[|clients| - 1];
      assert clients == init + [last];
      DeliveredToOpen(init, m);
    }
  }

  /** Each open connection gets the message exactly once; the others get nothing. */
  lemma {:induction false} DeliveredOnce(clients: seq<Client>, m: Message, c: Client)
    requires Distinct(clients) && c in clients
    ensures multiset(Deliveries(clients, m))[Delivery(c, m)] == if c.readyState == Open then 1 else 0
  {
    var init, last := clients[..|clients| - 1], clients[|clients| - 1];
    assert clients == init + [last];
    var tail := if last.readyState == Open then [Delivery(last, m)] else [];
    assert Deliveries(clients, m) == Deliveries(init, m) + tail;
    if c == last {
      assert c !in init by {
        forall i | 0 <= i < |init| ensures init[i] != c {
          assert clients[i] != clients[|clients| - 1];
        }
      }
      DeliveredToOpen(init, m);
    } else {
      assert c in init;
      DeliveredOnce(init, m, c);
    }
  }

  /** A message sent to nobody, or the deliveries of a message. */
  function Announce(clients: seq<Client>, m: Option<Message>): seq<Delivery>
  {
    if m.Some? then Deliveries(clients, m.value) else []
  }

  /** The stdout buffer after a flush attempt, and the text pushed as an `output` message, if any. */
  datatype Flush = Flush(buffer: string, emitted: Option<string>)

  /** The text a flush pushed out, "" when it pushed nothing. */
  function Out(f: Flush): string
  {
    if f.emitted.Some? then f.emitted.value else ""
  }

  /** A buffer that holds a line break only when it holds nothing but white space. */
  predicate Pending(buffer: string)
  {
    '\n' in buffer ==> Blank(buffer)
  }

  /** `sendBufferedOutput`: push the whole buffer and empty it, unless it is blank. */
  function SendBuffered(buffer: string): (r: Flush)
    ensures Out(r) + r.buffer == buffer
    ensures r.emitted.Some? <==> !Blank(buffer)
    ensures r.emitted.Some? ==> r.buffer == ""
    ensures Pending(r.buffer)
  {
    if !Blank(buffer) then Flush("", Some(buffer)) else Flush(buffer, None)
  }

  /** The `output` message a flush pushes, if any. */
  function Pushed(f: Flush): Option<Message>
  {
    if f.emitted.Some? then Some(Output(f.emitted.value)) else None
  }

  /** The stdout handler: append the chunk, and send the buffer once it holds a line break. */
  function StdoutStep(buffer: string, chunk: string): (r: Flush)
    ensures Out(r) + r.buffer == buffer + chunk
    ensures r.emitted.Some? ==> '\n' in r.emitted.value && !Blank(r.emitted.value) && r.buffer == ""
    ensures r.emitted.None? ==> r.buffer == buffer + chunk
    ensures Pending(r.buffer)
  {
    var b := buffer + chunk;
    if '\n' in b then SendBuffered(b) else Flush(b, None)
  }

  /** The text of a sequence of chunks, one after the other. */
  function Transcript(chunks: seq<string>): string
  {
    if chunks == [] then "" else chunks[0] + Transcript(chunks[1..])
  }

  /** The stdout handler over a sequence of chunks: the `output` texts it pushes and the final buffer. */
  function Feed(buffer: string, chunks: seq<string>): (seq<string>, string)
    decreases |chunks|
  {
    if chunks == [] then ([], buffer)
    else
      var f := StdoutStep(buffer, chunks[0]);
      var rest := Feed(f.buffer, chunks[1..]);
      ((if f.emitted.Some? then [f.emitted.value] else []) + rest.0, rest.1)
  }

  /** The text of one pushed batch followed by later ones. */
  lemma TranscriptCons(f: Flush, later: seq<string>)
    ensures Transcript((if f.emitted.Some? then [f.emitted.value] else []) + later) == Out(f) + Transcript(later)
  {
    var head := if f.emitted.Some? then [f.emitted.value] else [];
    if f.emitted.Some? {
      assert (head + later)[0] == f.emitted.value;
      assert (head + later)[1..] == later;
    } else {
      assert head + later == later;
    }
  }

  /**
   * Coalescing loses and reorders nothing: what was pushed, followed by
   * what is still buffered, is the buffer followed by every chunk.
   */
  lemma {:induction false} FeedLossless(buffer: string, chunks: seq<string>)
    decreases |chunks|
    ensures Transcript(Feed(buffer, chunks).0) + Feed(buffer, chunks).1 == buffer + Transcript(chunks)
  {
    if chunks == [] {
      assert buffer + Transcript(chunks) == buffer;
    } else {
      var f := StdoutStep(buffer, chunks[0]);
      var rest := Feed(f.buffer, chunks[1..]);
      FeedLossless(f.buffer, chunks[1..]);
      TranscriptCons(f, rest.0);
      assert Feed(buffer, chunks).0 == (if f.emitted.Some? then [f.emitted.value] else []) + rest.0;
      assert Transcript(chunks) == chunks[0] + Transcript(chunks[1..]);
      AppendAssoc(Out(f), Transcript(rest.0), rest.1);
      AppendAssoc(Out(f), f.buffer, Transcript(chunks[1..]));
      AppendAssoc(buffer, chunks[0], Transcript(chunks[1..]));
    }
  }

  /** Every pushed text holds a line break and is not blank, and what stays buffered is pending. */
  lemma {:induction false} FeedBatches(buffer: string, chunks: seq<string>)
    decreases |chunks|
    ensures forall e :: e in Feed(buffer, chunks).0 ==> '\n' in e && !Blank(e)
    ensures chunks != [] ==> Pending(Feed(buffer, chunks).1)
  {
    if chunks != [] {
      var f := StdoutStep(buffer, chunks[0]);
      FeedBatches(f.buffer, chunks[1..]);
    }
  }

  /**
   * Over a whole run (the chunks, then the flush of the close handler) every
   * character of stdout is pushed, in order, except white space left over at
   * the end.
   */
  lemma RunTranscript(chunks: seq<string>)
    ensures var fed := Feed("", chunks);
      var last := SendBuffered(fed.1);
      Transcript(fed.0) + Out(last) + last.buffer == Transcript(chunks) && Blank(last.buffer)
  {
    var fed := Feed("", chunks);
    var last := SendBuffered(fed.1);
    assert Transcript(fed.0) + fed.1 == Transcript(chunks) by {
      FeedLossless("", chunks);
      assert "" + Transcript(chunks) == Transcript(chunks);
    }
    AppendAssoc(Transcript(fed.0), Out(last), last.buffer);
    assert Blank(last.buffer) by {
      if last.emitted.Some? {
        assert last.buffer == "";
      }
    }
  }

  /** The processes the runner started that have neither been killed nor exited. */
  function Live(spawned: set<Pid>, killed: set<Pid>, exited: set<Pid>): set<Pid>
  {
    spawned - killed - exited
  }

  function OptionSet(p: Option<Pid>): set<Pid>
  {
    if p.Some? then {p.value} else {}
  }

  /** `currentK6Process.kill()` when the handle holds a process, nothing otherwise. */
  function Kills(p: Option<Pid>): seq<Signal>
  {
    if p.Some? then [Kill(p.value)] else []
  }

  /** The handle is the one process still running, or null when none is. */
  predicate SingleFlight(current: Option<Pid>, spawned: set<Pid>, killed: set<Pid>, exited: set<Pid>)
  {
    && killed <= spawned && exited <= spawned
    && Live(spawned, killed, exited) == OptionSet(current)
  }

  /** The close handler clears the handle whichever process closed. */
  function ClearHandleAsWritten(current: Option<Pid>, closing: Pid): (r: Option<Pid>)
    ensures r.None?
  {
    None
  }

  /**
   * When a run is replaced by a new one, the killed process still closes
   * later, and its close handler then drops the handle of the run that is
   * still going: a cancel after that answers that no test is running.
   */
  lemma SupersededCloseDropsLiveRun()
    ensures SingleFlight(Some(2), {1, 2}, {1}, {})
    ensures ClearHandleAsWritten(Some(2), 1) == None
    ensures !SingleFlight(ClearHandleAsWritten(Some(2), 1), {1, 2}, {1}, {1})
  {
    assert Live({1, 2}, {1}, {}) == {2};
    assert 2 in Live({1, 2}, {1}, {1});
  }

  /** The handle is cleared only when the process that closed is the one it holds. */
  function ClearHandle(current: Option<Pid>, closing: Pid): (r: Option<Pid>)
    ensures r.None? <==> current.None? || current.value == closing
    ensures r.Some? ==> r == current
  {
    if current == Some(closing) then None else current
  }

  /** Closing a process keeps the single-flight invariant when the handle is cleared only for its own process. */
  lemma CloseKeepsSingleFlight(current: Option<Pid>, spawned: set<Pid>, killed: set<Pid>, exited: set<Pid>, closing: Pid)
    requires SingleFlight(current, spawned, killed, exited)
    requires closing in spawned && closing !in exited
    ensures SingleFlight(ClearHandle(current, closing), spawned, killed, exited + {closing})
  {
    if current != Some(closing) {
      assert closing !in Live(spawned, killed, exited);
    }
  }

  /** The handle, when it holds a process, holds one that is still running. */
  predicate HandleLive(current: Option<Pid>, spawned: set<Pid>, killed: set<Pid>, exited: set<Pid>)
  {
    && killed <= spawned && exited <= spawned
    && OptionSet(current) <= Live(spawned, killed, exited)
  }

  /** The close handler as written keeps the weaker invariant: a null handle holds no process. */
  lemma CloseKeepsHandleLive(current: Option<Pid>, spawned: set<Pid>, killed: set<Pid>, exited: set<Pid>, closing: Pid)
    requires HandleLive(current, spawned, killed, exited) && closing in spawned
    ensures HandleLive(ClearHandleAsWritten(current, closing), spawned, killed, exited + {closing})
  {
  }

  /** Killing the held process, if any, and holding a fresh one keeps the handle on a running process. */
  lemma StartKeepsHandleLive(current: Option<Pid>, spawned: set<Pid>, killed: set<Pid>, exited: set<Pid>, pid: Pid)
    requires HandleLive(current, spawned, killed, exited) && pid !in spawned
    ensures HandleLive(Some(pid), spawned + {pid}, killed + OptionSet(current), exited)
  {
    assert pid in Live(spawned + {pid}, killed + OptionSet(current), exited);
  }

  /** A cancel kills the held process and clears the handle: single flight is kept, and nothing is left running. */
  lemma CancelKeepsSingleFlight(current: Option<Pid>, spawned: set<Pid>, killed: set<Pid>, exited: set<Pid>)
    requires SingleFlight(current, spawned, killed, exited) && current.Some?
    ensures SingleFlight(None, spawned, killed + {current.value}, exited)
    ensures Live(spawned, killed + {current.value}, exited) == {}
  {
    assert Live(spawned, killed + {current.value}, exited) == Live(spawned, killed, exited) - {current.value};
  }

  /** Killing the held process, if any, and holding a fresh one keeps the single-flight invariant. */
  lemma StartKeepsSingleFlight(current: Option<Pid>, spawned: set<Pid>, killed: set<Pid>, exited: set<Pid>, pid: Pid)
    requires SingleFlight(current, spawned, killed, exited) && pid !in spawned
    ensures SingleFlight(Some(pid), spawned + {pid}, killed + OptionSet(current), exited)
  {
    assert Live(spawned + {pid}, killed + OptionSet(current), exited) == {pid};
  }

  /** Every process started has its own buffer, and no buffer holds a line break waiting to be pushed. */
  predicate Buffered(buffers: map<Pid, string>, spawned: set<Pid>)
  {
    buffers.Keys == spawned && forall p :: p in buffers ==> Pending(buffers[p])
  }

  lemma BufferUpdate(buffers: map<Pid, string>, spawned: set<Pid>, pid: Pid, b: string)
    requires Buffered(buffers, spawned) && Pending(b)
    ensures Buffered(buffers[pid := b], spawned + {pid})
  {
  }

  /** The `summary` message of a run whose summary file could be read and parsed. */
  function Announced(summary: Option<SummaryArtifact>): Option<Message>
  {
    if summary.Some? then Some(Summary(summary.value)) else None
  }

  /**
   * The corrected announcement: a process that was killed, by a cancel or by
   * a newer run, announces no summary, even when a summary file can be read.
   */
  function AnnouncedUnlessKilled(pid: Pid, signals: seq<Signal>, summary: Option<SummaryArtifact>): (r: Option<Message>)
    ensures r.Some? <==> Kill(pid) !in signals && summary.Some?
    ensures r.Some? ==> r.value == Summary(summary.value)
  {
    if Kill(pid) in signals then None else Announced(summary)
  }

  class Server {
    /** `currentK6Process`. */
    var current: Option<Pid>
    /** The last script written to `k6-script.js`, in intermediate form: its text is `ScriptGen.Render`. */
    var script: Option<ScriptGen.Script>
    /** Each run's own `outputBuffer`. */
    var buffers: map<Pid, string>
    /** The WebSocket server's connections. */
    const clients: seq<Client>
    /** Every message sent, in order. */
    var sent: seq<Delivery>
    /** Every process started or killed, in order. */
    var signals: seq<Signal>
    ghost var spawned: set<Pid>
    ghost var killed: set<Pid>
    ghost var exited: set<Pid>

    ghost predicate Valid()
      reads this`current, this`spawned, this`killed, this`exited, this`buffers
    {
      HandleLive(current, spawned, killed, exited) && Buffered(buffers, spawned)
    }

    constructor(clients: seq<Client>)
      ensures Valid()
      ensures current == None && script == None && buffers == map[]
      ensures this.clients == clients && sent == [] && signals == []
    {
      current := None;
      script := None;
      buffers := map[];
      this.clients := clients;
      sent := [];
      signals := [];
      spawned := {};
      killed := {};
      exited := {};
    }

    /** Sends a message to every open connection. */
    method Broadcast(m: Message)
      modifies this`sent
      ensures sent == old(sent) + Deliveries(clients, m)
    {
      var i := 0;
      while i < |clients|
        invariant 0 <= i <= |clients|
        invariant sent == old(sent) + Deliveries(clients[..i], m)
      {
        assert clients[..i + 1][..i] == clients[..i];
        if clients[i].readyState == Open {
          sent := sent + [Delivery(clients[i], m)];
        }
        i := i + 1;
      }
      assert clients[..|clients|] == clients;
    }

    /** Sends the message, if there is one, to every open connection. */
    method BroadcastAny(m: Option<Message>)
      modifies this`sent
      ensures sent == old(sent) + Announce(clients, m)
    {
      if m.Some? {
        Broadcast(m.value);
      }
    }

    /** Writes the script for the configuration to `k6-script.js`. */
    method WriteScript(cfg: ScriptGen.Config)
      modifies this`script
      ensures script == Some(ScriptGen.Generate(cfg))
    {
      script := Some(ScriptGen.Generate(cfg));
    }

    /**
     * `/run-test`: write the script for the configuration, kill the running
     * process if there is one, then start the new one with an empty buffer.
     */
    method Start(cfg: ScriptGen.Config, pid: Pid)
      requires Valid() && pid !in spawned
      modifies this`script, this`signals, this`killed, this`spawned, this`current, this`buffers
      ensures Valid()
      ensures script == Some(ScriptGen.Generate(cfg))
      ensures current == Some(pid)
      ensures signals == old(signals) + Kills(old(current)) + [Spawn(pid)]
      ensures killed == old(killed) + OptionSet(old(current))
      ensures spawned == old(spawned) + {pid} && exited == old(exited)
      ensures buffers == old(buffers)[pid := ""]
      ensures sent == old(sent)
    {
      WriteScript(cfg);
      signals := signals + Kills(current) + [Spawn(pid)];
      Launch(pid);
    }

    /** Marks the held process, if any, as killed and holds the new process `pid` with an empty buffer. */
    method Launch(pid: Pid)
      requires Valid() && pid !in spawned
      modifies this`killed, this`spawned, this`current, this`buffers
      ensures Valid()
      ensures current == Some(pid) && killed == old(killed) + OptionSet(old(current))
      ensures spawned == old(spawned) + {pid} && buffers == old(buffers)[pid := ""]
    {
      BufferUpdate(buffers, spawned, pid, "");
      StartKeepsHandleLive(current, spawned, killed, exited, pid);
      killed := killed + OptionSet(current);
      spawned := spawned + {pid};
      current := Some(pid);
      buffers := buffers[pid := ""];
    }

    /** Stores the buffer of run `pid`. */
    method SetBuffer(pid: Pid, b: string)
      requires Valid() && pid in buffers && Pending(b)
      modifies this`buffers
      ensures Valid()
      ensures buffers == old(buffers)[pid := b]
    {
      BufferUpdate(buffers, spawned, pid, b);
      assert spawned + {pid} == spawned;
      buffers := buffers[pid := b];
    }

    /** Records that process `pid` exited and sets the handle to null, whichever process it holds. */
    method Exit(pid: Pid)
      requires Valid() && pid in spawned && pid !in exited
      modifies this`current, this`exited
      ensures Valid()
      ensures current == ClearHandleAsWritten(old(current), pid) && exited == old(exited) + {pid}
    {
      CloseKeepsHandleLive(current, spawned, killed, exited, pid);
      current := ClearHandleAsWritten(current, pid);
      exited := exited + {pid};
    }

    /** A stdout chunk from process `pid`, handled by that run's own buffer. */
    method OnStdout(pid: Pid, chunk: string)
      requires Valid() && pid in buffers && pid !in exited
      modifies this`buffers, this`sent
      ensures Valid()
      ensures var f := StdoutStep(old(buffers[pid]), chunk);
        && buffers == old(buffers)[pid := f.buffer]
        && sent == old(sent) + Announce(clients, Pushed(f))
    {
      var f := StdoutStep(buffers[pid], chunk);
      SetBuffer(pid, f.buffer);
      BroadcastAny(Pushed(f));
    }

    /** A stderr chunk, forwarded at once as an `error` message. */
    method OnStderr(chunk: string)
      modifies this`sent
      ensures sent == old(sent) + Deliveries(clients, ErrorOutput(chunk))
    {
      Broadcast(ErrorOutput(chunk));
    }

    /**
     * Process `pid` closed: push what is left in its buffer, set the handle
     * to null even when it holds a newer process, announce the summary artifact if it
     * could be read, and answer the `/run-test` request.
     */
    method OnClose(pid: Pid, summary: Option<SummaryArtifact>) returns (reply: Reply)
      requires Valid() && pid in spawned && pid !in exited
      modifies this`buffers, this`sent, this`current, this`exited
      ensures Valid()
      ensures var f := SendBuffered(old(buffers[pid]));
        && buffers == old(buffers)[pid := f.buffer]
        && sent == old(sent)
          + Announce(clients, Pushed(f))
          + Announce(clients, Announced(summary))
      ensures current == None
      ensures exited == old(exited) + {pid}
      ensures reply == Ok("Test completed")
    {
      var f := SendBuffered(buffers[pid]);
      SetBuffer(pid, f.buffer);
      BroadcastAny(Pushed(f));
      Exit(pid);
      BroadcastAny(Announced(summary));
      reply := Ok("Test completed");
    }

    /**
     * The close handler with the corrected announcement: the same as
     * `OnClose`, except that a process that was killed announces no summary,
     * so nothing after its kill tells the page that a run completed.
     */
    method OnCloseCorrected(pid: Pid, summary: Option<SummaryArtifact>) returns (reply: Reply)
      requires Valid() && pid in spawned && pid !in exited
      modifies this`buffers, this`sent, this`current, this`exited
      ensures Valid()
      ensures var f := SendBuffered(old(buffers[pid]));
        && buffers == old(buffers)[pid := f.buffer]
        && sent == old(sent)
          + Announce(clients, Pushed(f))
          + Announce(clients, AnnouncedUnlessKilled(pid, signals, summary))
      ensures Kill(pid) in signals ==> forall i :: |old(sent)| <= i < |sent| ==> !sent[i].message.Summary?
      ensures current == None
      ensures exited == old(exited) + {pid}
      ensures reply == Ok("Test completed")
    {
      var f := SendBuffered(buffers[pid]);
      SetBuffer(pid, f.buffer);
      BroadcastAny(Pushed(f));
      Exit(pid);
      var m := AnnouncedUnlessKilled(pid, signals, summary);
      BroadcastAny(m);
      if Kill(pid) in signals {
        var added := Announce(clients, Pushed(f));
        if f.emitted.Some? {
          DeliveredToOpen(clients, Output(f.emitted.value));
        }
        assert sent == old(sent) + added;
        forall i | |old(sent)| <= i < |sent|
          ensures !sent[i].message.Summary?
        {
          assert sent[i] in added;
        }
      }
      reply := Ok("Test completed");
    }

    /**
     * `/cancel-test`: kill the running process, clear the handle, tell every
     * open connection, and answer; with nothing running, answer 400 and change
     * nothing.
     */
    method Cancel() returns (reply: Reply)
      requires Valid()
      modifies this`current, this`killed, this`signals, this`sent
      ensures Valid()
      ensures old(current).Some? ==>
        && current == None
        && Live(spawned, killed, exited) == old(Live(spawned, killed, exited)) - {old(current).value}
        && killed == old(killed) + {old(current).value}
        && signals == old(signals) + [Kill(old(current).value)]
        && sent == old(sent) + Deliveries(clients, Cancelled(CancelReason))
        && reply == Ok("Test cancelled")
      ensures old(current).None? ==>
        && current == old(current) && killed == old(killed) && signals == old(signals) && sent == old(sent)
        && reply == Err(400, "No test is currently running")
    {
      if current.Some? {
        signals := signals + [Kill(current.value)];
        killed := killed + {current.value};
        current := None;
        Broadcast(Cancelled(CancelReason));
        reply := Ok("Test cancelled");
      } else {
        reply := Err(400, "No test is currently running");
      }
    }
  }

  /**
   * Start run 1, start run 2, then run 1's close event arrives: the handle is
   * null while run 2 still runs, so a cancel answers 400, and a third start
   * kills nothing and leaves runs 2 and 3 both running.
   */
  method SupersededRunsOverlap(cfg: ScriptGen.Config, clients: seq<Client>) returns (s: Server, reply: Reply)
    ensures reply == Err(400, "No test is currently running")
    ensures s.signals == [Spawn(1), Kill(1), Spawn(2), Spawn(3)]
    ensures s.current == Some(3)
    ensures Live(s.spawned, s.killed, s.exited) == {2, 3}
  {
    s := new Server(clients);
    s.Start(cfg, 1);
    s.Start(cfg, 2);
    var _ := s.OnClose(1, None);
    reply := s.Cancel();
    s.Start(cfg, 3);
    assert Live({1, 2, 3}, {1}, {1}) == {2, 3};
  }

  /**
   * Start run 1 and cancel it; the killed process still writes a line and
   * then closes with a summary file in place. Its handlers are still
   * attached, so after the cancellation the clients get the line and the
   * summary, and the `/run-test` request is answered as completed.
   */
  method CancelledRunStillAnnounces(cfg: ScriptGen.Config, clients: seq<Client>, late: string, a: SummaryArtifact)
    returns (s: Server, cancelReply: Reply, runReply: Reply)
    requires '\n' in late && !Blank(late)
    ensures cancelReply == Ok("Test cancelled") && runReply == Ok("Test completed")
    ensures s.sent == Deliveries(clients, Cancelled(CancelReason)) + Deliveries(clients, Output(late)) + Deliveries(clients, Summary(a))
  {
    var cancelled, output := Deliveries(clients, Cancelled(CancelReason)), Deliveries(clients, Output(late));
    s := new Server(clients);
    s.Start(cfg, 1);
    assert s.buffers[1] == "" && s.sent == [];
    cancelReply := s.Cancel();
    assert s.sent == cancelled;
    assert StdoutStep("", late) == Flush("", Some(late)) by {
      assert "" + late == late;
    }
    s.OnStdout(1, late);
    assert s.buffers[1] == "" && s.sent == cancelled + output;
    assert SendBuffered("") == Flush("", None);
    runReply := s.OnClose(1, Some(a));
  }

  /**
   * The same events with the corrected close handler: the line written
   * after the cancel is still pushed, but no summary follows the
   * cancellation.
   */
  method CancelledRunCorrected(cfg: ScriptGen.Config, clients: seq<Client>, late: string, a: SummaryArtifact)
    returns (s: Server, cancelReply: Reply, runReply: Reply)
    requires '\n' in late && !Blank(late)
    ensures cancelReply == Ok("Test cancelled")
    ensures s.sent == Deliveries(clients, Cancelled(CancelReason)) + Deliveries(clients, Output(late))
    ensures forall i :: 0 <= i < |s.sent| ==> !s.sent[i].message.Summary?
  {
    var cancelled, output := Deliveries(clients, Cancelled(CancelReason)), Deliveries(clients, Output(late));
    s := new Server(clients);
    s.Start(cfg, 1);
    assert s.buffers[1] == "" && s.sent == [];
    cancelReply := s.Cancel();
    assert s.sent == cancelled && Kill(1) in s.signals;
    assert StdoutStep("", late) == Flush("", Some(late)) by {
      assert "" + late == late;
    }
    s.OnStdout(1, late);
    assert s.buffers[1] == "" && s.sent == cancelled + output;
    assert SendBuffered("") == Flush("", None);
    var sentBefore := s.sent;
    DeliveredToOpen(clients, Cancelled(CancelReason));
    DeliveredToOpen(clients, Output(late));
    assert forall i :: 0 <= i < |sentBefore| ==> sentBefore[i] in sentBefore;
    runReply := s.OnCloseCorrected(1, Some(a));
    assert s.sent == sentBefore;
  }
}

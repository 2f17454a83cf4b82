/**
 * The browser side of the protocol: the run log with its de-duplication of
 * repeated messages, the interpretation of each pushed message, the summary
 * table, the duration and ramp-up fields, the URL list and the header
 * object sent with a run.
 */
module Client {
  import opened Text
  import opened Headers
  import opened Protocol

  /** One line of the run log: the wall-clock time it was added and its text. */
  datatype Entry = Entry(time: string, message: string)

  /** The texts of a run log. */
  function Messages(log: seq<Entry>): (r: seq<string>)
    ensures |r| == |log|
    ensures log != [] ==> r[|r| - 1] == log[|log| - 1].message
  {
    if log == [] then [] else Messages(log[..|log| - 1]) + [log[|log| - 1].message]
  }

  /** No two neighbouring log lines carry the same text. */
  ghost predicate NoRepeats(ms: seq<string>)
  {
    forall i, j :: 0 <= i && j == i + 1 && j < |ms| ==> ms[i] != ms[j]
  }

  /** The updater of `addRunInfo`: the log unchanged if its last line already says `info`, else one more line. */
  function WithRunInfo(log: seq<Entry>, info: string, time: string): (r: seq<Entry>)
    ensures |r| > 0 && r[|r| - 1].message == info
    ensures |log| <= |r| <= |log| + 1
  {
    if |log| > 0 && log[|log| - 1].message == info then log else log + [Entry(time, info)]
  }

  /**
   * The log is left alone exactly when its last line already says `info`;
   * otherwise one line `(time, info)` is added. Either way it then ends with
   * `info` and keeps all its earlier lines.
   */
  lemma WithRunInfoAppends(log: seq<Entry>, info: string, time: string)
    ensures var r := WithRunInfo(log, info, time);
      && |r| > 0 && r[|r| - 1].message == info
      && |log| <= |r| <= |log| + 1 && r[..|log|] == log
      && (r == log <==> |log| > 0 && log[|log| - 1].message == info)
      && (|r| == |log| + 1 ==> r[|log|] == Entry(time, info))
  {
  }

  /** Adding a line never makes two neighbouring lines say the same thing. */
  lemma WithRunInfoNoRepeats(log: seq<Entry>, info: string, time: string)
    requires NoRepeats(Messages(log))
    ensures NoRepeats(Messages(WithRunInfo(log, info, time)))
  {
    var r := WithRunInfo(log, info, time);
    if r != log {
      assert Messages(r) == Messages(log) + [info];
    }
  }

  /** `addRunInfo` called for each text in turn. */
  function AddAll(log: seq<Entry>, infos: seq<string>, time: string): seq<Entry>
  {
    if infos == [] then log
    else WithRunInfo(AddAll(log, infos[..|infos| - 1], time), infos[|infos| - 1], time)
  }

  /** Collapses each run of equal neighbouring texts into one. */
  function Collapse(ms: seq<string>): (r: seq<string>)
    ensures |r| <= |ms|
    ensures ms == [] <==> r == []
    ensures ms != [] ==> r[0] == ms[0] && r[|r| - 1] == ms[|ms| - 1]
  {
    if |ms| <= 1 then ms
    else if ms[0] == ms[1] then Collapse(ms[1..])
    else [ms[0]] + Collapse(ms[1..])
  }

  /** A text without neighbouring repeats collapses to itself. */
  lemma {:induction false} CollapseNoRepeats(ms: seq<string>)
    requires NoRepeats(ms)
    ensures Collapse(ms) == ms
  {
    if |ms| > 1 {
      CollapseNoRepeats(ms[1..]);
      assert [ms[0]] + ms[1..] == ms;
    }
  }

  /** Collapsing a text with one more line at the end. */
  lemma {:induction false} CollapseSnoc(ms: seq<string>, m: string)
    ensures Collapse(ms + [m]) ==
      if ms != [] && ms[|ms| - 1] == m then Collapse(ms) else Collapse(ms) + [m]
  {
    if |ms| == 1 {
      assert (ms + [m])[1..] == [m];
    } else if |ms| > 1 {
      assert (ms + [m])[1..] == ms[1..] + [m];
      CollapseSnoc(ms[1..], m);
      if ms[0] != ms[1] {
        assert [ms[0]] + (Collapse(ms[1..]) + [m]) == ([ms[0]] + Collapse(ms[1..])) + [m];
      }
    } else {
      assert ms + [m] == [m];
    }
  }

  /**
   * Logging a batch of texts one by one keeps exactly one line for each run
   * of equal neighbouring texts, also across the end of the old log.
   */
  lemma {:induction false} AddAllCollapses(log: seq<Entry>, infos: seq<string>, time: string)
    requires NoRepeats(Messages(log))
    ensures Messages(AddAll(log, infos, time)) == Collapse(Messages(log) + infos)
  {
    if infos == [] {
      assert Messages(log) + infos == Messages(log);
      CollapseNoRepeats(Messages(log));
    } else {
      var init, m := infos[..|infos| - 1], infos[|infos| - 1];
      var before := AddAll(log, init, time);
      var prefix := Messages(log) + init;
      AddAllCollapses(log, init, time);
      SplitLast(infos);
      AppendAssoc(Messages(log), init, [m]);
      CollapseStep(before, prefix, m, time);
    }
  }

  /** One `addRunInfo` on a log whose texts are a collapsed text collapses that text with one more line. */
  lemma CollapseStep(before: seq<Entry>, prefix: seq<string>, m: string, time: string)
    requires Messages(before) == Collapse(prefix)
    ensures Messages(WithRunInfo(before, m, time)) == Collapse(prefix + [m])
  {
    CollapseSnoc(prefix, m);
    MessagesWithRunInfo(before, m, time);
    assert (before != [] && before[|before| - 1].message == m) <==> (prefix != [] && prefix[|prefix| - 1] == m);
  }

  /** The texts of the log after `addRunInfo`. */
  lemma MessagesWithRunInfo(log: seq<Entry>, info: string, time: string)
    ensures Messages(WithRunInfo(log, info, time)) ==
      if |log| > 0 && log[|log| - 1].message == info then Messages(log) else Messages(log) + [info]
  {
  }

  /** `addRunInfo` for one more text at the end of a batch. */
  lemma AddAllSnoc(log: seq<Entry>, infos: seq<string>, info: string, time: string)
    ensures AddAll(log, infos + [info], time) == WithRunInfo(AddAll(log, infos, time), info, time)
  {
    assert (infos + [info])[..|infos|] == infos;
  }

  /** The `forEach` callback of the `output` case: log the line trimmed, unless it is blank. */
  function LogLineValue(log: seq<Entry>, line: string, time: string): seq<Entry>
  {
    if Trim(line) != [] then WithRunInfo(log, Trim(line), time) else log
  }

  /** The callback applied to each line in turn. */
  function LogAllLines(log: seq<Entry>, lines: seq<string>, time: string): seq<Entry>
  {
    if lines == [] then log else LogLineValue(LogAllLines(log, lines[..|lines| - 1], time), lines[|lines| - 1], time)
  }

  /** The callback on one more line. */
  lemma LogAllLinesSnoc(log: seq<Entry>, lines: seq<string>, i: nat, time: string)
    requires i < |lines|
    ensures LogAllLines(log, lines[..i + 1], time) == LogLineValue(LogAllLines(log, lines[..i], time), lines[i], time)
  {
    assert lines[..i + 1][..i] == lines[..i];
  }

  /** Handling the lines one by one logs exactly the kept lines, one `addRunInfo` each. */
  lemma {:induction false} LogAllLinesIsAddAll(log: seq<Entry>, lines: seq<string>, time: string)
    ensures LogAllLines(log, lines, time) == AddAll(log, KeepLines(lines), time)
  {
    if lines != [] {
      var init, line := lines[..|lines| - 1], lines[|lines| - 1];
      LogAllLinesIsAddAll(log, init, time);
      if Trim(line) != [] {
        AddAllSnoc(log, KeepLines(init), Trim(line), time);
      } else {
        assert KeepLines(init) + [] == KeepLines(init);
      }
    }
  }

  /** All the lines handled: the kept lines logged. */
  lemma LogAllLinesKeeps(log: seq<Entry>, lines: seq<string>, time: string)
    ensures LogAllLines(log, lines[..|lines|], time) == AddAll(log, KeepLines(lines), time)
  {
    assert lines[..|lines|] == lines;
    LogAllLinesIsAddAll(log, lines, time);
  }

  /** The non-blank lines of an `output` message, trimmed, in order. */
  function KeepLines(lines: seq<string>): (r: seq<string>)
    ensures |r| <= |lines|
    ensures lines != [] && !Blank(lines[|lines| - 1]) ==> r != [] && r[|r| - 1] == Trim(lines[|lines| - 1])
    ensures lines != [] && Blank(lines[|lines| - 1]) ==> r == KeepLines(lines[..|lines| - 1])
  {
    if lines == [] then []
    else
      var init, line := lines[..|lines| - 1], lines[|lines| - 1];
      KeepLines(init) + (if Trim(line) != [] then [Trim(line)] else [])
  }

  /** A line with something in it and no white space at either end. */
  predicate Trimmed(l: string)
  {
    l != [] && !IsSpace(l[0]) && !IsSpace(l[|l| - 1])
  }

  /** Every logged line is non-empty and has no white space at either end. */
  lemma {:induction false} KeepLinesTrimmed(lines: seq<string>)
    ensures forall l :: l in KeepLines(lines) ==> Trimmed(l)
  {
    if lines != [] {
      var init, line := lines[..|lines| - 1], lines[|lines| - 1];
      KeepLinesTrimmed(init);
      var t := Trim(line);
      if t != [] {
        assert Trimmed(t);
        assert KeepLines(lines) == KeepLines(init) + [t];
      } else {
        assert KeepLines(lines) == KeepLines(init);
      }
    }
  }

  /** Lines are kept or dropped one by one, so the kept lines stay in their order. */
  lemma {:induction false} KeepLinesAppend(a: seq<string>, b: seq<string>)
    ensures KeepLines(a + b) == KeepLines(a) + KeepLines(b)
  {
    if b == [] {
      assert a + b == a;
    } else {
      var init, line := b[..|b| - 1], b[|b| - 1];
      DropLastOfAppend(a, b);
      KeepLinesAppend(a, init);
      AppendAssoc(KeepLines(a), KeepLines(init), if Trim(line) != [] then [Trim(line)] else []);
    }
  }

  /** One line is kept exactly when it is not blank, and then in trimmed form. */
  lemma KeepLine(line: string)
    ensures KeepLines([line]) == if Blank(line) then [] else [Trim(line)]
  {
    assert [line][..0] == [];
  }

  /** The lines an `output` message adds to the log. */
  function OutputLines(text: string): (r: seq<string>)
    ensures |r| <= |Split(text, '\n')|
    ensures '\n' !in text ==> r == if Blank(text) then [] else [Trim(text)]
  {
    if '\n' !in text then
      SplitWithoutSeparator(text, '\n');
      KeepLine(text);
      KeepLines(Split(text, '\n'))
    else
      KeepLines(Split(text, '\n'))
  }

  /** An `output` message made of lines logs each non-blank one, trimmed and in order. */
  lemma OutputOfLines(lines: seq<string>)
    requires |lines| >= 1
    requires forall i :: 0 <= i < |lines| ==> '\n' !in lines[i]
    ensures OutputLines(Join(lines, '\n')) == KeepLines(lines)
  {
    SplitJoin(lines, '\n');
  }

  /** How a number is shown in the summary; `toFixed(2)` rounding is not modelled. */
  datatype Ratio = Finite(value: real) | NaN | Infinity

  /** One field of the summary table. */
  datatype Shown = Label(text: string) | Count(n: nat) | Fixed(x: Ratio) | Percent(x: Ratio)

  datatype TestSummary = TestSummary(requestsMade: Shown, avgResponseTime: Shown, failedResponses: Shown)

  const NotAvailable := Label("N/A")
  const Failure := Label("Error")

  /** `fails / count * 100` in floating point: `NaN` for 0/0 and `Infinity` for a positive number over 0. */
  function FailedPercentage(fails: nat, count: nat): (r: Ratio)
    ensures count > 0 ==> r.Finite? && r.value * count as real == 100.0 * fails as real
    ensures count == 0 ==> (r == NaN <==> fails == 0) && (r == Infinity <==> fails > 0)
  {
    if count == 0 then (if fails == 0 then NaN else Infinity)
    else Finite(fails as real / count as real * 100.0)
  }

  /** `processTestSummary`: each field from its own metrics, or `"Error"` throughout when the metrics are missing. */
  function ProcessTestSummary(a: SummaryArtifact): (r: TestSummary)
    ensures a.metrics.None? ==> r == TestSummary(Failure, Failure, Failure)
    ensures a.metrics.Some? ==>
      var m := a.metrics.value;
      && (r.requestsMade == NotAvailable <==> m.httpReqs.None?)
      && (r.avgResponseTime == NotAvailable <==> m.httpReqDuration.None?)
      && (r.failedResponses == NotAvailable <==> m.httpReqs.None? || m.httpReqFailed.None?)
      && (r.failedResponses.Percent? <==> r.failedResponses != NotAvailable)
      && (m.httpReqs.Some? ==> r.requestsMade == Count(m.httpReqs.value.count))
      && (m.httpReqDuration.Some? ==> r.avgResponseTime == Fixed(Finite(m.httpReqDuration.value.avg)))
      && (m.httpReqs.Some? && m.httpReqFailed.Some? ==>
            r.failedResponses == Percent(FailedPercentage(m.httpReqFailed.value.fails, m.httpReqs.value.count)))
  {
    match a.metrics
    case None => TestSummary(Failure, Failure, Failure)
    case Some(m) =>
      var requestsMade := if m.httpReqs.Some? then Count(m.httpReqs.value.count) else NotAvailable;
      var avgResponseTime := if m.httpReqDuration.Some? then Fixed(Finite(m.httpReqDuration.value.avg)) else NotAvailable;
      var failedResponses :=
        if m.httpReqs.Some? && m.httpReqFailed.Some?
        then Fixed(FailedPercentage(m.httpReqFailed.value.fails, m.httpReqs.value.count))
        else NotAvailable;
      TestSummary(requestsMade, avgResponseTime,
        if failedResponses == NotAvailable then NotAvailable else Percent(failedResponses.x))
  }

  /** Each field depends only on the metrics it is computed from. */
  lemma SummaryFieldsIndependent(m1: Metrics, m2: Metrics)
    ensures m1.httpReqs == m2.httpReqs ==>
      ProcessTestSummary(SummaryArtifact(Some(m1))).requestsMade == ProcessTestSummary(SummaryArtifact(Some(m2))).requestsMade
    ensures m1.httpReqDuration == m2.httpReqDuration ==>
      ProcessTestSummary(SummaryArtifact(Some(m1))).avgResponseTime == ProcessTestSummary(SummaryArtifact(Some(m2))).avgResponseTime
    ensures m1.httpReqs == m2.httpReqs && m1.httpReqFailed == m2.httpReqFailed ==>
      ProcessTestSummary(SummaryArtifact(Some(m1))).failedResponses == ProcessTestSummary(SummaryArtifact(Some(m2))).failedResponses
  {
  }

  /** A `fails` of 5 with 100 requests is shown as 5 percent. */
  lemma FivePercentFailed(avg: real)
    ensures var s := ProcessTestSummary(SummaryArtifact(Some(Metrics(
        Some(RequestsMetric(100)), Some(DurationMetric(avg)), Some(FailedMetric(5))))));
      s == TestSummary(Count(100), Fixed(Finite(avg)), Percent(Finite(5.0)))
  {
  }

  /** `Math.floor(newDuration / 2)`. */
  function HalfDuration(duration: int): (r: int)
    ensures 2 * r <= duration < 2 * r + 2
  {
    duration / 2
  }

  /** `[...urls, ""]`. */
  function WithNewUrl(urls: seq<string>): (r: seq<string>)
    ensures |r| == |urls| + 1 && r[..|urls|] == urls && r[|urls|] == ""
  {
    urls + [""]
  }

  /** `urls.filter((_, i) => i !== index)`. */
  function WithoutUrlAt(urls: seq<string>, index: int): (r: seq<string>)
    ensures 0 <= index < |urls| ==> r == urls[..index] + urls[index + 1..]
    ensures !(0 <= index < |urls|) ==> r == urls
  {
    if urls == [] then []
    else
      var init, last := urls[..|urls| - 1], urls[|urls| - 1];
      var r := WithoutUrlAt(init, index) + (if |urls| - 1 != index then [last] else []);
      assert urls == init + [last];
      if 0 <= index < |urls| - 1 then
        assert urls[index + 1..] == init[index + 1..] + [last];
        r
      else r
  }

  /** The browser's state for one page. */
  class App {
    var loadProfile: string
    var users: int
    var duration: int
    var rampUpDuration: real
    var urls: seq<string>
    var httpMethod: string
    var isRunning: bool
    var headers: string
    var runInfo: seq<Entry>
    var testStatus: string
    var testSummary: Option<TestSummary>

    ghost predicate Valid()
      reads this`runInfo
    {
      NoRepeats(Messages(runInfo))
    }

    /** The initial `useState` values. */
    constructor()
      ensures Valid()
      ensures loadProfile == "constant" && users == 1 && duration == 5 && rampUpDuration == 2.5
      ensures urls == ["https://jsonplaceholder.typicode.com/posts"] && httpMethod == "GET"
      ensures !isRunning && headers == "Content-Type: application/json\nAuthorization: test"
      ensures runInfo == [] && testStatus == "idle" && testSummary == None
    {
      loadProfile := "constant";
      users := 1;
      duration := 5;
      rampUpDuration := 5.0 / 2.0;
      urls := ["https://jsonplaceholder.typicode.com/posts"];
      httpMethod := "GET";
      isRunning := false;
      headers := "Content-Type: application/json\nAuthorization: test";
      runInfo := [];
      testStatus := "idle";
      testSummary := None;
    }

    method AddRunInfo(info: string, time: string)
      requires Valid()
      modifies this`runInfo
      ensures Valid()
      ensures runInfo == WithRunInfo(old(runInfo), info, time)
    {
      WithRunInfoNoRepeats(runInfo, info, time);
      runInfo := WithRunInfo(runInfo, info, time);
    }

    /** One line of an `output` message: logged trimmed unless it is blank. */
    method LogLine(line: string, time: string)
      requires Valid()
      modifies this`runInfo
      ensures Valid()
      ensures runInfo == LogLineValue(old(runInfo), line, time)
    {
      var trimmed := Trim(line);
      if trimmed != [] {
        AddRunInfo(trimmed, time);
      }
    }

    /** The `output` case: log each non-blank line of the text, trimmed. */
    method LogOutput(text: string, time: string)
      requires Valid()
      modifies this`runInfo
      ensures Valid()
      ensures runInfo == AddAll(old(runInfo), OutputLines(text), time)
    {
      var lines := Split(text, '\n');
      for i := 0 to |lines|
        invariant Valid()
        invariant runInfo == LogAllLines(old(runInfo), lines[..i], time)
      {
        LogAllLinesSnoc(old(runInfo), lines, i, time);
        LogLine(lines[i], time);
      }
      LogAllLinesKeeps(old(runInfo), lines, time);
    }

    /** `ws.onmessage`: what each type of pushed message does to the page. */
    method OnMessage(m: Message, time: string)
      requires Valid()
      modifies this`runInfo, this`testStatus, this`isRunning, this`testSummary
      ensures Valid()
      ensures m.Output? ==>
        && runInfo == AddAll(old(runInfo), OutputLines(m.text), time)
        && testStatus == old(testStatus) && isRunning == old(isRunning) && testSummary == old(testSummary)
      ensures m.ErrorOutput? ==>
        && runInfo == WithRunInfo(old(runInfo), "Error: " + m.text, time)
        && testStatus == old(testStatus) && isRunning == old(isRunning) && testSummary == old(testSummary)
      ensures m.Summary? ==>
        && runInfo == WithRunInfo(old(runInfo), "Test completed", time)
        && testStatus == "completed" && !isRunning && testSummary == Some(ProcessTestSummary(m.artifact))
      ensures m.Cancelled? ==>
        && runInfo == WithRunInfo(old(runInfo), m.reason, time)
        && testStatus == "cancelled" && !isRunning && testSummary == old(testSummary)
      ensures m.Unrecognised? ==>
        && runInfo == old(runInfo)
        && testStatus == old(testStatus) && isRunning == old(isRunning) && testSummary == old(testSummary)
    {
      match m
      case Output(text) =>
        LogOutput(text, time);
      case ErrorOutput(text) =>
        AddRunInfo("Error: " + text, time);
      case Summary(artifact) =>
        AddRunInfo("Test completed", time);
        testStatus := "completed";
        isRunning := false;
        testSummary := Some(ProcessTestSummary(artifact));
      case Cancelled(reason) =>
        AddRunInfo(reason, time);
        isRunning := false;
        testStatus := "cancelled";
      case Unrecognised(tag) =>
    }

    /** A new duration also resets the ramp-up to half of it, rounded down. */
    method UpdateDurationAndRampUp(newDuration: int)
      modifies this`duration, this`rampUpDuration
      ensures duration == newDuration && rampUpDuration == HalfDuration(newDuration) as real
    {
      duration := newDuration;
      rampUpDuration := HalfDuration(newDuration) as real;
    }

    method AddUrl()
      modifies this`urls
      ensures urls == WithNewUrl(old(urls))
    {
      urls := WithNewUrl(urls);
    }

    /** Writes `value` at `index` of a copy of the list, then stores the copy. */
    method ChangeUrl(index: nat, value: string)
      requires index < |urls|
      modifies this`urls
      ensures |urls| == |old(urls)| && urls[index] == value
      ensures forall j :: 0 <= j < |urls| && j != index ==> urls[j] == old(urls)[j]
    {
      var newUrls := new string[|urls|](j requires 0 <= j < |urls| reads this => urls[j]);
      newUrls[index] := value;
      urls := newUrls[..];
    }

    method RemoveUrl(index: int)
      modifies this`urls
      ensures urls == WithoutUrlAt(old(urls), index)
    {
      urls := WithoutUrlAt(urls, index);
    }

    /** The header object sent with a run: the header text read line by line. */
    method HeadersObject() returns (h: HeaderList)
      ensures h == ParseHeadersAsWritten(headers)
      ensures DistinctKeys(h)
    {
      h := BuildHeaders(headers);
    }
  }

  /**
   * The page gets a cancellation, then a line and a summary from the run it
   * cancelled: the status it ends in is "completed", and the summary table
   * is filled in from the cancelled run's artifact.
   */
  method CancelledThenSummary(late: string, a: SummaryArtifact, time: string) returns (app: App)
    ensures app.testStatus == "completed" && !app.isRunning
    ensures app.testSummary == Some(ProcessTestSummary(a))
  {
    app := new App();
    app.OnMessage(Cancelled(CancelReason), time);
    app.OnMessage(Output(late), time);
    app.OnMessage(Summary(a), time);
  }
}

/** The live log stream of a job (`log_stream` inside `stream_job_logs`,
    src/logs.py): find the job's pod, then poll its log, emitting the lines
    not shown yet, until the pod is gone, reaches a terminal phase, or the
    reads fail. The answers of the cluster are scripted: the two initial pod
    listings and, per poll, the log read, the pod listing and the final log
    read. The stream is cut where the script ends. Events are the JSON
    payloads of the server-sent events. The loop and the stream take the
    line count they keep as a parameter: `AsWritten` is the program as it
    stands, `Corrected` the count that does not lose lines. */
module Logs {
  import opened Common

  /** The outcome of one cluster call: an answer, an `ApiException`, or
      any other exception. */
  datatype Outcome<T> = Got(value: T) | ApiFail(msg: string) | OtherFail(msg: string)

  /** The first pod of a pod listing, or none. */
  datatype PodList = NoPods | Pods(name: string, phase: string)

  /** One turn of the polling loop, as far as the cluster answers it. */
  datatype Poll = Poll(log: Outcome<string>, pods: Outcome<PodList>, finalLog: Outcome<string>)

  datatype Event =
    | Message(text: string)
    | ErrorEvent(text: string)
    | Started(pod: string, phase: string)
    | Final(phase: string, text: string)

  const MaxErrors := 10

  // The texts of the stream's fixed events.
  const TooManyErrorsText := "Too many errors: "
  const PodTerminated := "Pod has terminated"
  const JobWord := "Job "

  // ---------------------------------------------------------------------
  // Lines

  /** Python's `s.split('\n')`. */
  function SplitLines(s: string): (lines: seq<string>)
    ensures |lines| >= 1
  {
    if s == [] then [""]
    else if s[0] == '\n' then [""] + SplitLines(s[1..])
    else var rest := SplitLines(s[1..]); [[s[0]] + rest[0]] + rest[1..]
  }

  /** A log made of complete lines, each ended by a newline. */
  function JoinLines(lines: seq<string>): string {
    if lines == [] then "" else lines[0] + "\n" + JoinLines(lines[1..])
  }

  predicate IsLine(l: string) { forall k :: 0 <= k < |l| ==> l[k] != '\n' }

  lemma {:induction false} SplitAfterLine(l: string, t: string)
    requires IsLine(l)
    ensures SplitLines(l + "\n" + t) == [l] + SplitLines(t)
  {
    if l != [] {
      assert IsLine(l[1..]);
      SplitAfterLine(l[1..], t);
      assert (l + "\n" + t)[1..] == l[1..] + "\n" + t;
      assert (l + "\n" + t)[0] == l[0];
      assert [l[0]] + l[1..] == l;
    } else {
      assert (l + "\n" + t)[1..] == t;
    }
  }

  /** Splitting a newline-terminated log gives its lines and one empty piece. */
  lemma {:induction false} SplitJoin(lines: seq<string>)
    requires forall i :: 0 <= i < |lines| ==> IsLine(lines[i])
    ensures SplitLines(JoinLines(lines)) == lines + [""]
  {
    if lines != [] {
      SplitJoin(lines[1..]);
      SplitAfterLine(lines[0], JoinLines(lines[1..]));
    }
  }

  /** `not line.strip()`: the line is whitespace only. */
  predicate IsBlank(line: string) {
    forall k :: 0 <= k < |line| ==> IsSpace(line[k])
  }

  /** One message per line that is not blank, in order. */
  function NonBlankMessages(lines: seq<string>): (events: seq<Event>)
    ensures |events| <= |lines|
  {
    if lines == [] then []
    else (if !IsBlank(lines[0]) then [Message(lines[0])] else []) + NonBlankMessages(lines[1..])
  }

  /** Each event is a message carrying one of the lines, never a blank one. */
  lemma {:induction false} NonBlankMessagesShape(lines: seq<string>)
    ensures forall e :: e in NonBlankMessages(lines) ==> e.Message? && e.text in lines && !IsBlank(e.text)
  {
    if lines != [] {
      NonBlankMessagesShape(lines[1..]);
      forall e | e in NonBlankMessages(lines[1..])
        ensures e.text in lines
      {
        assert e.text in lines[1..];
      }
    }
  }

  lemma {:induction false} NonBlankMessagesAppend(a: seq<string>, b: seq<string>)
    ensures NonBlankMessages(a + b) == NonBlankMessages(a) + NonBlankMessages(b)
  {
    if a != [] {
      NonBlankMessagesAppend(a[1..], b);
      assert (a + b)[1..] == a[1..] + b;
    } else {
      assert a + b == b;
    }
  }

  /** `lines[last:]` with its blank lines dropped; past the end it is empty. */
  function PollDelta(lines: seq<string>, last: nat): seq<Event> {
    if last <= |lines| then NonBlankMessages(lines[last..]) else []
  }

  /** A read shows only messages, each a non-blank line of the read. */
  lemma PollDeltaShape(lines: seq<string>, last: nat)
    ensures forall i :: 0 <= i < |PollDelta(lines, last)| ==>
      PollDelta(lines, last)[i].Message? && PollDelta(lines, last)[i].text in lines && !IsBlank(PollDelta(lines, last)[i].text)
  {
    if last <= |lines| {
      NonBlankMessagesShape(lines[last..]);
      var events := PollDelta(lines, last);
      forall i | 0 <= i < |events|
        ensures events[i].Message? && events[i].text in lines && !IsBlank(events[i].text)
      {
        assert events[i] in NonBlankMessages(lines[last..]);
        assert events[i].text in lines[last..];
      }
    }
  }

  /** Emits the new lines of one read, one at a time. */
  method EmitNewLines(lines: seq<string>, last: nat) returns (out: seq<Event>)
    ensures out == PollDelta(lines, last)
  {
    out := [];
    if last > |lines| {
      return;
    }
    var rest := lines[last..];
    while rest != []
      invariant out + NonBlankMessages(rest) == NonBlankMessages(lines[last..])
    {
      if !IsBlank(rest[0]) {
        out := out + [Message(rest[0])];
      }
      rest := rest[1..];
    }
  }

  /** `last_line_count = len(lines)` as written: a log ending in a newline
      splits into its lines and one empty piece, and that piece is counted. */
  function LineCountAsWritten(lines: seq<string>): nat {
    |lines|
  }

  /** The number of lines shown: the empty piece after a final newline is
      not a line, so a line that later fills that index is still shown. */
  function LineCount(lines: seq<string>): (n: nat)
    ensures n <= |lines|
    ensures lines != [] && lines[|lines| - 1] == "" ==> n == |lines| - 1
  {
    if lines != [] && lines[|lines| - 1] == "" then |lines| - 1 else |lines|
  }

  /** Which count the loop keeps in `last_line_count` after a read: the
      program's `len(lines)`, or the corrected count. */
  datatype Counting = AsWritten | Corrected

  function Count(counting: Counting, lines: seq<string>): nat {
    match counting
    case AsWritten => LineCountAsWritten(lines)
    case Corrected => LineCount(lines)
  }

  /** The messages of successive reads of a log, starting after `last` lines. */
  function Deliver(counting: Counting, logs: seq<string>, last: nat): seq<Event> {
    if logs == [] then []
    else
      var lines := SplitLines(logs[0]);
      PollDelta(lines, last) + Deliver(counting, logs[1..], Count(counting, lines))
  }

  lemma SplitSamples()
    ensures SplitLines("a\n") == ["a", ""]
    ensures SplitLines("a\nb\n") == ["a", "b", ""]
  {
    SplitAfterLine("a", "");
    SplitAfterLine("b", "");
    SplitAfterLine("a", "b\n");
    assert "a\n" == "a" + "\n" + "";
    assert "a\nb\n" == "a" + "\n" + "b\n";
    assert "b\n" == "b" + "\n" + "";
  }

  /** The lines each read of the sample shows, and how each count ends. */
  lemma SampleDeltas()
    ensures PollDelta(SplitLines("a\n"), 0) == [Message("a")]
    ensures PollDelta(SplitLines("a\nb\n"), 2) == []
    ensures PollDelta(SplitLines("a\nb\n"), 1) == [Message("b")]
    ensures Count(AsWritten, SplitLines("a\n")) == 2 && Count(Corrected, SplitLines("a\n")) == 1
  {
    SplitSamples();
    var first: seq<string> := ["a", ""];
    var second: seq<string> := ["a", "b", ""];
    assert !IsBlank("a") && !IsBlank("b") && IsBlank("");
    assert NonBlankMessages([""]) == [];
    assert NonBlankMessages(["b", ""]) == [Message("b")];
    assert NonBlankMessages(first) == [Message("a")];
    assert first[0..] == first;
    assert second[2..] == [""];
    assert second[1..] == ["b", ""];
  }

  /** As written, a poll that finds one new line after a log that ended in
      a newline shows nothing: "b" is never shown. */
  lemma TrailingNewlineSkipsLine()
    ensures Deliver(AsWritten, ["a\n", "a\nb\n"], 0) == [Message("a")]
    ensures Deliver(Corrected, ["a\n", "a\nb\n"], 0) == [Message("a"), Message("b")]
  {
    SampleDeltas();
    var logs := ["a\n", "a\nb\n"];
    assert logs[0] == "a\n" && logs[1..] == ["a\nb\n"] && logs[1..][1..] == [];
    assert Deliver(AsWritten, logs, 0) == [Message("a")] + Deliver(AsWritten, logs[1..], 2);
    assert Deliver(AsWritten, logs[1..], 2) == [] + Deliver(AsWritten, [], 3);
    assert Deliver(Corrected, logs, 0) == [Message("a")] + Deliver(Corrected, logs[1..], 1);
    assert Deliver(Corrected, logs[1..], 1) == [Message("b")] + Deliver(Corrected, [], 2);
  }

  /** Reads of a growing log of complete lines, `counts[k]` lines at read k. */
  function GrowingLog(lines: seq<string>, counts: seq<nat>): (logs: seq<string>)
    requires forall k :: 0 <= k < |counts| ==> counts[k] <= |lines|
    ensures |logs| == |counts|
  {
    seq(|counts|, k requires 0 <= k < |counts| => JoinLines(lines[..counts[k]]))
  }

  /** One read of a log of complete lines counts them and shows the
      non-blank ones after `last`. */
  lemma ReadCompleteLines(lines: seq<string>, c: nat, last: nat)
    requires forall i :: 0 <= i < |lines| ==> IsLine(lines[i])
    requires last <= c <= |lines|
    ensures LineCount(SplitLines(JoinLines(lines[..c]))) == c
    ensures PollDelta(SplitLines(JoinLines(lines[..c])), last) == NonBlankMessages(lines[last..c])
  {
    assert forall i :: 0 <= i < |lines[..c]| ==> IsLine(lines[..c][i]);
    SplitJoin(lines[..c]);
    var split := lines[..c] + [""];
    assert split[last..] == lines[last..c] + [""];
    NonBlankMessagesAppend(lines[last..c], [""]);
    assert IsBlank("");
    assert NonBlankMessages([""]) == [];
  }

  lemma SliceSplit(lines: seq<string>, a: nat, b: nat, c: nat)
    requires a <= b <= c <= |lines|
    ensures lines[a..c] == lines[a..b] + lines[b..c]
  {
  }

  /** The number of lines in the last read, `last` when there is none. */
  function LastCount(counts: seq<nat>, last: nat): nat {
    if counts == [] then last else counts[|counts| - 1]
  }

  /** With the corrected count, successive reads of a log that only grows by
      complete lines show every non-blank line exactly once, in order. */
  lemma {:induction false} GrowingLogDelivery(lines: seq<string>, counts: seq<nat>, last: nat)
    requires forall i :: 0 <= i < |lines| ==> IsLine(lines[i])
    requires forall k :: 0 <= k < |counts| ==> last <= counts[k] <= |lines|
    requires forall k, m :: 0 <= k < m < |counts| ==> counts[k] <= counts[m]
    requires last <= LastCount(counts, last) <= |lines|
    ensures Deliver(Corrected, GrowingLog(lines, counts), last) == NonBlankMessages(lines[last..LastCount(counts, last)])
  {
    if counts != [] {
      var c := counts[0];
      var upTo := counts[|counts| - 1];
      var logs := GrowingLog(lines, counts);
      assert logs[0] == JoinLines(lines[..c]);
      ReadCompleteLines(lines, c, last);
      assert logs[1..] == GrowingLog(lines, counts[1..]);
      GrowingLogDelivery(lines, counts[1..], c);
      assert c <= upTo;
      SliceSplit(lines, last, c, upTo);
      NonBlankMessagesAppend(lines[last..c], lines[c..upTo]);
    } else {
      assert lines[last..last] == [];
    }
  }

  // ---------------------------------------------------------------------
  // The polling loop

  predicate IsTerminalPhase(phase: string) { phase == "Succeeded" || phase == "Failed" }

  /** What one turn of the loop yields: its events, and whether the loop
      stops or goes on with new counters. */
  datatype Step = Stop(events: seq<Event>) | Continue(events: seq<Event>, last: nat, errors: nat)

  /** One turn of the loop. An API failure of the log read counts against
      the error budget; any other failure stops the stream. A successful
      read shows the new lines, keeps the count `counting` gives, and resets
      the budget; the pod listing then ends the stream when the pod is gone,
      and a terminal phase shows the rest of the full log and the final
      status. */
  function PollStep(counting: Counting, p: Poll, last: nat, errors: nat): Step {
    match p.log
    case ApiFail(msg) =>
      if errors + 1 >= MaxErrors then Stop([ErrorEvent(TooManyErrorsText + msg)])
      else Continue([], last, errors + 1)
    case OtherFail(msg) => Stop([ErrorEvent(msg)])
    case Got(text) =>
      var lines := SplitLines(text);
      var shown := PollDelta(lines, last);
      var count := Count(counting, lines);
      match p.pods
      case ApiFail(_) => Continue(shown, count, 1)
      case OtherFail(msg) => Stop(shown + [ErrorEvent(msg)])
      case Got(NoPods) => Stop(shown + [Message(PodTerminated)])
      case Got(Pods(_, phase)) =>
        if IsTerminalPhase(phase) then
          match p.finalLog
          case ApiFail(_) => Continue(shown, count, 1)
          case OtherFail(msg) => Stop(shown + [ErrorEvent(msg)])
          case Got(full) => Stop(shown + PollDelta(SplitLines(full), count) + [Final(phase, JobWord + Lower(phase))])
        else Continue(shown, count, 0)
  }

  /** The events of the polling loop from a state (`last_line_count`,
      `consecutive_errors`) over the remaining polls. */
  function PollLoop(counting: Counting, polls: seq<Poll>, last: nat, errors: nat): seq<Event>
    decreases |polls|
  {
    if polls == [] then []
    else match PollStep(counting, polls[0], last, errors)
      case Stop(events) => events
      case Continue(events, last', errors') => events + PollLoop(counting, polls[1..], last', errors')
  }

  /** What the pod lookup yields: its events, and the pod it found, if any. */
  datatype Lookup = Found(events: seq<Event>, name: string, phase: string) | Missing(events: seq<Event>)

  /** The pod lookup: a failed listing is an error; an empty one shows the
      waiting message and lists once more, and a second empty listing is
      "Pod not found". */
  function PodLookup(first: Outcome<PodList>, retry: Outcome<PodList>): Lookup {
    match first
    case ApiFail(msg) => Missing([ErrorEvent(msg)])
    case OtherFail(msg) => Missing([ErrorEvent(msg)])
    case Got(Pods(name, phase)) => Found([], name, phase)
    case Got(NoPods) =>
      var waiting := [Message("No pod found yet. Waiting...")];
      match retry
      case ApiFail(msg) => Missing(waiting + [ErrorEvent(msg)])
      case OtherFail(msg) => Missing(waiting + [ErrorEvent(msg)])
      case Got(NoPods) => Missing(waiting + [ErrorEvent("Pod not found")])
      case Got(Pods(name, phase)) => Found(waiting, name, phase)
  }

  /** The whole stream, from the availability check and the pod lookup. */
  function LogStream(counting: Counting, k8sAvailable: bool, first: Outcome<PodList>, retry: Outcome<PodList>, polls: seq<Poll>): seq<Event> {
    if !k8sAvailable then [ErrorEvent("Kubernetes not available")]
    else match PodLookup(first, retry)
      case Missing(events) => events
      case Found(events, name, phase) => events + [Started(name, phase)] + PollLoop(counting, polls, 0, 0)
  }

  /** `log_stream`: the availability check, the pod lookup, then the loop. */
  method StreamJobLogs(counting: Counting, k8sAvailable: bool, first: Outcome<PodList>, retry: Outcome<PodList>, polls: seq<Poll>)
    returns (events: seq<Event>)
    ensures events == LogStream(counting, k8sAvailable, first, retry, polls)
  {
    if !k8sAvailable {
      return [ErrorEvent("Kubernetes not available")];
    }
    var lookup := FindPod(first, retry);
    match lookup {
      case Missing(out) =>
        events := out;
      case Found(out, name, phase) =>
        var polled := RunPollLoop(counting, polls);
        events := out + [Started(name, phase)] + polled;
    }
  }

  /** The lookup as `log_stream` runs it, with one retry after an empty listing. */
  method FindPod(first: Outcome<PodList>, retry: Outcome<PodList>) returns (lookup: Lookup)
    ensures lookup == PodLookup(first, retry)
  {
    var pods := first;
    var out := [];
    if pods.Got? && pods.value.NoPods? {
      out := [Message("No pod found yet. Waiting...")];
      pods := retry;
    }
    match pods {
      case ApiFail(msg) =>
        lookup := Missing(out + [ErrorEvent(msg)]);
      case OtherFail(msg) =>
        lookup := Missing(out + [ErrorEvent(msg)]);
      case Got(NoPods) =>
        lookup := Missing(out + [ErrorEvent("Pod not found")]);
      case Got(Pods(name, phase)) =>
        lookup := Found(out, name, phase);
    }
  }

  /** The `while True` loop of `log_stream`, from zeroed counters. */
  method RunPollLoop(counting: Counting, polls: seq<Poll>) returns (events: seq<Event>)
    ensures events == PollLoop(counting, polls, 0, 0)
  {
    events := [];
    var last, errors := 0, 0;
    var i := 0;
    while i < |polls|
      invariant i <= |polls|
      invariant events + PollLoop(counting, polls[i..], last, errors) == PollLoop(counting, polls, 0, 0)
    {
      var step := LoopTurn(counting, polls, i, last, errors);
      events := events + step.events;
      if step.Stop? {
        return;
      }
      last, errors := step.last, step.errors;
      i := i + 1;
    }
    assert polls[i..] == [];
  }

  /** One turn at position i, stated as the loop from i: the turn's events,
      then nothing if it stopped, else the loop from i + 1. */
  method LoopTurn(counting: Counting, polls: seq<Poll>, i: nat, last: nat, errors: nat) returns (step: Step)
    requires i < |polls|
    ensures step.Stop? ==> PollLoop(counting, polls[i..], last, errors) == step.events
    ensures step.Continue? ==>
      PollLoop(counting, polls[i..], last, errors) == step.events + PollLoop(counting, polls[i + 1..], step.last, step.errors)
  {
    step := PollOnce(counting, polls[i], last, errors);
    assert polls[i..][0] == polls[i] && polls[i..][1..] == polls[i + 1..];
  }

  /** One turn of the loop body. */
  method PollOnce(counting: Counting, p: Poll, last: nat, errors: nat) returns (step: Step)
    ensures step == PollStep(counting, p, last, errors)
  {
    var out, done, last', errors' := [], false, last, errors;
    match p.log {
      case ApiFail(msg) =>
        errors' := errors + 1;
        if errors' >= MaxErrors {
          out, done := [ErrorEvent(TooManyErrorsText + msg)], true;
        }
      case OtherFail(msg) =>
        out, done := [ErrorEvent(msg)], true;
      case Got(text) =>
        var lines := SplitLines(text);
        out := EmitNewLines(lines, last);
        last' := Count(counting, lines);
        errors' := 0;
        match p.pods {
          case ApiFail(_) =>
            errors' := errors' + 1;
          case OtherFail(msg) =>
            out, done := out + [ErrorEvent(msg)], true;
          case Got(listing) =>
            if listing.NoPods? {
              out, done := out + [Message(PodTerminated)], true;
            } else if IsTerminalPhase(listing.phase) {
              match p.finalLog {
                case ApiFail(_) =>
                  errors' := errors' + 1;
                case OtherFail(msg) =>
                  out, done := out + [ErrorEvent(msg)], true;
                case Got(full) =>
                  var rest := EmitNewLines(SplitLines(full), last');
                  out, done := out + rest + [Final(listing.phase, JobWord + Lower(listing.phase))], true;
              }
            }
        }
    }
    step := if done then Stop(out) else Continue(out, last', errors');
  }

  // ---------------------------------------------------------------------
  // Properties

  /** Without a cluster the stream is one error; without a pod after the
      retry it is the waiting message and "Pod not found". */
  lemma EarlyExits(counting: Counting, first: Outcome<PodList>, retry: Outcome<PodList>, polls: seq<Poll>)
    ensures LogStream(counting, false, first, retry, polls) == [ErrorEvent("Kubernetes not available")]
    ensures first == Got(NoPods) && retry == Got(NoPods) ==>
      LogStream(counting, true, first, retry, polls) == [Message("No pod found yet. Waiting..."), ErrorEvent("Pod not found")]
  {
  }

  predicate AllMessages(events: seq<Event>) {
    forall i :: 0 <= i < |events| ==> events[i].Message?
  }

  /** Only the last event may be other than a message. */
  predicate EndsAtStop(events: seq<Event>) {
    forall i :: 0 <= i < |events| - 1 ==> events[i].Message?
  }

  /** A turn that goes on emits only messages; a turn that stops puts its
      error or final status last. */
  lemma PollStepShape(counting: Counting, p: Poll, last: nat, errors: nat)
    ensures PollStep(counting, p, last, errors).Continue? ==> AllMessages(PollStep(counting, p, last, errors).events)
    ensures PollStep(counting, p, last, errors).Stop? ==> EndsAtStop(PollStep(counting, p, last, errors).events)
  {
    if p.log.Got? {
      var lines := SplitLines(p.log.value);
      PollDeltaShape(lines, last);
      if p.pods.Got? && p.pods.value.Pods? && IsTerminalPhase(p.pods.value.phase) && p.finalLog.Got? {
        var shown := PollDelta(lines, last);
        var rest := PollDelta(SplitLines(p.finalLog.value), Count(counting, lines));
        PollDeltaShape(SplitLines(p.finalLog.value), Count(counting, lines));
        assert EndsAtStop(shown + rest + [Final(p.pods.value.phase, JobWord + Lower(p.pods.value.phase))]) by {
          forall i | 0 <= i < |shown + rest|
            ensures (shown + rest)[i].Message?
          {
            if i >= |shown| {
              assert (shown + rest)[i] == rest[i - |shown|];
            }
          }
        }
      }
    }
  }

  /** Errors and the final status end the stream: nothing follows them. */
  lemma {:induction false} PollLoopStopsAtEnd(counting: Counting, polls: seq<Poll>, last: nat, errors: nat)
    ensures EndsAtStop(PollLoop(counting, polls, last, errors))
  {
    if polls != [] {
      PollStepShape(counting, polls[0], last, errors);
      match PollStep(counting, polls[0], last, errors) {
        case Stop(_) =>
        case Continue(events, last', errors') =>
          PollLoopStopsAtEnd(counting, polls[1..], last', errors');
          var rest := PollLoop(counting, polls[1..], last', errors');
          assert PollLoop(counting, polls, last, errors) == events + rest;
          forall i | 0 <= i < |events + rest| - 1
            ensures (events + rest)[i].Message?
          {
            if i >= |events| {
              assert (events + rest)[i] == rest[i - |events|];
            }
          }
      }
    }
  }

  /** A poll ends the stream when the log read fails other than through the
      API, when the pod is gone, and when the pod reached a terminal phase
      and the full log was read: then the rest of the full log and the
      final status are the last events. */
  lemma PollExits(counting: Counting, polls: seq<Poll>, last: nat, errors: nat)
    requires polls != []
    ensures polls[0].log.OtherFail? ==> PollLoop(counting, polls, last, errors) == [ErrorEvent(polls[0].log.msg)]
    ensures polls[0].log.Got? && polls[0].pods == Got(NoPods) ==>
      PollLoop(counting, polls, last, errors) ==
        PollDelta(SplitLines(polls[0].log.value), last) + [Message(PodTerminated)]
    ensures (polls[0].log.Got? && polls[0].pods.Got? && polls[0].pods.value.Pods? &&
             IsTerminalPhase(polls[0].pods.value.phase) && polls[0].finalLog.Got?) ==>
      var lines := SplitLines(polls[0].log.value);
      var phase := polls[0].pods.value.phase;
      PollLoop(counting, polls, last, errors) ==
        PollDelta(lines, last) + PollDelta(SplitLines(polls[0].finalLog.value), Count(counting, lines))
          + [Final(phase, JobWord + Lower(phase))]
  {
  }

  /** Fewer than `MaxErrors` consecutive API failures are absorbed... */
  lemma {:induction false} ApiFailuresAbsorbed(counting: Counting, polls: seq<Poll>, last: nat, errors: nat, k: nat)
    requires k <= |polls| && errors + k < MaxErrors
    requires forall i :: 0 <= i < k ==> polls[i].log.ApiFail?
    ensures PollLoop(counting, polls, last, errors) == PollLoop(counting, polls[k..], last, errors + k)
  {
    if k > 0 {
      assert PollStep(counting, polls[0], last, errors) == Continue([], last, errors + 1);
      assert PollLoop(counting, polls, last, errors) == PollLoop(counting, polls[1..], last, errors + 1);
      ApiFailuresAbsorbed(counting, polls[1..], last, errors + 1, k - 1);
      assert polls[1..][k - 1..] == polls[k..];
    }
  }

  /** ...and the one that brings the count to `MaxErrors` ends the stream
      with an error naming it. */
  lemma TooManyErrors(counting: Counting, polls: seq<Poll>, last: nat, errors: nat)
    requires errors < MaxErrors && MaxErrors - errors <= |polls|
    requires forall i :: 0 <= i < MaxErrors - errors ==> polls[i].log.ApiFail?
    ensures PollLoop(counting, polls, last, errors) ==
      [ErrorEvent(TooManyErrorsText + polls[MaxErrors - errors - 1].log.msg)]
  {
    var k := MaxErrors - errors - 1;
    ApiFailuresAbsorbed(counting, polls, last, errors, k);
    assert polls[k..][0] == polls[k];
  }

  /** A poll that reads the log of a pod still running shows its new lines
      and resets the error count. */
  lemma SuccessfulPollResets(counting: Counting, polls: seq<Poll>, last: nat, errors: nat)
    requires polls != [] && polls[0].log.Got? && polls[0].pods.Got? && polls[0].pods.value.Pods?
    requires !IsTerminalPhase(polls[0].pods.value.phase)
    ensures var lines := SplitLines(polls[0].log.value);
      PollLoop(counting, polls, last, errors) == PollDelta(lines, last) + PollLoop(counting, polls[1..], Count(counting, lines), 0)
  {
  }

  /** While the pod keeps running and every read succeeds, the stream is
      exactly the delivery of the successive reads. */
  lemma {:induction false} RunningPollsDeliver(counting: Counting, polls: seq<Poll>, last: nat, errors: nat)
    requires forall i :: 0 <= i < |polls| ==>
      polls[i].log.Got? && polls[i].pods.Got? && polls[i].pods.value.Pods? && !IsTerminalPhase(polls[i].pods.value.phase)
    ensures PollLoop(counting, polls, last, errors) == Deliver(counting, seq(|polls|, i requires 0 <= i < |polls| => polls[i].log.value), last)
  {
    var logs := seq(|polls|, i requires 0 <= i < |polls| => polls[i].log.value);
    if polls != [] {
      RunningPollsDeliver(counting, polls[1..], Count(counting, SplitLines(polls[0].log.value)), 0);
      assert logs[1..] == seq(|polls[1..]|, i requires 0 <= i < |polls[1..]| => polls[1..][i].log.value);
    }
  }

  /** The stream as the loop runs it: a pod that keeps running while its
      log reads "a\n" and then "a\nb\n" never shows "b"; with the corrected
      count it does. */
  lemma StreamSkipsLine(polls: seq<Poll>)
    requires |polls| == 2 && polls[0].log == Got("a\n") && polls[1].log == Got("a\nb\n")
    requires forall i :: 0 <= i < 2 ==> polls[i].pods.Got? && polls[i].pods.value.Pods? && !IsTerminalPhase(polls[i].pods.value.phase)
    ensures PollLoop(AsWritten, polls, 0, 0) == [Message("a")]
    ensures PollLoop(Corrected, polls, 0, 0) == [Message("a"), Message("b")]
  {
    var logs := seq(|polls|, i requires 0 <= i < |polls| => polls[i].log.value);
    assert logs == ["a\n", "a\nb\n"];
    RunningPollsDeliver(AsWritten, polls, 0, 0);
    RunningPollsDeliver(Corrected, polls, 0, 0);
    TrailingNewlineSkipsLine();
  }
}

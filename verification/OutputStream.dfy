/** The output of a running command: from the process server over the client to the stored task. */
module OutputStream {
  import opened TaskState
  import opened Tasks
  import opened WorkerSpec

  // ---------------------------------------------------------------- updating the task

  /** The outputs that end a task. */
  predicate Ends(o: Output) {
    o.state == "completed" || o.state == "failed"
  }

  function FirstEnd(outputs: seq<Output>): (k: nat)
    ensures k <= |outputs|
    ensures forall i :: 0 <= i < k ==> !Ends(outputs[i])
    ensures k < |outputs| ==> Ends(outputs[k])
  {
    if outputs == [] || Ends(outputs[0]) then 0 else 1 + FirstEnd(outputs[1..])
  }

  lemma {:induction false} FinishedStaysFinished(t: Task, outputs: seq<Output>)
    requires Terminal(t.state)
    ensures UpdatedBy(t, outputs).state == t.state && UpdatedBy(t, outputs).finishTime == t.finishTime
    decreases |outputs|
  {
    if outputs != [] {
      FinishedStaysFinished(Updated(t, outputs[0]), outputs[1..]);
    }
  }

  /** The first "completed" or "failed" decides how a running task ends; without one it keeps running, and
      nothing that comes later changes state or finish time. */
  lemma {:induction false} FirstEndWins(t: Task, outputs: seq<Output>)
    requires t.state == Running
    ensures var r, k := UpdatedBy(t, outputs), FirstEnd(outputs);
      if k == |outputs| then r.state == Running && r.finishTime == t.finishTime
      else if outputs[k].state == "completed" then r.state == Completed && r.finishTime == Some(outputs[k].now)
      else r.state == Failed && r.finishTime == t.finishTime
    decreases |outputs|
  {
    if outputs != [] {
      var next := Updated(t, outputs[0]);
      if Ends(outputs[0]) {
        FinishedStaysFinished(next, outputs[1..]);
      } else {
        FirstEndWins(next, outputs[1..]);
      }
    }
  }

  lemma {:induction false} UnrecognisedChangesNothing(t: Task, outputs: seq<Output>)
    requires forall o :: o in outputs ==> !Recognised(o)
    ensures UpdatedBy(t, outputs) == t
    decreases |outputs|
  {
    if outputs != [] {
      UnrecognisedChangesNothing(t, outputs[1..]);
    }
  }

  lemma {:induction false} UpdatedByAppend(t: Task, outputs: seq<Output>, last: Output)
    ensures UpdatedBy(t, outputs + [last]) == Updated(UpdatedBy(t, outputs), last)
    decreases |outputs|
  {
    if outputs == [] {
      assert UpdatedBy(t, [last]) == UpdatedBy(Updated(t, last), []);
    } else {
      assert (outputs + [last])[1..] == outputs[1..] + [last];
      UpdatedByAppend(Updated(t, outputs[0]), outputs[1..], last);
    }
  }

  // ---------------------------------------------------------------- the client

  /** What one receive on the stream yields. */
  datatype Received = Message(output: Output) | Eof | Broken(msg: string, now: Time)

  /** The output that the client makes up when the stream breaks. */
  function Failure(r: Received): Output
    requires r.Broken?
  {
    Output("failed", 0, r.msg, r.now)
  }

  /** What the client forwards if its deadline passes at its `patience`-th send, at the earliest. */
  function Forwarded(events: seq<Received>, patience: nat): seq<Output>
    decreases |events|
  {
    if events == [] || events[0].Eof? then []
    else if events[0].Broken? then [Failure(events[0])]
    else if patience == 0 then []
    else [events[0].output] + if Ends(events[0].output) then [] else Forwarded(events[1..], patience - 1)
  }

  lemma SendsFirst(sent: seq<Output>, events: seq<Received>, patience: nat)
    requires events != [] && events[0].Message? && patience > 0
    ensures var o := events[0].output;
      sent + Forwarded(events, patience) ==
      sent + [o] + if Ends(o) then [] else Forwarded(events[1..], patience - 1)
  {
  }

  method Forward(events: seq<Received>, patience: nat) returns (sent: seq<Output>)
    ensures sent == Forwarded(events, patience)
  {
    sent := [];
    var left := patience;
    for i := 0 to |events|
      invariant sent + Forwarded(events[i..], left) == Forwarded(events, patience)
    {
      assert events[i..][0] == events[i] && events[i..][1..] == events[i + 1..];
      match events[i] {
        case Eof =>
          return;
        case Broken(_, _) =>
          sent := sent + [Failure(events[i])];
          return;
        case Message(output) =>
          if left == 0 {
            return;
          }
          SendsFirst(sent, events[i..], left);
          sent := sent + [output];
          left := left - 1;
          if Ends(output) {
            return;
          }
      }
    }
  }

  /** The outputs received before the stream ends or breaks. */
  function Messages(events: seq<Received>): seq<Output> {
    if events == [] || !events[0].Message? then [] else [events[0].output] + Messages(events[1..])
  }

  /** The stream broke, and the client neither timed out nor saw the end of the task before. */
  predicate BreakSeen(events: seq<Received>, patience: nat) {
    var n := |Messages(events)|;
    n < |events| && events[n].Broken? && n <= patience && FirstEnd(Messages(events)) == n
  }

  /** How many outputs are passed on: up to and including the first end, but no more than `patience`. */
  function Passed(ms: seq<Output>, patience: nat): (m: nat)
    ensures m <= |ms|
  {
    var n := if FirstEnd(ms) < |ms| then FirstEnd(ms) + 1 else |ms|;
    if patience < n then patience else n
  }

  function OwnFailure(events: seq<Received>, patience: nat): seq<Output> {
    if BreakSeen(events, patience) then [Failure(events[|Messages(events)|])] else []
  }

  /** What is forwarded: a prefix of the received outputs, followed by a failure of the client's own exactly
      if it saw the stream break. */
  ghost predicate ForwardsPrefix(events: seq<Received>, patience: nat) {
    var ms := Messages(events);
    Forwarded(events, patience) == ms[..Passed(ms, patience)] + OwnFailure(events, patience)
  }

  predicate GoesOn(events: seq<Received>, patience: nat) {
    events != [] && events[0].Message? && patience > 0 && !Ends(events[0].output)
  }

  lemma ForwardStops(events: seq<Received>, patience: nat)
    requires !GoesOn(events, patience)
    ensures ForwardsPrefix(events, patience)
  {
    if events != [] && events[0].Message? {
      assert patience == 0 || FirstEnd(Messages(events)) == 0;
    }
  }

  lemma SameFailure(events: seq<Received>, patience: nat)
    requires GoesOn(events, patience)
    ensures OwnFailure(events, patience) == OwnFailure(events[1..], patience - 1)
  {
    var ms, rest := Messages(events), events[1..];
    assert ms[1..] == Messages(rest);
    assert |ms| < |events| ==> events[|ms|] == rest[|ms| - 1];
  }

  lemma OneMorePassed(ms: seq<Output>, patience: nat)
    requires ms != [] && patience > 0 && !Ends(ms[0])
    ensures Passed(ms, patience) == Passed(ms[1..], patience - 1) + 1
  {
  }

  lemma TakeOneMore(ms: seq<Output>, m: nat, own: seq<Output>)
    requires ms != [] && m <= |ms| - 1
    ensures ms[..m + 1] + own == [ms[0]] + (ms[1..][..m] + own)
  {
  }

  lemma ForwardGoesOn(events: seq<Received>, patience: nat)
    requires GoesOn(events, patience) && ForwardsPrefix(events[1..], patience - 1)
    ensures ForwardsPrefix(events, patience)
  {
    var ms := Messages(events);
    assert ms[1..] == Messages(events[1..]);
    SameFailure(events, patience);
    OneMorePassed(ms, patience);
    TakeOneMore(ms, Passed(ms[1..], patience - 1), OwnFailure(events, patience));
  }

  lemma {:induction false} ForwardedIsPrefix(events: seq<Received>, patience: nat)
    ensures ForwardsPrefix(events, patience)
    decreases |events|
  {
    if GoesOn(events, patience) {
      ForwardedIsPrefix(events[1..], patience - 1);
      ForwardGoesOn(events, patience);
    } else {
      ForwardStops(events, patience);
    }
  }

  /** At most one forwarded output ends the task, and only the last can. */
  lemma {:induction false} OnlyTheLastEnds(events: seq<Received>, patience: nat)
    ensures var f := Forwarded(events, patience); forall i :: 0 <= i < |f| - 1 ==> !Ends(f[i])
  {
    ForwardedIsPrefix(events, patience);
  }

  /** How ExecuteCommand goes: it fails before there is a stream, or while sending the request, or else a
      goroutine starts to receive. */
  datatype Execution = NoStream(msg: string) | NotSent(msg: string) | Receiving(events: seq<Received>, patience: nat)

  /** What ExecuteCommand returns. */
  function Error(x: Execution): Option<string> {
    if x.Receiving? then None else Some(x.msg)
  }

  /** What arrives at the worker service. */
  function Outputs(x: Execution): seq<Output> {
    if x.Receiving? then Forwarded(x.events, x.patience) else []
  }

  // ---------------------------------------------------------------- the process server

  /** How the server's call ends. */
  datatype Process = Busy | NoCommand | NotStarted | Exited(failed: bool, exitCode: int, errMsg: string)

  /** A line that the process wrote. */
  predicate Line(o: Output) {
    o.state == "RUNNING" && o.exitCode == 0 && o.errorMsg == ""
  }

  /** The message that reports the end. */
  predicate Final(p: Process, o: Output) {
    match p
    case Busy => o == Output("BUSY", 0, "", o.now)
    case NoCommand => o == Output("FAILED", 1, "", o.now)
    case NotStarted => o == Output("FAILED", 0, "", o.now)
    case Exited(failed, exitCode, errMsg) =>
      o == Output(if failed then "FAILED" else "COMPLETED", exitCode, errMsg, o.now)
  }

  /** What the server can send.  Nothing waits for the goroutines that read the lines, so that lines can also come
      after the report of the end. */
  predicate Sends(p: Process, o: Output) {
    Final(p, o) || (p.Exited? && Line(o))
  }

  lemma SentIsUnrecognised(p: Process, o: Output)
    requires Sends(p, o)
    ensures !Recognised(o) && !Ends(o)
  {
    assert "RUNNING"[0] != "running"[0] && "FAILED"[0] != "failed"[0] && "COMPLETED"[0] != "completed"[0];
    assert o.state[0] in {'B', 'F', 'R', 'C'};
  }

  /** The server spells its states in capitals and the worker reads small letters: whatever command runs, however
      it ends, and in whatever order the messages come, the stored task stays exactly as it was, unless the client
      sees the stream break and its failure is processed too; then the task fails. */
  lemma ServerNeverEndsATask(
      t: Task, p: Process, events: seq<Received>, patience: nat, processed: seq<Output>)
    requires t.state == Running
    requires forall o :: o in Messages(events) ==> Sends(p, o)
    requires processed <= Forwarded(events, patience)
    ensures UpdatedBy(t, processed) ==
      if BreakSeen(events, patience) && processed == Forwarded(events, patience)
      then t.(state := Failed, message := Reported(events[|Messages(events)|].msg))
      else t
  {
    var ms := Messages(events);
    forall o | o in ms ensures !Recognised(o) && !Ends(o) {
      SentIsUnrecognised(p, o);
    }
    ForwardedIsPrefix(events, patience);
    if BreakSeen(events, patience) && processed == Forwarded(events, patience) {
      assert ms[..|ms|] == ms;
      UnrecognisedChangesNothing(t, ms);
      UpdatedByAppend(t, ms, Failure(events[|ms|]));
    } else {
      assert processed <= ms;
      UnrecognisedChangesNothing(t, processed);
    }
  }

  function Small(c: char): char {
    if 'A' <= c <= 'Z' then c - 'A' + 'a' else c
  }

  function InSmallLetters(o: Output): Output {
    o.(state := seq(|o.state|, i requires 0 <= i < |o.state| => Small(o.state[i])))
  }

  lemma Spelled(o: Output)
    ensures o.state == "BUSY" ==> InSmallLetters(o).state == "busy"
    ensures o.state == "FAILED" ==> InSmallLetters(o).state == "failed"
    ensures o.state == "COMPLETED" ==> InSmallLetters(o).state == "completed"
  {
  }

  /** Only the spelling is in the way: in small letters, the report of the end would end the running task as the process
      ended, with its code and error. */
  lemma SpellingIsInTheWay(t: Task, p: Process, o: Output)
    requires t.state == Running && Final(p, o)
    ensures var u := Updated(t, InSmallLetters(o));
      if p.Busy? then u == t
      else if p.NoCommand? then u == t.(state := Failed, message := Reported(""), exitCode := Some(1))
      else if p.NotStarted? then u == t.(state := Failed, message := Reported(""))
      else
        && u.state == (if p.failed then Failed else Completed) && u.message == Reported(p.errMsg)
        && u.finishTime == (if p.failed then t.finishTime else Some(o.now))
        && u.exitCode == (if p.exitCode == 0 then t.exitCode else Some(p.exitCode))
  {
    Spelled(o);
    assert "busy"[0] != "running"[0] && "busy"[0] != "completed"[0] && "busy"[0] != "failed"[0];
  }
}

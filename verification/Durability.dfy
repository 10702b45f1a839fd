/** A server that keeps the history and a worker that may die at any time: replay makes crashes invisible. */
module Durability {
  import opened Types
  import opened Workflow
  import WorkflowLaws

  /** scheduled is what the server has recorded; cache is the worker's memory of the run, lost in a crash. mismatch is
      set when a worker schedules something other than what the history already records. */
  datatype Host = Host(history: seq<Task>, scheduled: seq<Activity>, cache: Option<State>, mismatch: bool)

  /** Crash also stands for a worker that dies in the middle of a turn: nothing of that turn is recorded and the server
      hands out the same task again. */
  datatype Happening = Crash | Turn(task: Task)

  function Fresh(): Host { Host([], [], None, false) }

  /** One workflow task: a worker with the run in memory goes on from there, any other runs the code on the whole
      history; the server keeps what it had recorded and adds what is new. */
  function Step(input: CanaryInput, c: Host, h: Happening): Host {
    match h
    case Crash => c.(cache := None)
    case Turn(t) =>
      var history := c.history + [t];
      var s := match c.cache case Some(s) => OnTask(input, s, t) case None => Replay(input, history);
      var n := |c.scheduled|;
      if c.scheduled <= s.commands
      then Host(history, c.scheduled + s.commands[n..], Some(s), c.mismatch)
      else Host(history, c.scheduled, Some(s), true)
  }

  function Run(input: CanaryInput, hs: seq<Happening>): Host {
    if hs == [] then Fresh() else Step(input, Run(input, hs[..|hs| - 1]), hs[|hs| - 1])
  }

  /** The workflow tasks of a run, crashes taken out. */
  function Tasks(hs: seq<Happening>): seq<Task> {
    if hs == [] then []
    else
      var last := hs[|hs| - 1];
      Tasks(hs[..|hs| - 1]) + match last case Turn(t) => [t] case Crash => []
  }

  ghost predicate Consistent(input: CanaryInput, c: Host) {
    var s := Replay(input, c.history);
    && !c.mismatch
    && c.scheduled == (if c.history == [] then [] else s.commands)
    && (c.cache.Some? ==> c.cache.value == s)
  }

  lemma StepIsConsistent(input: CanaryInput, c: Host, h: Happening)
    requires Consistent(input, c)
    ensures Consistent(input, Step(input, c, h))
  {
    hide OnTask, Replay;
    if h.Turn? {
      WorkflowLaws.ReplayOfAppend(input, c.history, h.task);
      var s, s' := Replay(input, c.history), Replay(input, c.history + [h.task]);
      assert c.scheduled <= s.commands <= s'.commands;
      assert c.scheduled + s'.commands[|c.scheduled|..] == s'.commands;
    }
  }

  lemma {:induction false} RunIsConsistent(input: CanaryInput, hs: seq<Happening>)
    ensures Consistent(input, Run(input, hs))
  {
    hide Step, Consistent;
    if hs != [] {
      var n := |hs| - 1;
      RunIsConsistent(input, hs[..n]);
      StepIsConsistent(input, Run(input, hs[..n]), hs[n]);
    } else {
      StartIsConsistent(input);
    }
  }

  lemma StartIsConsistent(input: CanaryInput)
    ensures Consistent(input, Fresh())
  {
    hide Replay;
  }

  lemma {:induction false} HistoryIsTasks(input: CanaryInput, hs: seq<Happening>)
    ensures Run(input, hs).history == Tasks(hs)
  {
    hide OnTask, Replay;
    if hs != [] {
      HistoryIsTasks(input, hs[..|hs| - 1]);
    }
  }

  /** After any number of crashes the server has recorded exactly the schedule of the uninterrupted run, no worker ever
      disagreed with the history, and a worker that takes over continues in the uninterrupted run's state. */
  lemma {:induction false} CrashesAreInvisible(input: CanaryInput, hs: seq<Happening>)
    ensures var c, tasks := Run(input, hs), Tasks(hs);
            && c.history == tasks
            && !c.mismatch
            && (tasks != [] ==> c.scheduled == Replay(input, tasks).commands)
            && (c.cache.Some? ==> c.cache.value == Replay(input, tasks))
  {
    hide Run, Tasks, Replay;
    RunIsConsistent(input, hs);
    HistoryIsTasks(input, hs);
  }

  /** Whatever crashed before, a further happening only adds to the schedule, and adds nothing that was scheduled
      already. The recorded results are those of the first scheduled activities, in order: none of these ever runs
      again. */
  lemma {:induction false} NothingIsScheduledTwice(input: CanaryInput, hs: seq<Happening>, h: Happening)
    ensures var c, c' := Run(input, hs), Run(input, hs + [h]);
            && c.scheduled <= c'.scheduled
            && (forall i | |c.scheduled| <= i < |c'.scheduled| :: c'.scheduled[i] !in c.scheduled)
            && (c.history != [] ==>
                  var answers := Replay(input, c.history).answers;
                  |answers| <= |c.scheduled| && forall i | 0 <= i < |answers| :: answers[i].activity == c.scheduled[i])
  {
    hide OnTask, Replay, Run, Tasks, Step;
    var c, c' := Run(input, hs), Run(input, hs + [h]);
    ScheduleOnlyGrows(input, hs, h);
    CrashesAreInvisible(input, hs);
    WorkflowLaws.AnswersInOrder(input, c.history);
    ScheduleIsDistinct(input, hs + [h]);
    NewIsNotOld(c.scheduled, c'.scheduled);
  }

  lemma ScheduleOnlyGrows(input: CanaryInput, hs: seq<Happening>, h: Happening)
    ensures Run(input, hs).scheduled <= Run(input, hs + [h]).scheduled
  {
    hide OnTask, Replay;
    assert (hs + [h])[..|hs|] == hs;
  }

  lemma ScheduleIsDistinct(input: CanaryInput, hs: seq<Happening>)
    ensures WorkflowLaws.Distinct(Run(input, hs).scheduled)
  {
    hide Replay, Run;
    RunIsConsistent(input, hs);
    WorkflowLaws.EachActivityOnce(input, Run(input, hs).history);
  }

  lemma NewIsNotOld(before: seq<Activity>, after: seq<Activity>)
    requires before <= after && WorkflowLaws.Distinct(after)
    ensures forall i | |before| <= i < |after| :: after[i] !in before
  {
    assert forall k | 0 <= k < |before| :: before[k] == after[k];
  }
}

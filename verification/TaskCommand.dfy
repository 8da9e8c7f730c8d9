/** A distribution task and a contestant machine together: the task's command. */
module TaskCommand {
  import opened Common
  import D = Distribution
  import P = PostCommand

  /** What a machine starts with a post command of the task comes from a message sent to it; it refuses one without a
      file name. */
  ghost predicate Heeds(states: seq<D.State>, steps: seq<D.Step>, device: D.Device, client: seq<P.Step>, task: nat)
    requires D.IsRun(states, steps)
  {
    var last := states[|steps|];
    forall i :: 0 <= i < |client| && client[i].Start? && client[i].post && client[i].key.task == task ==>
      SentTo(last, device, client[i].key)
  }

  ghost predicate SentTo(s: D.State, device: D.Device, key: P.Key) {
    exists m ::
        m in s.messages && m.device == device && m.withPostCommand && m.file == Some(key.file)
            && key.digest == Get(s.task.hashes, key.file, "")
  }

  lemma {:induction false} CommandsNameTheLastFile(states: seq<D.State>, steps: seq<D.Step>, n: nat, m: D.Message)
    requires D.IsRun(states, steps) && n < |states| && m in states[n].messages && m.withPostCommand && m.file.Some?
    ensures states[0].task.files != [] && m.file.value == states[0].task.files[|states[0].task.files| - 1]
    ensures D.SameTask(states[0].task, states[n].task)
  {
    D.TaskStaysTheSame(states, steps, n);
    if n > 0 {
      if m in states[n - 1].messages {
        CommandsNameTheLastFile(states, steps, n - 1, m);
      } else {
        D.TaskStaysTheSame(states, steps, n - 1);
        D.PostCommandGate(states, steps, n - 1, m);
        hide D.Next, D.Enabled, D.Inv;
      }
    }
  }

  /** Whatever is retried, repeated, cancelled or interrupted on either side, a machine starts the command of a task at
      most once, and only with the task's last file. */
  lemma CommandRunsOncePerTask(states: seq<D.State>, steps: seq<D.Step>, device: D.Device, machine: seq<P.State>,
                               client: seq<P.Step>, task: nat)
    requires D.IsRun(states, steps) && P.ReliableRun(machine, client) && Heeds(states, steps, device, client, task)
    ensures forall k: P.Key :: k.task == task && machine[|client|].runs[k] > 0 ==>
              machine[|client|].runs[k] == 1 && k == TheKey(states[0].task, task)
  {
    var key := TheKey(states[0].task, task);
    forall i | 0 <= i < |client| && client[i].Start? && client[i].post && client[i].key.task == task
      ensures client[i].key == key
    {
      hide D.IsRun, P.ReliableRun;
      assert SentTo(states[|steps|], device, client[i].key);
      var m :| m in states[|steps|].messages && m.device == device && m.withPostCommand
          && m.file == Some(client[i].key.file)
               && client[i].key.digest == Get(states[|steps|].task.hashes, client[i].key.file, "");
      LastIsAState(states, steps);
      CommandsNameTheLastFile(states, steps, |steps|, m);
    }
    hide D.IsRun, Heeds;
    P.OnlyItsKeyRuns(machine, client, |client|, key);
    P.PostCommandAtMostOnce(machine, client, key);
  }

  lemma LastIsAState(states: seq<D.State>, steps: seq<D.Step>)
    requires D.IsRun(states, steps)
    ensures |steps| < |states|
  {
  }

  function TheKey(task: D.Task, id: nat): P.Key {
    if task.files == [] then P.Key(id, "", "")
    else P.Key(id, task.files[|task.files| - 1], Get(task.hashes, task.files[|task.files| - 1], ""))
  }
}

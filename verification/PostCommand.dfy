/** A contestant machine's post command: durable receipts, transfers that cancel one another, and crashes at any
    point. */
module PostCommand {
  import opened Common

  /** There is one receipt per task, file and digest. */
  datatype Key = Key(task: nat, file: string, digest: string)
  type Worker = nat

  datatype Receipt = Executing | Completed

  /** How far a transfer has come: downloading, past its cancellation check, with the receipt it read, with "executing"
      stored, with the command under way, with the command succeeded, and ready to report. */
  datatype Stage = Fetching | Fetched | Looked(previous: Option<Receipt>) | Armed | Running | Succeeded | Reporting
  datatype Transfer = Transfer(key: Key, post: bool, stage: Stage)

  /** `current` is the newest transfer, unless it was cancelled; `runs` counts command starts. */
  datatype State = State(receipts: map<Key, Receipt>, transfers: map<Worker, Transfer>, current: Option<Worker>,
                         runs: multiset<Key>, successes: set<Key>, reported: set<Key>)

  datatype Step =
    | Start(worker: Worker, key: Key, post: bool)
    | Cancel
    | Fetch(worker: Worker, ok: bool)
    | Look(worker: Worker, readOk: bool)
    | Arm(worker: Worker, ok: bool, wrote: bool)
    | Run(worker: Worker)
    | RunEnds(worker: Worker, ok: bool)
    | Seal(worker: Worker, ok: bool, wrote: bool)
    | Report(worker: Worker)
    | Crash

  predicate At(s: State, w: Worker, stage: Stage) {
    w in s.transfers && s.transfers[w].stage == stage
  }

  predicate Enabled(s: State, step: Step) {
    match step
    case Start(w, _, _) => w !in s.transfers && s.current != Some(w)
    case Fetch(w, _) => At(s, w, Fetching)
    case Look(w, _) => At(s, w, Fetched)
    case Arm(w, _, _) => w in s.transfers && s.transfers[w].stage.Looked?
    case Run(w) => At(s, w, Armed)
    case RunEnds(w, _) => At(s, w, Running)
    case Seal(w, _, _) => At(s, w, Succeeded)
    case Report(w) => At(s, w, Reporting)
    case _ => true
  }

  function Move(s: State, w: Worker, stage: Stage): State
    requires w in s.transfers
  {
    s.(transfers := s.transfers[w := s.transfers[w].(stage := stage)])
  }

  function Over(s: State, w: Worker): State {
    s.(transfers := s.transfers - {w})
  }

  /** An unreadable receipt looks like none at all. */
  function LookedUp(s: State, w: Worker, readOk: bool): State
    requires w in s.transfers
  {
    var Transfer(key, post, _) := s.transfers[w];
    if !post then Move(s, w, Reporting)
    else Move(s, w, Looked(if readOk && key in s.receipts then Some(s.receipts[key]) else None))
  }

  /** Only without a receipt does the transfer go on towards the command; a completed one needs no second run. */
  function MarkedExecuting(s: State, w: Worker, ok: bool, wrote: bool): State
    requires w in s.transfers && s.transfers[w].stage.Looked?
  {
    var key := s.transfers[w].key;
    match s.transfers[w].stage.previous
    case Some(Completed) => Move(s, w, Reporting)
    case Some(Executing) => Over(s, w)
    case None =>
      var t := if ok || wrote then s.(receipts := s.receipts[key := Executing]) else s;
      if ok then Move(t, w, Armed) else Over(t, w)
  }

  /** A cancelled transfer's command is never started. */
  function Launched(s: State, w: Worker): State
    requires w in s.transfers
  {
    if s.current != Some(w) then Over(s, w)
    else Move(s, w, Running).(runs := s.runs + multiset{s.transfers[w].key})
  }

  function Sealed(s: State, w: Worker, ok: bool, wrote: bool): State
    requires w in s.transfers
  {
    var t := if ok || wrote then s.(receipts := s.receipts[s.transfers[w].key := Completed]) else s;
    if ok then Move(t, w, Reporting) else Over(t, w)
  }

  function Reported(s: State, w: Worker): State
    requires w in s.transfers
  {
    var t := Over(s, w);
    if s.current == Some(w) && s.transfers[w].post then t.(reported := s.reported + {s.transfers[w].key}) else t
  }

  function Next(s: State, step: Step): State
    requires Enabled(s, step)
  {
    match step
    case Start(w, key, post) => s.(transfers := s.transfers[w := Transfer(key, post, Fetching)], current := Some(w))
    case Cancel => s.(current := None)
    case Fetch(w, ok) => if ok && s.current == Some(w) then Move(s, w, Fetched) else Over(s, w)
    case Look(w, readOk) => LookedUp(s, w, readOk)
    case Arm(w, ok, wrote) => MarkedExecuting(s, w, ok, wrote)
    case Run(w) => Launched(s, w)
    case RunEnds(w, ok) => if ok then Move(s, w, Succeeded).(successes := s.successes + {s.transfers[w].key})
        else Over(s, w)
    case Seal(w, ok, wrote) => Sealed(s, w, ok, wrote)
    case Report(w) => Reported(s, w)
    case Crash => s.(transfers := map[], current := None)
  }

  /** What a transfer's stage vouches for. */
  predicate StageOk(s: State, w: Worker)
    requires w in s.transfers
  {
    var Transfer(key, post, stage) := s.transfers[w];
    match stage
    case Fetching => true
    case Fetched => true
    case Looked(previous) =>
      post && (previous == Some(Completed) ==> key in s.successes)
          && (previous.None? && s.current == Some(w) ==> s.runs[key] == 0)
    case Armed => post && key in s.receipts && (s.current == Some(w) ==> s.runs[key] == 0)
    case Running => post && key in s.receipts && s.runs[key] == 1
    case Succeeded => post && key in s.successes
    case Reporting => post ==> key in s.successes
  }

  ghost predicate KeyOk(s: State, key: Key) {
    && s.runs[key] <= 1
    && (s.runs[key] > 0 ==> key in s.receipts)
    && (key in s.receipts && s.receipts[key] == Completed ==> key in s.successes)
    && (key in s.successes ==> s.runs[key] == 1)
    && (key in s.reported ==> key in s.successes)
  }

  ghost predicate Inv(s: State) {
    && (forall key :: KeyOk(s, key))
    && (forall w :: w in s.transfers ==> StageOk(s, w))
  }

  ghost predicate Initial(s: State) {
    s == State(map[], map[], None, multiset{}, {}, {})
  }

  /** Every receipt that exists can be read. */
  predicate Reliable(s: State, step: Step) {
    step.Look? && step.worker in s.transfers && s.transfers[step.worker].key in s.receipts ==> step.readOk
  }

  lemma LaunchKeepsInv(s: State, w: Worker)
    requires Inv(s) && At(s, w, Armed)
    ensures Inv(Launched(s, w))
  {
    var t, key := Launched(s, w), s.transfers[w].key;
    assert StageOk(s, w);
    forall k ensures KeyOk(t, k) {
      assert KeyOk(s, k);
    }
    forall v | v in t.transfers ensures StageOk(t, v) {
      assert StageOk(s, v) && KeyOk(s, s.transfers[v].key);
    }
  }

  lemma StepKeepsKeyOk(s: State, step: Step, key: Key)
    requires Inv(s) && Enabled(s, step) && !step.Run?
    ensures KeyOk(Next(s, step), key)
  {
    assert KeyOk(s, key);
    if step.Arm? || step.RunEnds? || step.Seal? || step.Report? {
      assert StageOk(s, step.worker);
    }
    hide Inv;
  }

  lemma StepKeepsStageOk(s: State, step: Step, w: Worker)
    requires Inv(s) && Enabled(s, step) && Reliable(s, step) && !step.Run? && w in Next(s, step).transfers
    ensures StageOk(Next(s, step), w)
  {
    if w in s.transfers {
      assert StageOk(s, w) && KeyOk(s, s.transfers[w].key);
      hide Inv;
      if Next(s, step).transfers[w] == s.transfers[w] {
        NothingShrinks(s, step);
        hide Next, Enabled, Reliable, KeyOk;
      } else {
        hide StageOk, KeyOk, Next, Enabled, Reliable;
        MovedIsOk(s, step, w);
      }
    } else {
      hide Inv, Reliable;
    }
  }

  lemma MovedIsOk(s: State, step: Step, w: Worker)
    requires w in s.transfers && StageOk(s, w) && KeyOk(s, s.transfers[w].key) && Enabled(s, step) && Reliable(s, step)
    requires !step.Run? && w in Next(s, step).transfers && Next(s, step).transfers[w] != s.transfers[w]
    ensures StageOk(Next(s, step), w)
  {
    if step.Look? {
      hide MarkedExecuting, Sealed, Reported;
    } else if step.Arm? {
      hide LookedUp, Sealed, Reported, Reliable;
    } else {
      hide LookedUp, MarkedExecuting, Reliable;
    }
  }

  lemma NothingShrinks(s: State, step: Step)
    requires Enabled(s, step) && !step.Run?
    ensures var t := Next(s, step);
            && t.runs == s.runs && s.successes <= t.successes && s.receipts.Keys <= t.receipts.Keys
            && forall w :: w in s.transfers && t.current == Some(w) ==> s.current == Some(w)
  {
  }

  lemma StepKeepsInv(s: State, step: Step)
    requires Inv(s) && Enabled(s, step) && Reliable(s, step)
    ensures Inv(Next(s, step))
  {
    if step.Run? {
      LaunchKeepsInv(s, step.worker);
    } else {
      forall key ensures KeyOk(Next(s, step), key) {
        StepKeepsKeyOk(s, step, key);
      }
      forall w | w in Next(s, step).transfers ensures StageOk(Next(s, step), w) {
        StepKeepsStageOk(s, step, w);
      }
      hide KeyOk, StageOk, Next, Enabled;
    }
  }

  ghost predicate Follows(states: seq<State>, steps: seq<Step>) {
    && |states| == |steps| + 1
    && forall i :: 0 <= i < |steps| ==> Enabled(states[i], steps[i]) && states[i + 1] == Next(states[i], steps[i])
  }

  ghost predicate IsRun(states: seq<State>, steps: seq<Step>) {
    Follows(states, steps) && Initial(states[0])
  }

  ghost predicate ReliableRun(states: seq<State>, steps: seq<Step>) {
    IsRun(states, steps) && forall i :: 0 <= i < |steps| ==> Reliable(states[i], steps[i])
  }

  lemma {:induction false} RunKeepsInv(states: seq<State>, steps: seq<Step>, n: nat)
    requires ReliableRun(states, steps) && n < |states|
    ensures Inv(states[n])
  {
    if n > 0 {
      RunKeepsInv(states, steps, n - 1);
      hide Inv, Next;
      StepKeepsInv(states[n - 1], steps[n - 1]);
    }
  }

  /** The post command is started at most once per task, file and digest, over any retries, cancellations and crashes;
      and "completed" is only reported after that one run succeeded. */
  lemma PostCommandAtMostOnce(states: seq<State>, steps: seq<Step>, key: Key)
    requires ReliableRun(states, steps)
    ensures states[|steps|].runs[key] <= 1
    ensures key in states[|steps|].reported ==> states[|steps|].runs[key] == 1 && key in states[|steps|].successes
  {
    RunKeepsInv(states, steps, |steps|);
    assert KeyOk(states[|steps|], key);
  }

  /** If all post commands of a task come with one file and digest, the task's command starts at most once on this
      machine. */
  lemma {:induction false} OnlyItsKeyRuns(states: seq<State>, steps: seq<Step>, n: nat, key: Key)
    requires Follows(states, steps) && n < |states| && Initial(states[0])
    requires forall i :: 0 <= i < |steps| && steps[i].Start? && steps[i].post && steps[i].key.task == key.task ==>
               steps[i].key == key
    ensures OnlyItsKey(states[n], key)
  {
    if n > 0 {
      OnlyItsKeyRuns(states, steps, n - 1, key);
      hide Initial, OfCommand, Enabled, Next;
      OnlyItsKeyNext(states[n - 1], steps[n - 1], key);
    } else {
      hide Enabled, Next;
    }
  }

  ghost predicate OnlyItsKey(s: State, key: Key) {
    && (forall w :: w in s.transfers && s.transfers[w].post && s.transfers[w].key.task == key.task ==>
        s.transfers[w].key == key)
    && (forall w :: w in s.transfers && OfCommand(s.transfers[w].stage) ==> s.transfers[w].post)
    && (forall k: Key :: k.task == key.task && k != key ==> s.runs[k] == 0)
  }

  /** A step starts at most one transfer, and changes stages only. */
  lemma TransfersKeepKeys(s: State, step: Step)
    requires Enabled(s, step)
    ensures forall w :: w in Next(s, step).transfers ==>
              var t := Next(s, step).transfers[w];
              if w in s.transfers then t.key == s.transfers[w].key && t.post == s.transfers[w].post
              else step == Start(w, t.key, t.post)
  {
  }

  lemma CommandsGrow(s: State, step: Step)
    requires Enabled(s, step)
    ensures forall w :: w in Next(s, step).transfers && OfCommand(Next(s, step).transfers[w].stage) ==>
              w in s.transfers && (OfCommand(s.transfers[w].stage) || s.transfers[w].post)
    ensures Next(s, step).runs == s.runs || (step.Run? && OfCommand(s.transfers[step.worker].stage)
                                             && Next(s, step).runs == s.runs + multiset{s.transfers[step.worker].key})
  {
  }

  lemma OnlyItsKeyNext(s: State, step: Step, key: Key)
    requires OnlyItsKey(s, key) && Enabled(s, step)
    requires step.Start? && step.post && step.key.task == key.task ==> step.key == key
    ensures OnlyItsKey(Next(s, step), key)
  {
    TransfersKeepKeys(s, step);
    CommandsGrow(s, step);
    hide Next, OfCommand;
    assert step.Run? ==> At(s, step.worker, Armed);
    hide Enabled;
  }

  predicate OfCommand(stage: Stage) {
    stage.Looked? || stage.Armed? || stage.Running? || stage.Succeeded?
  }

  ghost predicate ReliableSteps(states: seq<State>, steps: seq<Step>) {
    Follows(states, steps) && forall i :: 0 <= i < |steps| ==> Reliable(states[i], steps[i])
  }

  lemma {:induction false} ReliableStepsKeepInv(states: seq<State>, steps: seq<Step>, n: nat)
    requires ReliableSteps(states, steps) && n < |states| && Inv(states[0])
    ensures Inv(states[n])
  {
    if n > 0 {
      ReliableStepsKeepInv(states, steps, n - 1);
      hide Inv, Next;
      StepKeepsInv(states[n - 1], steps[n - 1]);
    }
  }

  ghost predicate RanTwice(s: State) {
    exists key :: s.runs[key] > 1
  }

  /** With every later read succeeding, some command can still come to run twice. */
  ghost predicate CanRunTwice(s: State) {
    exists states, steps :: ReliableSteps(states, steps) && states[0] == s && RanTwice(states[|steps|])
  }

  lemma SafeLookKeepsInv(s: State, w: Worker, readOk: bool)
    requires Inv(s) && At(s, w, Fetched)
    requires readOk || s.runs[s.transfers[w].key] == 0 || s.current != Some(w) || !s.transfers[w].post
    ensures Inv(Next(s, Look(w, readOk)))
  {
    var t := Next(s, Look(w, readOk));
    forall k ensures KeyOk(t, k) {
      assert KeyOk(s, k);
    }
    forall v | v in t.transfers ensures StageOk(t, v) {
      assert StageOk(s, v) && KeyOk(s, s.transfers[v].key);
    }
  }

  lemma SoundRunsOnce(s: State)
    requires Inv(s)
    ensures !RanTwice(s)
  {
    forall key ensures s.runs[key] <= 1 {
      assert KeyOk(s, key);
    }
  }

  /** Reading the receipt lets some command run twice if and only if the read fails although the command has run, for
      the newest transfer, not cancelled, of one with a command. */
  lemma LookIsSafeExactlyWhen(s: State, w: Worker, readOk: bool)
    requires Inv(s) && At(s, w, Fetched)
    ensures CanRunTwice(Next(s, Look(w, readOk))) <==>
              !readOk && s.runs[s.transfers[w].key] > 0 && s.current == Some(w) && s.transfers[w].post
  {
    var t := Next(s, Look(w, readOk));
    if !readOk && s.runs[s.transfers[w].key] > 0 && s.current == Some(w) && s.transfers[w].post {
      UnsafeLookRunsTwice(t, w);
    } else {
      SafeLookKeepsInv(s, w, readOk);
      if CanRunTwice(t) {
        var states, steps :| ReliableSteps(states, steps) && states[0] == t && RanTwice(states[|steps|]);
        ReliableStepsKeepInv(states, steps, |steps|);
        SoundRunsOnce(states[|steps|]);
      }
    }
  }

  lemma UnsafeLookRunsTwice(t: State, w: Worker)
    requires At(t, w, Looked(None)) && t.current == Some(w) && t.runs[t.transfers[w].key] > 0
    ensures CanRunTwice(t)
  {
    var key := t.transfers[w].key;
    var u := Next(t, Arm(w, true, true));
    var v := Next(u, Run(w));
    assert v.runs[key] > 1;
    assert ReliableSteps([t, u, v], [Arm(w, true, true), Run(w)]);
    assert [t, u, v][0] == t && RanTwice([t, u, v][2]);
  }

  lemma Extended(states: seq<State>, steps: seq<Step>, step: Step) returns (more: seq<State>, moreSteps: seq<Step>)
    requires Follows(states, steps) && Enabled(states[|steps|], step)
    ensures |more| == |moreSteps| + 1 && Follows(more, moreSteps) && more[0] == states[0] && |moreSteps| == |steps| + 1
    ensures moreSteps == steps + [step] && more[|moreSteps|] == Next(states[|steps|], step)
    ensures more[..|states|] == states
  {
    hide Enabled, Next;
    more, moreSteps := states + [Next(states[|steps|], step)], steps + [step];
    forall i | 0 <= i < |moreSteps|
      ensures Enabled(more[i], moreSteps[i]) && more[i + 1] == Next(more[i], moreSteps[i])
    {
      if i < |steps| {
        assert more[i] == states[i] && more[i + 1] == states[i + 1] && moreSteps[i] == steps[i];
      }
    }
  }

  const SOME_KEY: Key := Key(0, "file", "digest")

  /** A transfer that has just looked at its receipt. */
  lemma UpToLook(states: seq<State>, steps: seq<Step>, w: Worker, readOk: bool)
    returns (more: seq<State>, moreSteps: seq<Step>)
    requires Follows(states, steps) && w !in states[|steps|].transfers && states[|steps|].current != Some(w)
    ensures |more| == |moreSteps| + 1 && Follows(more, moreSteps) && more[0] == states[0]
    ensures var s, t := states[|steps|], more[|moreSteps|];
            var receipt := if readOk && SOME_KEY in s.receipts then Some(s.receipts[SOME_KEY]) else None;
            t == s.(transfers := s.transfers[w := Transfer(SOME_KEY, true, Looked(receipt))], current := Some(w))
  {
    more, moreSteps := Extended(states, steps, Start(w, SOME_KEY, true));
    more, moreSteps := Extended(more, moreSteps, Fetch(w, true));
    more, moreSteps := Extended(more, moreSteps, Look(w, readOk));
  }

  lemma UpToRun(states: seq<State>, steps: seq<Step>, w: Worker) returns (more: seq<State>, moreSteps: seq<Step>)
    requires Follows(states, steps) && At(states[|steps|], w, Looked(None)) && states[|steps|].current == Some(w)
    requires states[|steps|].transfers[w] == Transfer(SOME_KEY, true, Looked(None))
    ensures |more| == |moreSteps| + 1 && Follows(more, moreSteps) && more[0] == states[0]
    ensures var s, t := states[|steps|], more[|moreSteps|];
            t == s.(transfers := s.transfers[w := Transfer(SOME_KEY, true, Running)],
                    receipts := s.receipts[SOME_KEY := Executing], runs := s.runs + multiset{SOME_KEY})
  {
    more, moreSteps := Extended(states, steps, Arm(w, true, true));
    more, moreSteps := Extended(more, moreSteps, Run(w));
  }

  /** The condition is needed: one receipt that exists but cannot be read lets the command run a second time. */
  lemma UnreadableReceiptRunsTwice() returns (states: seq<State>, steps: seq<Step>)
    ensures |states| == |steps| + 1 && IsRun(states, steps) && states[|steps|].runs[SOME_KEY] == 2
  {
    var s0 := State(map[], map[], None, multiset{}, {}, {});
    states, steps := UpToLook([s0], [], 0, true);
    states, steps := UpToRun(states, steps, 0);
    states, steps := UpToLook(states, steps, 1, false);
    states, steps := UpToRun(states, steps, 1);
  }

  /** With every later read succeeding, the completed receipt of this key can still fall back. */
  ghost predicate CanFallBack(s: State, key: Key) {
    exists states: seq<State>, steps: seq<Step> ::
      ReliableSteps(states, steps) && states[0] == s && Get(states[|steps|].receipts, key, Executing) != Completed
  }

  /** A transfer that found no receipt of this key has yet to store its own mark. */
  predicate MarkPending(s: State, key: Key) {
    exists w :: w in s.transfers && s.transfers[w].key == key && s.transfers[w].stage == Looked(None)
  }

  predicate Settled(s: State, key: Key) {
    key in s.receipts && s.receipts[key] == Completed && !MarkPending(s, key)
  }

  lemma SettledStays(s: State, step: Step, key: Key)
    requires Settled(s, key) && Enabled(s, step) && Reliable(s, step)
    ensures Settled(Next(s, step), key)
  {
    forall w | w in Next(s, step).transfers && Next(s, step).transfers[w].key == key
      ensures Next(s, step).transfers[w].stage != Looked(None)
    {
      NoNewMark(s, step, w, key);
    }
    if step.Arm? {
      assert s.transfers[step.worker].key == key ==> s.transfers[step.worker].stage != Looked(None);
    }
    hide Reliable;
  }

  lemma NoNewMark(s: State, step: Step, w: Worker, key: Key)
    requires Settled(s, key) && Enabled(s, step) && Reliable(s, step)
    requires w in Next(s, step).transfers && Next(s, step).transfers[w].key == key
    ensures Next(s, step).transfers[w].stage != Looked(None)
  {
    assert w in s.transfers && s.transfers[w].key == key ==> s.transfers[w].stage != Looked(None);
    assert key in s.receipts;
    hide Settled;
    if step.Look? {
      hide MarkedExecuting, Sealed, Reported, Launched;
    } else if step.Arm? {
      hide LookedUp, Sealed, Reported, Launched, Reliable;
    } else {
      hide LookedUp, MarkedExecuting, Reliable;
    }
  }

  lemma {:induction false} StaysSettled(states: seq<State>, steps: seq<Step>, n: nat, key: Key)
    requires ReliableSteps(states, steps) && n < |states| && Settled(states[0], key)
    ensures Settled(states[n], key)
  {
    if n > 0 {
      StaysSettled(states, steps, n - 1, key);
      hide Settled, Next;
      SettledStays(states[n - 1], steps[n - 1], key);
    }
  }

  /** A completed receipt can fall back if and only if some transfer, cancelled or not, had looked at the receipt while
      there was none and has not stored its own mark yet. */
  lemma CompletedFallsBackExactlyWhen(s: State, key: Key)
    requires key in s.receipts && s.receipts[key] == Completed
    ensures CanFallBack(s, key) <==>
              exists w :: w in s.transfers && s.transfers[w].key == key && s.transfers[w].stage == Looked(None)
  {
    if MarkPending(s, key) {
      var w :| w in s.transfers && s.transfers[w].key == key && s.transfers[w].stage == Looked(None);
      var t := Next(s, Arm(w, true, true));
      assert ReliableSteps([s, t], [Arm(w, true, true)]);
      assert [s, t][0] == s && Get([s, t][1].receipts, key, Executing) != Completed;
    } else if CanFallBack(s, key) {
      var states: seq<State>, steps: seq<Step> :| ReliableSteps(states, steps) && states[0] == s
          && Get(states[|steps|].receipts, key, Executing) != Completed;
      StaysSettled(states, steps, |steps|, key);
    }
  }

  /** The receipt says "executing", and no transfer of the key is past its look with anything else. */
  ghost predicate Stuck(s: State, key: Key) {
    && key in s.receipts && s.receipts[key] == Executing
    && forall w :: w in s.transfers && s.transfers[w].key == key ==> GoesNowhere(s.transfers[w])
  }

  /** It is yet to look, has found the receipt, or comes without a command. */
  predicate GoesNowhere(t: Transfer) {
    t.stage == Fetching || t.stage == Fetched || t.stage == Looked(Some(Executing)) || (t.stage == Reporting && !t.post)
  }

  lemma GoesOnNowhere(s: State, step: Step, w: Worker, key: Key)
    requires Stuck(s, key) && Enabled(s, step) && Reliable(s, step)
    requires w in Next(s, step).transfers && Next(s, step).transfers[w].key == key
    ensures GoesNowhere(Next(s, step).transfers[w])
  {
    assert w in s.transfers && s.transfers[w].key == key ==> GoesNowhere(s.transfers[w]);
    assert key in s.receipts && s.receipts[key] == Executing;
    hide Stuck;
    if step.Look? {
      hide MarkedExecuting, Sealed, Reported, Launched;
    } else if step.Arm? {
      hide LookedUp, Sealed, Reported, Launched, Reliable;
    } else {
      hide LookedUp, MarkedExecuting, Reliable;
    }
  }

  lemma StuckStays(s: State, step: Step, key: Key)
    requires Stuck(s, key) && Enabled(s, step) && Reliable(s, step)
    ensures var t := Next(s, step);
            Stuck(t, key) && t.runs[key] == s.runs[key] && (key in t.reported <==> key in s.reported)
  {
    forall w | w in Next(s, step).transfers && Next(s, step).transfers[w].key == key
      ensures GoesNowhere(Next(s, step).transfers[w])
    {
      GoesOnNowhere(s, step, w, key);
    }
    if step.Arm? || step.Seal? || step.Run? || step.Report? {
      assert s.transfers[step.worker].key == key ==> GoesNowhere(s.transfers[step.worker]);
    }
    hide Reliable;
  }

  /** What such a receipt comes to: however often the transfer is repeated, with readable receipts its command is never
      run again and nothing more of it is reported as completed. */
  lemma {:induction false} StuckForGood(states: seq<State>, steps: seq<Step>, n: nat, key: Key)
    requires ReliableSteps(states, steps) && n < |states| && Stuck(states[0], key)
    ensures Stuck(states[n], key) && states[n].runs[key] == states[0].runs[key]
            && (key in states[n].reported <==> key in states[0].reported)
  {
    if n > 0 {
      hide Stuck, Next, Enabled, Reliable;
      StuckForGood(states, steps, n - 1, key);
      StuckStays(states[n - 1], steps[n - 1], key);
    }
  }

  /** Such a run from the start: a cancelled transfer that had looked before still stores its own mark, and "completed"
      falls back to "executing". The command itself is not run again. */
  lemma CompletedReceiptCanFallBack() returns (states: seq<State>, steps: seq<Step>)
    ensures |states| == |steps| + 1 && IsRun(states, steps)
    ensures var s := states[|steps|];
            SOME_KEY in s.successes && SOME_KEY in s.receipts && s.receipts[SOME_KEY] == Executing
                && s.runs[SOME_KEY] == 1
  {
    var s0 := State(map[], map[], None, multiset{}, {}, {});
    states, steps := UpToLook([s0], [], 0, true);
    states, steps := UpToLook(states, steps, 1, true);
    states, steps := UpToRun(states, steps, 1);
    states, steps := Extended(states, steps, RunEnds(1, true));
    states, steps := Extended(states, steps, Seal(1, true, true));
    states, steps := Extended(states, steps, Arm(0, true, true));
  }

  /** What a transfer meets after its download: whether its receipt can be read, whether "executing" can be stored,
      whether it is cancelled before the command starts, whether the command succeeds, whether "completed" can be
      stored, and whether it is cancelled before it reports. */
  datatype Course = Course(readOk: bool, armOk: bool, live: bool, commandOk: bool, sealOk: bool, liveAtEnd: bool)

  /** A receipt that can be read decides; without one the command is run if its mark could be stored and the transfer is
      still wanted. */
  predicate Executes(receipts: map<Key, Receipt>, key: Key, post: bool, course: Course) {
    post && (key !in receipts || !course.readOk) && course.armOk && course.live
  }

  /** Success is reported by a transfer still wanted at its end: without a command always, else if its receipt already
      says "completed" or its command succeeded and that could be stored. */
  predicate Confirms(receipts: map<Key, Receipt>, key: Key, post: bool, course: Course) {
    && course.liveAtEnd
    && (post ==>
          || (course.readOk && key in receipts && receipts[key] == Completed)
          || (Executes(receipts, key, post, course) && course.commandOk && course.sealOk))
  }

  function ReceiptAfter(receipts: map<Key, Receipt>, key: Key, post: bool, course: Course): map<Key, Receipt> {
    if !post || (course.readOk && key in receipts) || !course.armOk then receipts
    else receipts[key := if course.live && course.commandOk && course.sealOk then Completed else Executing]
  }

  /** A transfer on its way, the newest one and with its download just done; others may be anywhere. */
  predicate Downloaded(s: State, w: Worker, key: Key, post: bool) {
    w in s.transfers && s.transfers[w] == Transfer(key, post, Fetched) && s.current == Some(w)
  }

  /** Whether a run ends with this transfer, still wanted, reporting success. */
  ghost predicate EndsInReport(states: seq<State>, steps: seq<Step>, w: Worker)
    requires |states| == |steps| + 1
  {
    steps != [] && steps[|steps| - 1] == Report(w) && states[|steps| - 1].current == Some(w)
  }

  /** From an intermediate point of a run, at which the transfer only has to report. */
  lemma ReportsAtLast(states: seq<State>, steps: seq<Step>, w: Worker, live: bool)
    returns (more: seq<State>, moreSteps: seq<Step>)
    requires Follows(states, steps) && At(states[|steps|], w, Reporting) && states[|steps|].current == Some(w)
    ensures |more| == |moreSteps| + 1 && Follows(more, moreSteps) && more[0] == states[0]
    ensures var s, t := states[|steps|], more[|moreSteps|];
            && t.receipts == s.receipts && t.runs == s.runs && w !in t.transfers
            && t.reported == s.reported + (if live && s.transfers[w].post then {s.transfers[w].key} else {})
            && (EndsInReport(more, moreSteps, w) <==> live)
  {
    more, moreSteps := states, steps;
    if !live {
      more, moreSteps := Extended(more, moreSteps, Cancel);
    }
    var before, n := more, |moreSteps|;
    more, moreSteps := Extended(more, moreSteps, Report(w));
    assert more[n] == more[..n + 1][n] == before[n];
  }

  lemma CommandIsRun(states: seq<State>, steps: seq<Step>, w: Worker, course: Course)
    returns (more: seq<State>, moreSteps: seq<Step>)
    requires Follows(states, steps) && At(states[|steps|], w, Armed) && states[|steps|].current == Some(w)
             && states[|steps|].transfers[w].post
    ensures |more| == |moreSteps| + 1 && Follows(more, moreSteps) && more[0] == states[0]
    ensures var s, t := states[|steps|], more[|moreSteps|];
            var key := s.transfers[w].key;
            && t.receipts == (if course.live && course.commandOk && course.sealOk then s.receipts[key := Completed]
                              else s.receipts)
            && t.runs == s.runs + (if course.live then multiset{key} else multiset{})
            && t.reported == s.reported + (if course.live && course.commandOk && course.sealOk && course.liveAtEnd
                                           then {key} else {})
            && (EndsInReport(more, moreSteps, w) <==>
                  course.live && course.commandOk && course.sealOk && course.liveAtEnd)
  {
    if !course.live {
      more, moreSteps := Extended(states, steps, Cancel);
      more, moreSteps := Extended(more, moreSteps, Run(w));
    } else {
      more, moreSteps := Extended(states, steps, Run(w));
      more, moreSteps := Extended(more, moreSteps, RunEnds(w, course.commandOk));
      if course.commandOk {
        more, moreSteps := Extended(more, moreSteps, Seal(w, course.sealOk, false));
        if course.sealOk {
          more, moreSteps := ReportsAtLast(more, moreSteps, w, course.liveAtEnd);
        }
      }
    }
  }

  /** The course of a transfer is a run of the machine: its looks, marks and runs, and at its end the report exactly if
      it confirms. */
  lemma ConfirmationIsRun(s: State, w: Worker, key: Key, post: bool, course: Course)
    returns (states: seq<State>, steps: seq<Step>)
    requires Downloaded(s, w, key, post)
    ensures |states| == |steps| + 1 && Follows(states, steps) && states[0] == s
    ensures var t := states[|steps|];
            && t.receipts == ReceiptAfter(s.receipts, key, post, course)
            && t.runs == s.runs + (if Executes(s.receipts, key, post, course) then multiset{key} else multiset{})
            && t.reported == s.reported + (if post && Confirms(s.receipts, key, post, course) then {key} else {})
    ensures EndsInReport(states, steps, w) <==> Confirms(s.receipts, key, post, course)
  {
    states, steps := Extended([s], [], Look(w, course.readOk));
    if !post {
      states, steps := ReportsAtLast(states, steps, w, course.liveAtEnd);
    } else {
      states, steps := Extended(states, steps, Arm(w, course.armOk, false));
      hide Follows, LookedUp, MarkedExecuting;
      if course.readOk && key in s.receipts {
        if s.receipts[key] == Completed {
          states, steps := ReportsAtLast(states, steps, w, course.liveAtEnd);
        }
      } else if course.armOk {
        states, steps := CommandIsRun(states, steps, w, course);
      }
    }
  }

  class Client {
    var receipts: map<Key, Receipt>
    ghost var runs: multiset<Key>

    /** The part of a transfer after its download, with nothing in between, for a machine in state `s`. */
    method ConfirmDownload(key: Key, post: bool, course: Course, ghost s: State, ghost w: Worker)
      returns (reported: bool, ghost states: seq<State>, ghost steps: seq<Step>)
      requires Downloaded(s, w, key, post) && s.receipts == receipts && s.runs == runs
      modifies this
      ensures reported <==> Confirms(old(receipts), key, post, course)
      ensures runs == old(runs)
              + if Executes(old(receipts), key, post, course) then multiset{key} else multiset{}
      ensures receipts == ReceiptAfter(old(receipts), key, post, course)
      ensures |states| == |steps| + 1 && Follows(states, steps) && states[0] == s
              && states[|steps|].receipts == receipts && states[|steps|].runs == runs
      ensures EndsInReport(states, steps, w) <==> reported
    {
      states, steps := ConfirmationIsRun(s, w, key, post, course);
      hide Follows, Downloaded, EndsInReport;
      reported := false;
      if post {
        if course.readOk && key in receipts {
          reported := receipts[key] == Completed && course.liveAtEnd;
          return;
        }
        if !course.armOk {
          return;
        }
        receipts := receipts[key := Executing];
        if !course.live {
          return;
        }
        runs := runs + multiset{key};
        if !course.commandOk {
          return;
        }
        if !course.sealOk {
          return;
        }
        receipts := receipts[key := Completed];
      }
      reported := course.liveAtEnd;
    }
  }
}

/**
 * The background worker (src/entrypoints/background.ts): the campaign state
 * machine that walks the target list one link at a time.
 *
 * Each browser call around a target (opening the tab, waiting for it to load,
 * injecting the delivery script) is folded into one `Attempt` value that says
 * how that target went. Random choices are `Draw`s, and the messages sent to
 * the popup, the tabs opened, the texts handed to the script and the pauses
 * between targets are recorded in fields so that the contracts can speak of
 * them.
 */
module Background {
  import opened Wrappers
  import opened Strings
  import opened Types
  import opened TaskManager

  /** `TaskState`: the campaign in progress. */
  datatype TaskState = TaskState(
    links: seq<string>,
    message: string,
    delayMin: int,
    delayMax: int,
    currentIndex: nat,
    results: seq<TaskResult>)

  /** One result per target handled so far, in input order. */
  predicate Aligned(t: TaskState) {
    |t.results| <= |t.links| && forall i :: 0 <= i < |t.results| ==> t.results[i].link == t.links[i]
  }

  /** Between targets: every target before the current one has its result. */
  predicate Settled(t: TaskState) {
    Aligned(t) && |t.results| == t.currentIndex
  }

  /** Right after a push: the current target has its result too. */
  predicate Pushed(t: TaskState) {
    Aligned(t) && |t.results| == t.currentIndex + 1
  }

  // ---------------------------------------------------------------------
  // executeDMInTab

  /** How the script injection ended: it threw, or it returned its frames'
      results (a frame without a result is `None`). */
  datatype Injection = InjectionThrew(message: string) | InjectionReturned(frames: seq<Option<DMResult>>)

  const NoScriptResult: string := "脚本执行无返回结果"
  const ScriptFailedPrefix: string := "脚本执行失败: "

  /** `executeDMInTab`'s answer: it never throws. */
  function NormalizeInjection(inj: Injection): (r: DMResult)
    ensures inj.InjectionReturned? && |inj.frames| > 0 && inj.frames[0].Some? ==> r == inj.frames[0].value
    ensures inj.InjectionReturned? && (inj.frames == [] || inj.frames[0].None?) ==>
      r == DMResult(false, Some(NoScriptResult))
    ensures inj.InjectionThrew? ==> r == DMResult(false, Some(ScriptFailedPrefix + inj.message))
  {
    match inj
    case InjectionThrew(m) => DMResult(false, Some(ScriptFailedPrefix + m))
    case InjectionReturned(frames) =>
      if |frames| > 0 && frames[0].Some? then frames[0].value
      else DMResult(false, Some(NoScriptResult))
  }

  /** A reported success comes only from the script itself. */
  lemma NormalizedSuccess(inj: Injection)
    ensures NormalizeInjection(inj).success <==>
      inj.InjectionReturned? && |inj.frames| > 0 && inj.frames[0].Some? && inj.frames[0].value.success
  {
  }

  // ---------------------------------------------------------------------
  // One target

  /** How one target went: the tab failed to open or load (the thrown
      message), or it loaded and the script was injected. */
  datatype Attempt = TabFailed(message: string) | TabLoaded(injection: Injection)

  /** The result `processNextLink` records for a target. */
  function Outcome(link: string, attempt: Attempt): (r: TaskResult)
    ensures r.link == link
    ensures r.success <==> attempt.TabLoaded? && NormalizeInjection(attempt.injection).success
    ensures r.success ==> r.error.None?
    ensures attempt.TabFailed? ==> r.error == Some(attempt.message)
    ensures attempt.TabLoaded? && !r.success ==> r.error == NormalizeInjection(attempt.injection).error
  {
    match attempt
    case TabFailed(m) => TaskResult(link, false, Some(m))
    case TabLoaded(inj) =>
      var res := NormalizeInjection(inj);
      if res.success then TaskResult(link, true, None) else TaskResult(link, false, res.error)
  }

  /** The results of a whole run, target by target. */
  function Outcomes(links: seq<string>, attempts: seq<Attempt>): (r: seq<TaskResult>)
    requires |links| == |attempts|
    ensures |r| == |links|
    ensures forall i :: 0 <= i < |r| ==> r[i] == Outcome(links[i], attempts[i])
  {
    if links == [] then []
    else
      var n := |links| - 1;
      Outcomes(links[..n], attempts[..n]) + [Outcome(links[n], attempts[n])]
  }

  /** Outcomes of a run line up with its links. */
  lemma {:induction false} OutcomesAligned(links: seq<string>, attempts: seq<Attempt>)
    requires |links| == |attempts|
    ensures forall i :: 0 <= i < |links| ==> Outcomes(links, attempts)[i].link == links[i]
  {
  }

  /** `results.filter(r => r.success).length`. */
  function CountSuccess(results: seq<TaskResult>): (n: nat)
    ensures n <= |results|
  {
    if results == [] then 0
    else CountSuccess(results[..|results| - 1]) + (if results[|results| - 1].success then 1 else 0)
  }

  /** The count is full exactly when every target succeeded, and zero exactly
      when none did. */
  lemma {:induction false} CountSuccessExtremes(results: seq<TaskResult>)
    ensures CountSuccess(results) == |results| <==> forall i :: 0 <= i < |results| ==> results[i].success
    ensures CountSuccess(results) == 0 <==> forall i :: 0 <= i < |results| ==> !results[i].success
  {
    if results != [] {
      var init := results[..|results| - 1];
      CountSuccessExtremes(init);
      assert forall i :: 0 <= i < |init| ==> init[i] == results[i];
    }
  }

  // ---------------------------------------------------------------------
  // Log texts

  function Info(text: string): PopupMessage {
    Log(text, InfoLevel)
  }

  /** `${n}` for an integer. */
  function IntText(n: int): string {
    if n < 0 then "-" + Decimal(-n) else Decimal(n)
  }

  /** `${error}` for an optional error: an absent one prints as `undefined`. */
  function Shown(error: Option<string>): string {
    match error
    case Some(e) => e
    case None => "undefined"
  }

  /** `Math.round(delay / 1000)`: halves round up. */
  function WaitSeconds(delay: int): (s: int)
    ensures 1000 * s - 500 <= delay < 1000 * s + 500
  {
    (delay + 500) / 1000
  }

  function ProcessingText(index: nat, total: nat, link: string): string {
    "正在处理 (" + Decimal(index + 1) + "/" + Decimal(total) + "): " + ExtractUsername(link)
  }

  function WaitText(delay: int): string {
    "等待 " + IntText(WaitSeconds(delay)) + " 秒后继续..."
  }

  function SummaryText(succeeded: nat, total: nat): string {
    "任务完成: 成功 " + Decimal(succeeded) + "/" + Decimal(total)
  }

  /** The line reporting what the delivery script answered. */
  function OutcomeLine(link: string, res: DMResult): PopupMessage {
    if res.success then Log("✓ 发送成功: " + ExtractUsername(link), SuccessLevel)
    else Log("✗ 发送失败: " + Shown(res.error), ErrorLevel)
  }

  /** What the popup hears while one target is tried. */
  function AttemptMessages(link: string, attempt: Attempt): seq<PopupMessage> {
    match attempt
    case TabFailed(m) => [Log("处理失败: " + m, ErrorLevel)]
    case TabLoaded(inj) =>
      var res := NormalizeInjection(inj);
      [Info("页面加载完成"), Info("正在执行 DM 脚本..."), OutcomeLine(link, res)]
  }

  /** What the popup hears when one target begins. */
  function BeginMessages(t: TaskState): seq<PopupMessage>
    requires t.currentIndex < |t.links|
  {
    [Progress(t.currentIndex, |t.links|), Info(ProcessingText(t.currentIndex, |t.links|, t.links[t.currentIndex]))]
  }

  /** What `completeTask` sends: the summary, TASK_COMPLETE, then the final progress. */
  function CompletionMessages(results: seq<TaskResult>): seq<PopupMessage> {
    [Log(SummaryText(CountSuccess(results), |results|), SuccessLevel), TaskComplete, Progress(|results|, |results|)]
  }

  /** The campaign once `processNextLink` has recorded the current target's
      result; a settled campaign becomes pushed. */
  function Record(t: TaskState, attempt: Attempt): (pushed: TaskState)
    requires t.currentIndex < |t.links|
    ensures Settled(t) ==> Pushed(pushed)
  {
    t.(results := t.results + [Outcome(t.links[t.currentIndex], attempt)])
  }

  /** The campaign once the result is recorded and the index has moved past
      it; a settled campaign stays settled. */
  function Advance(t: TaskState, attempt: Attempt): (next: TaskState)
    requires t.currentIndex < |t.links|
    ensures Settled(t) ==> Settled(next)
  {
    Record(t, attempt).(currentIndex := t.currentIndex + 1)
  }

  /** What `moveToNext` sends from a pushed campaign: the wait before the
      next target while one remains, the completion otherwise. */
  function MoveMessages(t: TaskState, pause: Draw): seq<PopupMessage> {
    if t.currentIndex + 1 < |t.links| then [Info(WaitText(RandomDelay(t.delayMin, t.delayMax, pause)))]
    else CompletionMessages(t.results)
  }

  /** Everything the popup hears from one `processNextLink` on a link: the
      start of the target, how it went, then the wait or the completion. */
  function StepMessages(t: TaskState, attempt: Attempt, pause: Draw): seq<PopupMessage>
    requires t.currentIndex < |t.links|
  {
    BeginMessages(t) + AttemptMessages(t.links[t.currentIndex], attempt) + MoveMessages(Record(t, attempt), pause)
  }

  /** Everything the popup hears over an uninterrupted run from `t`, one
      attempt and pause per remaining target: each target's step in order,
      and, when no target was left to begin with, the completion that
      `processNextLink` reports past the last link. */
  function RunMessages(t: TaskState, attempts: seq<Attempt>, pauses: seq<Draw>): seq<PopupMessage>
    requires |attempts| == |pauses| == |t.links| - t.currentIndex
    decreases |attempts|
  {
    if attempts == [] then [Log("所有任务完成!", SuccessLevel)] + CompletionMessages(t.results)
    else if |attempts| == 1 then StepMessages(t, attempts[0], pauses[0])
    else StepMessages(t, attempts[0], pauses[0]) + RunMessages(Advance(t, attempts[0]), attempts[1..], pauses[1..])
  }

  /** The text handed to the delivery script for one target: the expanded
      message once the tab has loaded, nothing when it failed. */
  function Handed(message: string, attempt: Attempt, rnd: nat -> Draw): seq<string> {
    if attempt.TabLoaded? then [ProcessSpintax(message, rnd)] else []
  }

  /** The texts handed to the delivery script over a run of targets, in order. */
  function Injected(message: string, attempts: seq<Attempt>, rnds: seq<nat -> Draw>): seq<string>
    requires |attempts| == |rnds|
  {
    if attempts == [] then []
    else Handed(message, attempts[0], rnds[0]) + Injected(message, attempts[1..], rnds[1..])
  }

  /** The pauses taken over a run of targets: one drawn delay after every
      target but the last. */
  function Delays(delayMin: int, delayMax: int, pauses: seq<Draw>): seq<int> {
    if |pauses| <= 1 then []
    else [RandomDelay(delayMin, delayMax, pauses[0])] + Delays(delayMin, delayMax, pauses[1..])
  }

  /** A run over `n` targets pauses `n - 1` times, each pause within the
      configured range. */
  lemma {:induction false} DelaysBetweenTargets(delayMin: int, delayMax: int, pauses: seq<Draw>)
    requires pauses != [] && delayMin <= delayMax
    ensures |Delays(delayMin, delayMax, pauses)| == |pauses| - 1
    ensures forall i :: 0 <= i < |pauses| - 1 ==>
      Delays(delayMin, delayMax, pauses)[i] == RandomDelay(delayMin, delayMax, pauses[i])
      && delayMin <= Delays(delayMin, delayMax, pauses)[i] <= delayMax
  {
    if |pauses| > 1 {
      DelaysBetweenTargets(delayMin, delayMax, pauses[1..]);
    }
  }

  /** When every tab loads, target `i` is handed the message expanded with its
      own draws, and only that. */
  lemma {:induction false} InjectedWhenAllLoad(message: string, attempts: seq<Attempt>, rnds: seq<nat -> Draw>)
    requires |attempts| == |rnds|
    requires forall i :: 0 <= i < |attempts| ==> attempts[i].TabLoaded?
    ensures |Injected(message, attempts, rnds)| == |attempts|
    ensures forall i :: 0 <= i < |attempts| ==> Injected(message, attempts, rnds)[i] == ProcessSpintax(message, rnds[i])
  {
    if attempts != [] {
      InjectedWhenAllLoad(message, attempts[1..], rnds[1..]);
    }
  }

  /** Targets whose tab fails are handed nothing. */
  lemma {:induction false} InjectedWhenNoneLoad(message: string, attempts: seq<Attempt>, rnds: seq<nat -> Draw>)
    requires |attempts| == |rnds|
    requires forall i :: 0 <= i < |attempts| ==> attempts[i].TabFailed?
    ensures Injected(message, attempts, rnds) == []
  {
    if attempts != [] {
      InjectedWhenNoneLoad(message, attempts[1..], rnds[1..]);
    }
  }

  /** The worker's state: the running flag, the current campaign, the stored
      `taskRunning` flag, and what it has sent, opened, injected and waited. */
  class Worker {
    var isRunning: bool
    var task: Option<TaskState>
    var storedRunning: bool
    var outbox: seq<PopupMessage>
    var visited: seq<string>
    var injected: seq<string>
    var slept: seq<int>

    /** The running flag, the campaign and the stored flag agree. */
    predicate Linked()
      reads this
    {
      (isRunning <==> task.Some?) && storedRunning == isRunning
    }

    /** Between steps: linked, and the campaign, if any, is settled. */
    predicate Valid()
      reads this
    {
      Linked() && (task.Some? ==> Settled(task.value))
    }

    constructor()
      ensures Valid() && !isRunning && task.None?
      ensures outbox == [] && visited == [] && injected == [] && slept == []
    {
      isRunning := false;
      task := None;
      storedRunning := false;
      outbox := [];
      visited := [];
      injected := [];
      slept := [];
    }

    /** `startTask`: ignored while a campaign runs; otherwise the campaign
        starts at the first link with no results. */
    method StartTask(config: TaskConfig)
      requires Valid()
      modifies this
      ensures Valid()
      ensures old(isRunning) ==> unchanged(this)
      ensures !old(isRunning) ==>
        && isRunning && storedRunning
        && task == Some(TaskState(config.links, config.message, config.delayMin, config.delayMax, 0, []))
        && outbox == old(outbox) + [Info("任务开始")]
      ensures visited == old(visited) && injected == old(injected) && slept == old(slept)
    {
      if isRunning {
        return;
      }
      isRunning := true;
      storedRunning := true;
      task := Some(TaskState(config.links, config.message, config.delayMin, config.delayMax, 0, []));
      outbox := outbox + [Info("任务开始")];
    }

    /** `stopTask`: no campaign afterwards, whatever the state before. */
    method StopTask()
      requires Valid()
      modifies this
      ensures Valid() && !isRunning && task.None? && !storedRunning
      ensures outbox == old(outbox) + [Info("任务已停止")]
      ensures visited == old(visited) && injected == old(injected) && slept == old(slept)
    {
      isRunning := false;
      task := None;
      storedRunning := false;
      outbox := outbox + [Info("任务已停止")];
    }

    /** `completeTask`: reports the summary and ends the campaign. */
    method CompleteTask()
      requires Linked()
      modifies this
      ensures Valid() && !isRunning && task.None? && !storedRunning
      ensures outbox == old(outbox) + CompletionMessages(if old(task).Some? then old(task).value.results else [])
      ensures visited == old(visited) && injected == old(injected) && slept == old(slept)
    {
      var results := if task.Some? then task.value.results else [];
      outbox := outbox + CompletionMessages(results);
      isRunning := false;
      task := None;
      storedRunning := false;
    }

    /** `moveToNext`: after a stop, nothing; otherwise advance by one, then
        wait a random delay while targets remain, or complete. */
    method MoveToNext(pause: Draw)
      requires Linked() && (task.Some? ==> Pushed(task.value))
      modifies this
      ensures Valid()
      ensures old(task).None? ==> unchanged(this)
      ensures old(task).Some? ==>
        var t := old(task).value;
        var next := t.(currentIndex := t.currentIndex + 1);
        var delay := RandomDelay(t.delayMin, t.delayMax, pause);
        && visited == old(visited) && injected == old(injected)
        && outbox == old(outbox) + MoveMessages(t, pause)
        && (next.currentIndex < |t.links| ==>
              task == Some(next) && isRunning && storedRunning && slept == old(slept) + [delay])
        && (next.currentIndex >= |t.links| ==>
              task.None? && !isRunning && !storedRunning && slept == old(slept))
    {
      if task.None? || !isRunning {
        return;
      }
      var t := task.value;
      task := Some(t.(currentIndex := t.currentIndex + 1));
      if t.currentIndex + 1 < |t.links| {
        var delay := RandomDelay(t.delayMin, t.delayMax, pause);
        outbox := outbox + [Info(WaitText(delay))];
        slept := slept + [delay];
      } else {
        CompleteTask();
      }
    }

    /** `processNextLink`: after a stop, nothing. Past the last link, the
        campaign completes. Otherwise the current link is opened and tried,
        exactly one result is appended for it whatever happened, and the worker
        moves on. `rnd` drives the spintax expansion, `pause` the delay. */
    method ProcessNextLink(attempt: Attempt, rnd: nat -> Draw, pause: Draw)
      requires Valid()
      modifies this
      ensures Valid()
      ensures old(task).None? ==> unchanged(this)
      ensures old(task).Some? && old(task).value.currentIndex >= |old(task).value.links| ==>
        && task.None? && !isRunning && !storedRunning
        && outbox == old(outbox) + [Log("所有任务完成!", SuccessLevel)] + CompletionMessages(old(task).value.results)
        && visited == old(visited) && injected == old(injected) && slept == old(slept)
      ensures old(task).Some? && old(task).value.currentIndex < |old(task).value.links| ==>
        var t := old(task).value;
        var next := Advance(t, attempt);
        && visited == old(visited) + [t.links[t.currentIndex]]
        && injected == old(injected) + Handed(t.message, attempt, rnd)
        && outbox == old(outbox) + StepMessages(t, attempt, pause)
        && (next.currentIndex < |t.links| ==>
              && task == Some(next) && isRunning && storedRunning
              && slept == old(slept) + [RandomDelay(t.delayMin, t.delayMax, pause)])
        && (next.currentIndex >= |t.links| ==>
              task.None? && !isRunning && !storedRunning && slept == old(slept))
    {
      if !isRunning || task.None? {
        return;
      }
      var t := task.value;
      if t.currentIndex >= |t.links| {
        outbox := outbox + [Log("所有任务完成!", SuccessLevel)];
        CompleteTask();
        return;
      }
      var link := t.links[t.currentIndex];
      var processed := ProcessSpintax(t.message, rnd);
      outbox := outbox + BeginMessages(t);
      visited := visited + [link];
      TryTarget(link, attempt, processed);
      Associate(old(outbox), BeginMessages(t), AttemptMessages(link, attempt));
      task := Some(Record(t, attempt));
      MoveToNext(pause);
      Associate(old(outbox), BeginMessages(t) + AttemptMessages(link, attempt), MoveMessages(Record(t, attempt), pause));
    }

    /** The `try` around one target: what the popup hears about it, and the
        text handed to the delivery script once the tab has loaded. */
    method TryTarget(link: string, attempt: Attempt, processed: string)
      modifies this
      ensures outbox == old(outbox) + AttemptMessages(link, attempt)
      ensures injected == old(injected) + (if attempt.TabLoaded? then [processed] else [])
      ensures isRunning == old(isRunning) && task == old(task) && storedRunning == old(storedRunning)
      ensures visited == old(visited) && slept == old(slept)
    {
      match attempt {
        case TabFailed(m) =>
          outbox := outbox + [Log("处理失败: " + m, ErrorLevel)];
        case TabLoaded(inj) =>
          var res := NormalizeInjection(inj);
          outbox := outbox + [Info("页面加载完成"), Info("正在执行 DM 脚本..."), OutcomeLine(link, res)];
          injected := injected + [processed];
      }
    }

    /** The message listener: START_TASK and STOP_TASK. */
    method OnRequest(request: Request)
      requires Valid()
      modifies this
      ensures Valid()
      ensures request.StopRequest? ==>
        !isRunning && task.None? && !storedRunning && outbox == old(outbox) + [Info("任务已停止")]
      ensures request.StartRequest? && !old(isRunning) ==>
        var c := request.config;
        && task == Some(TaskState(c.links, c.message, c.delayMin, c.delayMax, 0, [])) && isRunning && storedRunning
        && outbox == old(outbox) + [Info("任务开始")]
      ensures request.StartRequest? && old(isRunning) ==> unchanged(this)
      ensures visited == old(visited) && injected == old(injected) && slept == old(slept)
    {
      match request
      case StartRequest(config) => StartTask(config);
      case StopRequest => StopTask();
    }

    /** One `processNextLink` on a running campaign with a target left,
        seen from the chain: the target is opened, the campaign advances, and
        after the last target the completion messages end the outbox. */
    method Step(attempt: Attempt, rnd: nat -> Draw, pause: Draw)
      requires Valid() && task.Some? && task.value.currentIndex < |task.value.links|
      modifies this
      ensures Valid()
      ensures var t := old(task).value;
        var next := Advance(t, attempt);
        && visited == old(visited) + [t.links[t.currentIndex]]
        && injected == old(injected) + Handed(t.message, attempt, rnd)
        && outbox == old(outbox) + StepMessages(t, attempt, pause)
        && (next.currentIndex < |t.links| ==>
              task == Some(next) && slept == old(slept) + [RandomDelay(t.delayMin, t.delayMax, pause)])
        && (next.currentIndex >= |t.links| ==>
              && task.None? && !isRunning && !storedRunning && slept == old(slept)
              && |outbox| >= 3 && outbox[|outbox| - 3..] == CompletionMessages(next.results))
    {
      ghost var t := task.value;
      ghost var before := outbox;
      ProcessNextLink(attempt, rnd, pause);
      if t.currentIndex + 1 >= |t.links| {
        LastStepEnds(before, t, attempt, pause);
      }
    }

    /** `processNextLink` on a campaign with no target left: it completes,
        and the completion messages end the outbox. */
    method FinishAtEnd()
      requires Valid() && task.Some? && task.value.currentIndex >= |task.value.links|
      modifies this
      ensures Valid() && !isRunning && task.None? && !storedRunning
      ensures visited == old(visited) && injected == old(injected) && slept == old(slept)
      ensures outbox == old(outbox) + [Log("所有任务完成!", SuccessLevel)] + CompletionMessages(old(task).value.results)
      ensures |outbox| >= 3 && outbox[|outbox| - 3..] == CompletionMessages(old(task).value.results)
    {
      ghost var x := outbox + [Log("所有任务完成!", SuccessLevel)];
      ghost var c := CompletionMessages(task.value.results);
      ProcessNextLink(TabFailed([]), _ => 0, 0);
      assert outbox == x + c;
      assert (x + c)[|outbox| - 3..] == c;
    }

    /** The chain `processNextLink` → `moveToNext` → `processNextLink` … run
        with no stop: one attempt, spintax stream and pause per remaining
        target. Every remaining link is opened once, in order, each loaded tab
        is handed its expanded message, the worker pauses between targets, the
        campaign ends, and the popup hears every step's messages in order after
        what it had already heard (`RunMessages`; `RunEnds` shows they close
        with the summary of all results). */
    method RunToCompletion(attempts: seq<Attempt>, rnds: seq<nat -> Draw>, pauses: seq<Draw>)
      returns (results: seq<TaskResult>)
      requires Valid() && task.Some?
      requires |attempts| == |rnds| == |pauses| == |task.value.links| - task.value.currentIndex
      modifies this
      ensures Valid() && !isRunning && task.None? && !storedRunning
      ensures var t := old(task).value;
        && results == t.results + Outcomes(t.links[t.currentIndex..], attempts)
        && visited == old(visited) + t.links[t.currentIndex..]
        && injected == old(injected) + Injected(t.message, attempts, rnds)
        && slept == old(slept) + Delays(t.delayMin, t.delayMax, pauses)
      ensures outbox == old(outbox) + RunMessages(old(task).value, attempts, pauses)
      decreases |attempts|
    {
      if |attempts| <= 1 {
        results := FinishRun(attempts, rnds, pauses);
        return;
      }
      var t := task.value;
      ghost var visited0, injected0, slept0, outbox0 := visited, injected, slept, outbox;
      Step(attempts[0], rnds[0], pauses[0]);
      ghost var visited1, injected1, slept1, outbox1 := visited, injected, slept, outbox;
      assert task == Some(Advance(t, attempts[0]));
      results := RunToCompletion(attempts[1..], rnds[1..], pauses[1..]);
      RunComposes(t, attempts, rnds, pauses, results, visited0, visited1, visited,
                  injected0, injected1, injected, slept0, slept1, slept);
      OutboxComposes(t, attempts, pauses, outbox0, outbox1, outbox);
    }

    /** The end of the chain: no target left, or only the last one, after
        which the worker completes without pausing. */
    method FinishRun(attempts: seq<Attempt>, rnds: seq<nat -> Draw>, pauses: seq<Draw>)
      returns (results: seq<TaskResult>)
      requires Valid() && task.Some? && |attempts| <= 1
      requires |attempts| == |rnds| == |pauses| == |task.value.links| - task.value.currentIndex
      modifies this
      ensures Valid() && !isRunning && task.None? && !storedRunning
      ensures var t := old(task).value;
        && results == t.results + Outcomes(t.links[t.currentIndex..], attempts)
        && visited == old(visited) + t.links[t.currentIndex..]
        && injected == old(injected) + Injected(t.message, attempts, rnds)
        && slept == old(slept) + Delays(t.delayMin, t.delayMax, pauses)
      ensures outbox == old(outbox) + RunMessages(old(task).value, attempts, pauses)
    {
      var t := task.value;
      ghost var visited0, injected0, slept0 := visited, injected, slept;
      ghost var outbox0 := outbox;
      if attempts == [] {
        FinishAtEnd();
        Associate(outbox0, [Log("所有任务完成!", SuccessLevel)], CompletionMessages(t.results));
        results := t.results;
        EmptyRun(t, attempts, rnds, pauses, visited0, injected0, slept0);
        return;
      }
      Step(attempts[0], rnds[0], pauses[0]);
      results := Advance(t, attempts[0]).results;
      LastRun(t, attempts, rnds, pauses, visited0, visited, injected0, injected, slept0);
    }
  }

  /** One step followed by the run of the remaining targets is the run from
      the step's own target. */
  lemma {:induction false} RunComposes(t: TaskState, attempts: seq<Attempt>, rnds: seq<nat -> Draw>, pauses: seq<Draw>,
                                       results: seq<TaskResult>,
                                       visited0: seq<string>, visited1: seq<string>, visited2: seq<string>,
                                       injected0: seq<string>, injected1: seq<string>, injected2: seq<string>,
                                       slept0: seq<int>, slept1: seq<int>, slept2: seq<int>)
    requires |attempts| == |rnds| == |pauses| == |t.links| - t.currentIndex > 1
    requires visited1 == visited0 + [t.links[t.currentIndex]]
    requires injected1 == injected0 + Handed(t.message, attempts[0], rnds[0])
    requires slept1 == slept0 + [RandomDelay(t.delayMin, t.delayMax, pauses[0])]
    requires results == Advance(t, attempts[0]).results + Outcomes(t.links[t.currentIndex + 1..], attempts[1..])
    requires visited2 == visited1 + t.links[t.currentIndex + 1..]
    requires injected2 == injected1 + Injected(t.message, attempts[1..], rnds[1..])
    requires slept2 == slept1 + Delays(t.delayMin, t.delayMax, pauses[1..])
    ensures results == t.results + Outcomes(t.links[t.currentIndex..], attempts)
    ensures visited2 == visited0 + t.links[t.currentIndex..]
    ensures injected2 == injected0 + Injected(t.message, attempts, rnds)
    ensures slept2 == slept0 + Delays(t.delayMin, t.delayMax, pauses)
  {
    ResultsCompose(t, attempts, results);
    VisitsCompose(t.links, t.currentIndex, visited0, visited1, visited2);
    InjectedCompose(t.message, attempts, rnds, injected0, injected1, injected2);
    DelaysCompose(t.delayMin, t.delayMax, pauses, slept0, slept1, slept2);
  }

  /** One step's messages followed by the rest of the run's are the run's
      messages from the step's own target. */
  lemma {:induction false} OutboxComposes(t: TaskState, attempts: seq<Attempt>, pauses: seq<Draw>,
                                          outbox0: seq<PopupMessage>, outbox1: seq<PopupMessage>, outbox2: seq<PopupMessage>)
    requires |attempts| == |pauses| == |t.links| - t.currentIndex > 1
    requires outbox1 == outbox0 + StepMessages(t, attempts[0], pauses[0])
    requires outbox2 == outbox1 + RunMessages(Advance(t, attempts[0]), attempts[1..], pauses[1..])
    ensures outbox2 == outbox0 + RunMessages(t, attempts, pauses)
  {
    Chain(outbox0, StepMessages(t, attempts[0], pauses[0]),
          RunMessages(Advance(t, attempts[0]), attempts[1..], pauses[1..]), outbox1, outbox2);
  }

  /** Whatever came before, a run's messages end with the completion
      messages over all results: the earlier ones and one per remaining
      target, whether or not a target was left. */
  lemma {:induction false} RunEnds(prefix: seq<PopupMessage>, t: TaskState, attempts: seq<Attempt>, pauses: seq<Draw>)
    requires |attempts| == |pauses| == |t.links| - t.currentIndex
    ensures var o := prefix + RunMessages(t, attempts, pauses);
      |o| >= 3 && o[|o| - 3..] == CompletionMessages(t.results + Outcomes(t.links[t.currentIndex..], attempts))
    decreases |attempts|
  {
    if attempts == [] {
      EmptyRunEnds(prefix, t, attempts, pauses);
    } else if |attempts| == 1 {
      LastRunEnds(prefix, t, attempts, pauses);
    } else {
      var step := StepMessages(t, attempts[0], pauses[0]);
      RunEnds(prefix + step, Advance(t, attempts[0]), attempts[1..], pauses[1..]);
      NextRunEnds(prefix, t, attempts, pauses);
    }
  }

  /** If the run after the first step ends with the completion, so does the
      whole run. */
  lemma NextRunEnds(prefix: seq<PopupMessage>, t: TaskState, attempts: seq<Attempt>, pauses: seq<Draw>)
    requires |attempts| == |pauses| == |t.links| - t.currentIndex > 1
    requires var next := Advance(t, attempts[0]);
      var o := prefix + StepMessages(t, attempts[0], pauses[0]) + RunMessages(next, attempts[1..], pauses[1..]);
      |o| >= 3 && o[|o| - 3..] == CompletionMessages(next.results + Outcomes(next.links[next.currentIndex..], attempts[1..]))
    ensures var o := prefix + RunMessages(t, attempts, pauses);
      |o| >= 3 && o[|o| - 3..] == CompletionMessages(t.results + Outcomes(t.links[t.currentIndex..], attempts))
  {
    var next := Advance(t, attempts[0]);
    Associate(prefix, StepMessages(t, attempts[0], pauses[0]), RunMessages(next, attempts[1..], pauses[1..]));
    ResultsCompose(t, attempts, next.results + Outcomes(t.links[t.currentIndex + 1..], attempts[1..]));
  }

  /** The run of the last target alone ends with the completion over all results. */
  lemma LastRunEnds(prefix: seq<PopupMessage>, t: TaskState, attempts: seq<Attempt>, pauses: seq<Draw>)
    requires |attempts| == |pauses| == |t.links| - t.currentIndex == 1
    ensures var o := prefix + RunMessages(t, attempts, pauses);
      |o| >= 3 && o[|o| - 3..] == CompletionMessages(t.results + Outcomes(t.links[t.currentIndex..], attempts))
  {
    LastStepEnds(prefix, t, attempts[0], pauses[0]);
    assert Outcomes(t.links[t.currentIndex + 1..], attempts[1..]) == [];
    ResultsCompose(t, attempts, Advance(t, attempts[0]).results + []);
  }

  /** With no target left, the run is the final line and the completion. */
  lemma EmptyRunEnds(prefix: seq<PopupMessage>, t: TaskState, attempts: seq<Attempt>, pauses: seq<Draw>)
    requires |attempts| == |pauses| == |t.links| - t.currentIndex == 0
    ensures var o := prefix + RunMessages(t, attempts, pauses);
      |o| >= 3 && o[|o| - 3..] == CompletionMessages(t.results + Outcomes(t.links[t.currentIndex..], attempts))
  {
    var c := CompletionMessages(t.results);
    assert t.links[t.currentIndex..] == [];
    assert t.results + Outcomes([], attempts) == t.results;
    Associate(prefix, [Log("所有任务完成!", SuccessLevel)], c);
    Suffix(prefix + [Log("所有任务完成!", SuccessLevel)], c);
  }

  /** A run with a target left opens with that target's progress and
      processing line. */
  lemma RunBegins(t: TaskState, attempts: seq<Attempt>, pauses: seq<Draw>)
    requires |attempts| == |pauses| == |t.links| - t.currentIndex > 0
    ensures var o := RunMessages(t, attempts, pauses);
      |o| >= 2 && o[0] == Progress(t.currentIndex, |t.links|)
      && o[1] == Info(ProcessingText(t.currentIndex, |t.links|, t.links[t.currentIndex]))
  {
  }

  /** The current target's result followed by the rest's are the results
      from the current target on. */
  lemma {:induction false} ResultsCompose(t: TaskState, attempts: seq<Attempt>, results: seq<TaskResult>)
    requires |attempts| == |t.links| - t.currentIndex > 0
    requires results == Advance(t, attempts[0]).results + Outcomes(t.links[t.currentIndex + 1..], attempts[1..])
    ensures results == t.results + Outcomes(t.links[t.currentIndex..], attempts)
  {
    var rest := t.links[t.currentIndex..];
    OutcomesCons(rest, attempts);
    assert rest[1..] == t.links[t.currentIndex + 1..];
    Chain(t.results, [Outcome(rest[0], attempts[0])], Outcomes(rest[1..], attempts[1..]),
          Advance(t, attempts[0]).results, results);
  }

  /** Visiting link `i` and then the links after it visits the links from `i` on. */
  lemma {:induction false} VisitsCompose(links: seq<string>, i: nat,
                                         visited0: seq<string>, visited1: seq<string>, visited2: seq<string>)
    requires i < |links|
    requires visited1 == visited0 + [links[i]] && visited2 == visited1 + links[i + 1..]
    ensures visited2 == visited0 + links[i..]
  {
    assert [links[i]] + links[i + 1..] == links[i..];
    Chain(visited0, [links[i]], links[i + 1..], visited1, visited2);
  }

  /** The first target's hand-over followed by the rest's is the run's. */
  lemma {:induction false} InjectedCompose(message: string, attempts: seq<Attempt>, rnds: seq<nat -> Draw>,
                                           injected0: seq<string>, injected1: seq<string>, injected2: seq<string>)
    requires |attempts| == |rnds| > 0
    requires injected1 == injected0 + Handed(message, attempts[0], rnds[0])
    requires injected2 == injected1 + Injected(message, attempts[1..], rnds[1..])
    ensures injected2 == injected0 + Injected(message, attempts, rnds)
  {
    Chain(injected0, Handed(message, attempts[0], rnds[0]), Injected(message, attempts[1..], rnds[1..]),
          injected1, injected2);
  }

  /** The first pause followed by the rest's pauses are the run's pauses. */
  lemma {:induction false} DelaysCompose(delayMin: int, delayMax: int, pauses: seq<Draw>,
                                         slept0: seq<int>, slept1: seq<int>, slept2: seq<int>)
    requires |pauses| > 1
    requires slept1 == slept0 + [RandomDelay(delayMin, delayMax, pauses[0])]
    requires slept2 == slept1 + Delays(delayMin, delayMax, pauses[1..])
    ensures slept2 == slept0 + Delays(delayMin, delayMax, pauses)
  {
    Chain(slept0, [RandomDelay(delayMin, delayMax, pauses[0])], Delays(delayMin, delayMax, pauses[1..]),
          slept1, slept2);
  }

  /** A run with no target left adds nothing. */
  lemma {:induction false} EmptyRun(t: TaskState, attempts: seq<Attempt>, rnds: seq<nat -> Draw>, pauses: seq<Draw>,
                                    visited0: seq<string>, injected0: seq<string>, slept0: seq<int>)
    requires |attempts| == |rnds| == |pauses| == |t.links| - t.currentIndex == 0
    ensures t.results == t.results + Outcomes(t.links[t.currentIndex..], attempts)
    ensures visited0 == visited0 + t.links[t.currentIndex..]
    ensures injected0 == injected0 + Injected(t.message, attempts, rnds)
    ensures slept0 == slept0 + Delays(t.delayMin, t.delayMax, pauses)
  {
    assert t.links[t.currentIndex..] == [];
  }

  /** A run of the last target alone: that target's result, visit and
      hand-over, and no pause. */
  lemma {:induction false} LastRun(t: TaskState, attempts: seq<Attempt>, rnds: seq<nat -> Draw>, pauses: seq<Draw>,
                                   visited0: seq<string>, visited1: seq<string>,
                                   injected0: seq<string>, injected1: seq<string>, slept0: seq<int>)
    requires |attempts| == |rnds| == |pauses| == |t.links| - t.currentIndex == 1
    requires visited1 == visited0 + [t.links[t.currentIndex]]
    requires injected1 == injected0 + Handed(t.message, attempts[0], rnds[0])
    ensures Advance(t, attempts[0]).results == t.results + Outcomes(t.links[t.currentIndex..], attempts)
    ensures visited1 == visited0 + t.links[t.currentIndex..]
    ensures injected1 == injected0 + Injected(t.message, attempts, rnds)
    ensures slept0 == slept0 + Delays(t.delayMin, t.delayMax, pauses)
  {
    var rest := t.links[t.currentIndex..];
    OutcomesCons(rest, attempts);
    assert rest == [rest[0]];
    InjectedSingle(t.message, attempts, rnds);
  }

  /** Appending in two steps appends the concatenation. */
  lemma Chain<T>(a: seq<T>, x: seq<T>, y: seq<T>, mid: seq<T>, final: seq<T>)
    requires mid == a + x && final == mid + y
    ensures final == a + (x + y)
  {
  }

  /** A run of one target hands over what that target is handed. */
  lemma {:induction false} InjectedSingle(message: string, attempts: seq<Attempt>, rnds: seq<nat -> Draw>)
    requires |attempts| == |rnds| == 1
    ensures Injected(message, attempts, rnds) == Handed(message, attempts[0], rnds[0])
  {
    assert attempts[1..] == [] && rnds[1..] == [];
    assert Handed(message, attempts[0], rnds[0]) + [] == Handed(message, attempts[0], rnds[0]);
  }

  /** Outcomes of a run are the first target's outcome, then the rest's. */
  lemma {:induction false} OutcomesCons(links: seq<string>, attempts: seq<Attempt>)
    requires |links| == |attempts| > 0
    ensures Outcomes(links, attempts) == [Outcome(links[0], attempts[0])] + Outcomes(links[1..], attempts[1..])
  {
    var r := Outcomes(links, attempts);
    var q := [Outcome(links[0], attempts[0])] + Outcomes(links[1..], attempts[1..]);
    assert forall i :: 0 <= i < |r| ==> r[i] == q[i];
  }

  /** After the step on the last link, the last three messages are the completion. */
  lemma {:induction false} LastStepEnds(prefix: seq<PopupMessage>, t: TaskState, attempt: Attempt, pause: Draw)
    requires t.currentIndex + 1 == |t.links|
    ensures var o := prefix + StepMessages(t, attempt, pause);
      |o| >= 3 && o[|o| - 3..] == CompletionMessages(Advance(t, attempt).results)
  {
    var c := CompletionMessages(Advance(t, attempt).results);
    var y := BeginMessages(t) + AttemptMessages(t.links[t.currentIndex], attempt);
    assert StepMessages(t, attempt, pause) == y + c;
    Associate(prefix, y, c);
    Suffix(prefix + y, c);
  }


  /** A campaign's messages end with the summary over one result per link. */
  lemma CampaignEnds(config: TaskConfig, attempts: seq<Attempt>, pauses: seq<Draw>)
    requires |attempts| == |pauses| == |config.links|
    ensures var o := [Info("任务开始")]
      + RunMessages(TaskState(config.links, config.message, config.delayMin, config.delayMax, 0, []), attempts, pauses);
      var results := Outcomes(config.links, attempts);
      && |o| >= 3 && o[|o| - 3..] == CompletionMessages(results)
      && o[|o| - 3] == Log(SummaryText(CountSuccess(results), |results|), SuccessLevel)
  {
    var t := TaskState(config.links, config.message, config.delayMin, config.delayMax, 0, []);
    RunEnds([Info("任务开始")], t, attempts, pauses);
    assert t.links[t.currentIndex..] == config.links;
    assert t.results + Outcomes(config.links, attempts) == Outcomes(config.links, attempts);
  }

  /** What a run from the first link of a fresh campaign amounts to: one
      result per link in input order, and every link visited. */
  lemma CampaignFacts(config: TaskConfig, attempts: seq<Attempt>, rnds: seq<nat -> Draw>, pauses: seq<Draw>,
                      results: seq<TaskResult>, visited: seq<string>, injected: seq<string>, slept: seq<int>)
    requires |attempts| == |rnds| == |pauses| == |config.links|
    requires results == [] + Outcomes(config.links[0..], attempts)
    requires visited == [] + config.links[0..]
    requires injected == [] + Injected(config.message, attempts, rnds)
    requires slept == [] + Delays(config.delayMin, config.delayMax, pauses)
    ensures results == Outcomes(config.links, attempts)
    ensures |results| == |config.links| && forall i :: 0 <= i < |results| ==> results[i].link == config.links[i]
    ensures visited == config.links
    ensures injected == Injected(config.message, attempts, rnds)
    ensures slept == Delays(config.delayMin, config.delayMax, pauses)
  {
    assert config.links[0..] == config.links;
  }

  /** A whole campaign on a fresh worker: after START_TASK and an
      uninterrupted run, there is one result per link in input order, and the
      summary counts the successful ones. */
  method Campaign(config: TaskConfig, attempts: seq<Attempt>, rnds: seq<nat -> Draw>, pauses: seq<Draw>)
    returns (w: Worker, results: seq<TaskResult>)
    requires |attempts| == |rnds| == |pauses| == |config.links|
    ensures fresh(w) && w.Valid() && !w.isRunning
    ensures results == Outcomes(config.links, attempts)
    ensures |results| == |config.links| && forall i :: 0 <= i < |results| ==> results[i].link == config.links[i]
    ensures w.visited == config.links
    ensures w.injected == Injected(config.message, attempts, rnds)
    ensures w.slept == Delays(config.delayMin, config.delayMax, pauses)
    ensures w.outbox == [Info("任务开始")]
      + RunMessages(TaskState(config.links, config.message, config.delayMin, config.delayMax, 0, []), attempts, pauses)
    ensures |w.outbox| >= 3 && w.outbox[|w.outbox| - 3..] == CompletionMessages(results)
    ensures w.outbox[|w.outbox| - 3] == Log(SummaryText(CountSuccess(results), |results|), SuccessLevel)
  {
    w := new Worker();
    w.StartTask(config);
    ghost var t := TaskState(config.links, config.message, config.delayMin, config.delayMax, 0, []);
    assert w.task == Some(t) && w.outbox == [Info("任务开始")];
    results := w.RunToCompletion(attempts, rnds, pauses);
    CampaignFacts(config, attempts, rnds, pauses, results, w.visited, w.injected, w.slept);
    CampaignEnds(config, attempts, pauses);
  }
}

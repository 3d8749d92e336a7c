/**
 * The popup (src/entrypoints/popup/main.ts): the link parser, the validation
 * that guards a start, the link counter and the popup's own running flag.
 * DOM fields are plain values here; the text areas and number fields are the
 * parameters of the operations that read them.
 */
module Popup {
  import opened Wrappers
  import opened Strings
  import opened Types

  /** A trimmed line is kept as a profile link when it holds the host fragment. */
  predicate IsProfileLine(line: string) {
    Contains(line, ProfileHost)
  }

  /** `xs.map(f).filter(p)`. */
  function MapFilter(xs: seq<string>, f: string -> string, p: string -> bool): (r: seq<string>)
    ensures |r| <= |xs|
    ensures forall k :: 0 <= k < |r| ==> p(r[k])
  {
    if xs == [] then []
    else (if p(f(xs[0])) then [f(xs[0])] else []) + MapFilter(xs[1..], f, p)
  }

  /** The filter works item by item: a concatenation filters to the
      concatenation of the filtered parts. */
  lemma {:induction false} MapFilterAppend(a: seq<string>, b: seq<string>, f: string -> string, p: string -> bool)
    ensures MapFilter(a + b, f, p) == MapFilter(a, f, p) + MapFilter(b, f, p)
  {
    if a != [] {
      assert (a + b)[1..] == a[1..] + b;
      MapFilterAppend(a[1..], b, f, p);
    } else {
      assert a + b == b;
    }
  }

  /** No kept item is lost and the order is kept: item `i`, when kept, sits in
      the output right after the items kept before it. */
  lemma {:induction false} MapFilterKeeps(xs: seq<string>, f: string -> string, p: string -> bool, i: nat)
    requires i < |xs| && p(f(xs[i]))
    ensures var before := MapFilter(xs[..i], f, p);
      |before| < |MapFilter(xs, f, p)| && MapFilter(xs, f, p)[|before|] == f(xs[i])
  {
    var rest := [xs[i]] + xs[i + 1..];
    assert xs == xs[..i] + rest;
    MapFilterAppend(xs[..i], rest, f, p);
    assert rest[1..] == xs[i + 1..];
  }

  /** Every output entry is the image of some input item. */
  lemma {:induction false} MapFilterFrom(xs: seq<string>, f: string -> string, p: string -> bool, k: nat)
    returns (i: nat)
    requires k < |MapFilter(xs, f, p)|
    ensures i < |xs| && MapFilter(xs, f, p)[k] == f(xs[i])
  {
    if p(f(xs[0])) && k == 0 {
      i := 0;
    } else {
      var j := MapFilterFrom(xs[1..], f, p, if p(f(xs[0])) then k - 1 else k);
      i := j + 1;
    }
  }

  /** The filter comes up empty exactly when no item's image is kept. */
  lemma {:induction false} MapFilterEmptyIff(xs: seq<string>, f: string -> string, p: string -> bool)
    ensures MapFilter(xs, f, p) == [] <==> forall i :: 0 <= i < |xs| ==> !p(f(xs[i]))
  {
    if xs != [] {
      MapFilterEmptyIff(xs[1..], f, p);
      if !p(f(xs[0])) {
        assert forall i :: 1 <= i < |xs| ==> xs[i] == xs[1..][i - 1];
      }
    }
  }

  /** `lines.map(trim).filter(includes host)`: the trimmed qualifying lines, in order. */
  function Qualifying(lines: seq<string>): seq<string> {
    MapFilter(lines, Trim, IsProfileLine)
  }

  /** Every qualifying line holds the host fragment and is already trimmed. */
  lemma {:induction false} QualifyingTrimmed(lines: seq<string>)
    ensures var r := Qualifying(lines);
      forall k :: 0 <= k < |r| ==> IsProfileLine(r[k]) && IsTrimmed(r[k])
  {
    var r := Qualifying(lines);
    forall k | 0 <= k < |r| ensures IsProfileLine(r[k]) && IsTrimmed(r[k]) {
      var i := MapFilterFrom(lines, Trim, IsProfileLine, k);
      TrimmedIff(lines[i]);
    }
  }

  /** The lines of a text area: `text.split('\n')`. */
  function Lines(text: string): seq<string> {
    SplitOn(text, '\n')
  }

  /** `parseLinks`: split on line feeds, trim, keep the profile lines, take five. */
  function ParseLinks(text: string): (r: seq<string>)
    ensures |r| <= MaxLinks
    ensures var q := Qualifying(Lines(text));
      r <= q && |r| == (if |q| < MaxLinks then |q| else MaxLinks)
    ensures forall k :: 0 <= k < |r| ==> IsProfileLine(r[k]) && IsTrimmed(r[k])
  {
    var q := Qualifying(Lines(text));
    QualifyingTrimmed(Lines(text));
    if |q| <= MaxLinks then q else q[..MaxLinks]
  }

  /** The filter comes up empty exactly when no line holds the host fragment. */
  lemma {:induction false} QualifyingEmptyIff(lines: seq<string>)
    ensures Qualifying(lines) == [] <==> forall i :: 0 <= i < |lines| ==> !IsProfileLine(Trim(lines[i]))
  {
    MapFilterEmptyIff(lines, Trim, IsProfileLine);
  }

  /** No link parsed exactly when no line of the text holds the host fragment. */
  lemma {:induction false} ParseLinksEmptyIff(text: string)
    ensures ParseLinks(text) == [] <==> forall i :: 0 <= i < |Lines(text)| ==> !IsProfileLine(Trim(Lines(text)[i]))
  {
    var lines := Lines(text);
    QualifyingEmptyIff(lines);
    assert |ParseLinks(text)| == 0 <==> |Qualifying(lines)| == 0;
  }

  /** Why a start is refused. */
  datatype InputError = NoLinks | TooManyLinks | EmptyMessage

  /** The guards of `startTask`, in the order the popup applies them, and the
      configuration it sends when they pass (the delay fields are in seconds). */
  function ValidateStart(linksText: string, messageText: string, delayMinField: int, delayMaxField: int)
    : (r: Result<TaskConfig, InputError>)
    ensures r == Failure(NoLinks) <==> ParseLinks(linksText) == []
    ensures r == Failure(EmptyMessage) <==> ParseLinks(linksText) != [] && Trim(messageText) == []
    ensures r.Success? ==>
      && r.value == TaskConfig(ParseLinks(linksText), Trim(messageText), delayMinField * 1000, delayMaxField * 1000)
      && 1 <= |r.value.links| <= MaxLinks && r.value.message != []
  {
    var links := ParseLinks(linksText);
    var message := Trim(messageText);
    if |links| == 0 then Failure(NoLinks)
    else if |links| > MaxLinks then Failure(TooManyLinks)
    else if message == [] then Failure(EmptyMessage)
    else Success(TaskConfig(links, message, delayMinField * 1000, delayMaxField * 1000))
  }

  /** The five-link branch of the validation can never be taken: the parser
      has already cut the list to five. */
  lemma {:induction false} NeverTooManyLinks(linksText: string, messageText: string, delayMinField: int, delayMaxField: int)
    ensures ValidateStart(linksText, messageText, delayMinField, delayMaxField) != Failure(TooManyLinks)
  {
  }

  /** A start is accepted exactly when some line is a profile link and the
      message is not blank. */
  lemma {:induction false} ValidateAcceptsIff(linksText: string, messageText: string, delayMinField: int, delayMaxField: int)
    ensures ValidateStart(linksText, messageText, delayMinField, delayMaxField).Success?
      <==> (exists i :: 0 <= i < |Lines(linksText)| && IsProfileLine(Trim(Lines(linksText)[i])))
           && Trim(messageText) != []
  {
    ParseLinksEmptyIff(linksText);
  }

  /** The counter's three colourings: red, blue and grey. */
  datatype Tone = Alert | Active | Idle

  /** What `updateLinkCounter` shows. */
  datatype Counter = Counter(caption: string, tone: Tone)

  /** `updateLinkCounter`: the label reads `n/5` for the parsed count `n`; the
      red colouring for more than five links is never chosen. */
  function LinkCounter(linksText: string): (c: Counter)
    ensures c.tone != Alert
    ensures c.tone == Active <==> ParseLinks(linksText) != []
    ensures |c.caption| == 3 && '0' <= c.caption[0] <= '5' && c.caption[1..] == "/5"
    ensures DecimalValue(c.caption[..1]) == |ParseLinks(linksText)|
  {
    var n := |ParseLinks(linksText)|;
    var caption := Decimal(n) + "/5";
    assert caption[..1] == Decimal(n) && DecimalValue(Decimal(n)) == n by {
      DecimalRoundTrip(n);
    }
    Counter(caption, if n > MaxLinks then Alert else if n > 0 then Active else Idle)
  }

  /** The status indicator's three states. */
  datatype Indicator = Ready | Running | Errored

  /** One entry of the popup's log area (the time stamp is left out). */
  datatype LogLine = LogLine(text: string, level: Level)

  /** The log line and level the popup shows when it refuses a start. */
  function RefusalLine(e: InputError): LogLine {
    match e
    case NoLinks => LogLine("请输入至少一个有效的 Instagram 链接", ErrorLevel)
    case TooManyLinks => LogLine("MVP 版本最多支持 5 个链接", WarningLevel)
    case EmptyMessage => LogLine("请输入私信内容", ErrorLevel)
  }

  /** The log line of an accepted start. */
  function StartLine(config: TaskConfig): LogLine {
    LogLine("开始任务: " + Decimal(|config.links|) + " 个目标", InfoLevel)
  }

  /** The progress card's two texts for `updateProgress`. */
  function ProgressStats(current: nat, total: nat): string {
    Decimal(current) + "/" + Decimal(total)
  }

  function ProgressStatus(current: nat, total: nat): string {
    if current == total then "任务完成" else "正在处理第 " + Decimal(current + 1) + " 个目标..."
  }

  /** The popup page: its running flag, status indicator, log area, progress
      texts and the requests it has sent to the background worker. */
  class PopupController {
    var isRunning: bool
    var indicator: Indicator
    var log: seq<LogLine>
    var sent: seq<Request>
    var stats: string
    var status: string

    constructor()
      ensures !isRunning && indicator == Ready && log == [] && sent == []
      ensures stats == [] && status == []
    {
      isRunning := false;
      indicator := Ready;
      log := [];
      sent := [];
      stats := [];
      status := [];
    }

    /** `checkRunningTask`: a stored running flag puts the popup into the
        running state; otherwise nothing changes. */
    method CheckRunningTask(taskRunning: bool)
      modifies this
      ensures taskRunning ==> isRunning && indicator == Running
      ensures !taskRunning ==> isRunning == old(isRunning) && indicator == old(indicator)
      ensures log == old(log) && sent == old(sent) && stats == old(stats) && status == old(status)
    {
      if taskRunning {
        isRunning := true;
        indicator := Running;
      }
    }

    /** `startTask`: the guards are those of `ValidateStart`; a refused start
        only logs and shows the error state, an accepted one sets the running
        flag and sends exactly one START_TASK. */
    method StartTask(linksText: string, messageText: string, delayMinField: int, delayMaxField: int)
      modifies this
      ensures stats == old(stats) && status == old(status)
      ensures match ValidateStart(linksText, messageText, delayMinField, delayMaxField)
        case Failure(e) =>
          && isRunning == old(isRunning) && sent == old(sent)
          && indicator == Errored && log == old(log) + [RefusalLine(e)]
        case Success(config) =>
          && isRunning && indicator == Running
          && sent == old(sent) + [StartRequest(config)] && log == old(log) + [StartLine(config)]
    {
      match ValidateStart(linksText, messageText, delayMinField, delayMaxField) {
        case Failure(e) => Refuse(e);
        case Success(config) => Accept(config);
      }
    }

    /** A refused start: the refusal is logged and the indicator shows the error. */
    method Refuse(e: InputError)
      modifies this
      ensures isRunning == old(isRunning) && sent == old(sent) && stats == old(stats) && status == old(status)
      ensures indicator == Errored && log == old(log) + [RefusalLine(e)]
    {
      log := log + [RefusalLine(e)];
      indicator := Errored;
    }

    /** An accepted start: running, logged, and START_TASK sent. */
    method Accept(config: TaskConfig)
      modifies this
      ensures stats == old(stats) && status == old(status)
      ensures isRunning && indicator == Running
      ensures sent == old(sent) + [StartRequest(config)] && log == old(log) + [StartLine(config)]
    {
      isRunning := true;
      indicator := Running;
      log := log + [StartLine(config)];
      sent := sent + [StartRequest(config)];
    }

    /** `stopTask`: sends STOP_TASK, logs the stop and then completes. */
    method StopTask()
      modifies this
      ensures sent == old(sent) + [StopRequest]
      ensures log == old(log) + [LogLine("任务已停止", WarningLevel)]
      ensures !isRunning && indicator == Ready
      ensures stats == old(stats) && status == old(status)
    {
      sent := sent + [StopRequest];
      log := log + [LogLine("任务已停止", WarningLevel)];
      OnTaskComplete();
    }

    /** `onTaskComplete`: back to the ready state. */
    method OnTaskComplete()
      modifies this
      ensures !isRunning && indicator == Ready
      ensures log == old(log) && sent == old(sent) && stats == old(stats) && status == old(status)
    {
      isRunning := false;
      indicator := Ready;
    }

    /** The listener for messages from the background worker. */
    method OnMessage(m: PopupMessage)
      modifies this
      ensures sent == old(sent)
      ensures match m
        case Log(text, level) =>
          && log == old(log) + [LogLine(text, level)]
          && isRunning == old(isRunning) && indicator == old(indicator)
          && stats == old(stats) && status == old(status)
        case Progress(current, total) =>
          && stats == ProgressStats(current, total) && status == ProgressStatus(current, total)
          && log == old(log) && isRunning == old(isRunning) && indicator == old(indicator)
        case TaskComplete =>
          && !isRunning && indicator == Ready
          && log == old(log) && stats == old(stats) && status == old(status)
    {
      match m
      case Log(text, level) =>
        log := log + [LogLine(text, level)];
      case Progress(current, total) =>
        stats := ProgressStats(current, total);
        status := ProgressStatus(current, total);
      case TaskComplete =>
        OnTaskComplete();
    }
  }
}

/** The video part of the `useCreativeAgent` hook (src/components/demos/useCreativeAgent.ts):
    `handleGenerateVideo` with its submission and polling loop, `handleCancelVideo`, and the
    job controller the two share. Each `await` of the loop is a point where the user may
    cancel; the replies of the endpoints arrive as a script. */
module VideoJob {
  import opened Js
  import opened Text

  const MaxVideoSeconds: int := 60
  const NeedPrompt: string := "Provide a prompt to generate video."
  const Submitting: string := "Submitting generation job..."
  const StartFailed: string := "Video generation failed"
  const StartFailedMessage: string := "Video generation failed to start."
  const NoJobId: string := "Video provider did not return a job ID"
  const JobQueued: string := "Job queued. Polling status..."
  const StatusUnavailable: string := "Unable to fetch job status"
  const PollFailed: string := "Failed to poll video job"
  const PollFailedMessage: string := "Video status polling failed."
  const Ready: string := "Video ready to play."
  const RenderFailedMessage: string := "Video generation failed."
  const Rendering: string := "Video is rendering..."
  const CancelledMessage: string := "Video generation cancelled."
  const NullRead: string := "Cannot read properties of null"

  /** `VideoStatus` as the hook assigns it. */
  datatype VideoStatus = Idle | Queued | Processing | Done | Error

  /** `videoState`: the five state values the hook exposes. */
  datatype VideoView = VideoView(
    status: VideoStatus, statusMessage: string, url: JsValue, isGenerating: bool, error: JsValue)

  const InitialView: VideoView := VideoView(Idle, "", Null, false, Null)

  /** What a `fetch` to a video endpoint gives: a thrown error, a response that is not
      `ok` with the `error` field of its JSON body, or an `ok` response with its JSON body. */
  datatype Reply = Threw(message: string) | NotOk(errorField: JsValue) | Replied(payload: JsValue)

  /** The `POST /api/video/${provider}` the handler sends. */
  datatype VideoRequest = VideoRequest(path: string, prompt: string, duration: int)

  /** One turn of the polling loop: whether the user cancelled while the loop was awaiting,
      and the reply of the status request. */
  datatype PollEvent = PollEvent(cancelDuringWait: bool, reply: Reply)

  /** `Math.min(videoDuration, MAX_VIDEO_SECONDS)` */
  function ClampDuration(d: int): (r: int)
    ensures r <= MaxVideoSeconds && (r == d || r == MaxVideoSeconds)
    ensures d <= MaxVideoSeconds ==> r == d
  {
    if d < MaxVideoSeconds then d else MaxVideoSeconds
  }

  /** `(promptOverride ?? videoPrompt ?? instruction).trim()`; `videoPrompt` is a string
      state, so the last fallback is never reached. */
  function PromptText(promptOverride: Option<string>, videoPrompt: string): string
  {
    Trim(if promptOverride.Some? then promptOverride.value else videoPrompt)
  }

  function SubmitRequest(provider: string, promptText: string, videoDuration: int): (r: VideoRequest)
    ensures r.duration <= MaxVideoSeconds && r.prompt == promptText
  {
    VideoRequest("/api/video/" + provider, promptText, ClampDuration(videoDuration))
  }

  /** `(status || state || "processing")` */
  function EffectiveStatus(payload: JsValue): JsValue
  {
    var status := Get(payload, "status");
    var state := Get(payload, "state");
    if Truthy(status) then status else if Truthy(state) then state else Str("processing")
  }

  /** The view once the user has cancelled: `handleCancelVideo`. */
  function Cancelled(v: VideoView): (r: VideoView)
    ensures r.status == Idle && r.statusMessage == CancelledMessage && !r.isGenerating
    ensures r.url == v.url && r.error == v.error
  {
    v.(isGenerating := false, status := Idle, statusMessage := CancelledMessage)
  }

  /** The catch block of the loop. */
  function PollError(v: VideoView, message: string): VideoView
  {
    v.(status := Error, error := Str(message), statusMessage := PollFailedMessage)
  }

  /** One status reply applied to the view: the new view, and whether the loop breaks. */
  function ApplyPoll(v: VideoView, reply: Reply): (VideoView, bool)
  {
    match reply
    case Threw(m) => (PollError(v, if m == "" then PollFailed else m), true)
    case NotOk(e) => (PollError(v, RaisedMessage(e, StatusUnavailable, PollFailed)), true)
    case Replied(payload) =>
      if Nullish(payload) then (PollError(v, NullRead), true)
      else
        var status := EffectiveStatus(payload);
        if status == Str("done") then
          var url := Get(payload, "url");
          (v.(status := Done, statusMessage := Ready, url := if Truthy(url) then url else v.url), true)
        else if status == Str("error") || status == Str("failed") then
          var e := Get(payload, "error");
          (v.(status := Error, error := if Truthy(e) then e else Str(StartFailed),
              statusMessage := RenderFailedMessage), true)
        else (v.(status := Processing, statusMessage := Rendering), false)
  }

  /** A reply after which the loop goes on polling. */
  predicate KeepsPolling(reply: Reply)
  {
    !ApplyPoll(InitialView, reply).1
  }

  lemma KeepsPollingAnyView(v: VideoView, reply: Reply)
    ensures ApplyPoll(v, reply).1 == !KeepsPolling(reply)
    ensures KeepsPolling(reply) ==> ApplyPoll(v, reply).0 == v.(status := Processing, statusMessage := Rendering)
  {
  }

  /** The loop AS WRITTEN: a cancel during the wait sets the cancelled view, but the status
      request that follows is still applied to it; only the next test of the controller ends
      the loop. */
  function PollAsWritten(v: VideoView, events: seq<PollEvent>): VideoView
    decreases |events|
  {
    if events == [] then v
    else
      var afterWait := if events[0].cancelDuringWait then Cancelled(v) else v;
      var (next, stop) := ApplyPoll(afterWait, events[0].reply);
      if stop || events[0].cancelDuringWait then next else PollAsWritten(next, events[1..])
  }

  /** The loop as intended: the controller is tested again once the wait is over, and a
      cancelled job applies nothing more. */
  function PollChecked(v: VideoView, events: seq<PollEvent>): VideoView
    decreases |events|
  {
    if events == [] then v
    else if events[0].cancelDuringWait then Cancelled(v)
    else
      var (next, stop) := ApplyPoll(v, events[0].reply);
      if stop then next else PollChecked(next, events[1..])
  }

  /** The loop reaches turn `k` with nothing cancelled and nothing final before it. */
  predicate ReachesTurn(events: seq<PollEvent>, k: nat)
  {
    k < |events| && forall j :: 0 <= j < k ==> !events[j].cancelDuringWait && KeepsPolling(events[j].reply)
  }

  /** As written, a cancel in the middle of rendering is overwritten by the status reply
      that was in flight: the view says "Video is rendering..." although the job is
      cancelled, and the loop then stops. */
  lemma {:induction false} CancelOverwrittenAsWritten(v: VideoView, events: seq<PollEvent>, k: nat)
    requires ReachesTurn(events, k) && events[k].cancelDuringWait && KeepsPolling(events[k].reply)
    ensures PollAsWritten(v, events).status == Processing
    ensures PollAsWritten(v, events).statusMessage == Rendering
    decreases k
  {
    KeepsPollingAnyView(Cancelled(v), events[0].reply);
    if k > 0 {
      KeepsPollingAnyView(v, events[0].reply);
      assert ReachesTurn(events[1..], k - 1) by {
        forall j | 0 <= j < k - 1 ensures !events[1..][j].cancelDuringWait && KeepsPolling(events[1..][j].reply) {
          assert events[1..][j] == events[j + 1];
        }
      }
      CancelOverwrittenAsWritten(v.(status := Processing, statusMessage := Rendering), events[1..], k - 1);
    }
  }

  /** A concrete run: one turn, cancelled during the wait, whose reply says "processing". */
  lemma CancelOverwrittenExample()
    ensures PollAsWritten(InitialView, [PollEvent(true, Replied(Obj(map["status" := Str("processing")])))]).statusMessage
      == Rendering
  {
    var events := [PollEvent(true, Replied(Obj(map["status" := Str("processing")])))];
    assert KeepsPolling(events[0].reply);
    CancelOverwrittenAsWritten(InitialView, events, 0);
  }

  /** With the controller tested after the wait, a cancel the loop reaches is final: the
      view is the cancelled one, whatever the replies say. */
  lemma {:induction false} CancelIsFinal(v: VideoView, events: seq<PollEvent>, k: nat)
    requires ReachesTurn(events, k) && events[k].cancelDuringWait
    ensures PollChecked(v, events).status == Idle
    ensures PollChecked(v, events).statusMessage == CancelledMessage
    ensures !PollChecked(v, events).isGenerating
    decreases k
  {
    if k > 0 {
      KeepsPollingAnyView(v, events[0].reply);
      assert ReachesTurn(events[1..], k - 1) by {
        forall j | 0 <= j < k - 1 ensures !events[1..][j].cancelDuringWait && KeepsPolling(events[1..][j].reply) {
          assert events[1..][j] == events[j + 1];
        }
      }
      CancelIsFinal(v.(status := Processing, statusMessage := Rendering), events[1..], k - 1);
    }
  }

  /** Without a cancel the two loops agree. */
  lemma {:induction false} NoCancelSameLoop(v: VideoView, events: seq<PollEvent>)
    requires forall j :: 0 <= j < |events| ==> !events[j].cancelDuringWait
    ensures PollChecked(v, events) == PollAsWritten(v, events)
    decreases |events|
  {
    if events != [] {
      var (next, stop) := ApplyPoll(v, events[0].reply);
      if !stop {
        NoCancelSameLoop(next, events[1..]);
      }
    }
  }

  /** A loop that stops on a reply leaves a final status: done with its url, or an error
      with a message. */
  lemma FinalReplies(v: VideoView, reply: Reply)
    requires !KeepsPolling(reply)
    ensures var w := ApplyPoll(v, reply).0;
      (w.status == Done && w.statusMessage == Ready) || (w.status == Error && Truthy(w.error))
  {
    KeepsPollingAnyView(v, reply);
  }

  /** The view `handleGenerateVideo` sets before it submits the job. */
  function QueuedView(v: VideoView): (r: VideoView)
    ensures r.status == Queued && r.statusMessage == Submitting && r.isGenerating
    ensures r.url == Null && r.error == Null
  {
    v.(error := Null, url := Null, status := Queued, statusMessage := Submitting, isGenerating := true)
  }

  /** The reply to the submission applied to view `v`: the new view, and whether polling
      starts. */
  function AfterSubmit(v: VideoView, submit: Reply): (VideoView, bool)
  {
    match submit
    case Threw(m) => (StartError(v, if m == "" then StartFailed else m), false)
    case NotOk(e) => (StartError(v, RaisedMessage(e, StartFailed, StartFailed)), false)
    case Replied(payload) =>
      if Nullish(payload) then (StartError(v, NullRead), false)
      else if !Truthy(Get(payload, "jobId")) then (StartError(v, NoJobId), false)
      else (v.(statusMessage := JobQueued), true)
  }

  /** AS WRITTEN, from the prompt check to the start of polling. A cancel while the
      submission is pending marks only the previous controller (or none) and sets the
      cancelled view; the reply is then applied to that view anyway, and a job id starts
      polling under a fresh, uncancelled controller. */
  function StartAsWritten(v: VideoView, promptText: string, cancelDuringSubmit: bool, submit: Reply): (VideoView, bool)
  {
    if promptText == "" then (v.(error := Str(NeedPrompt)), false)
    else
      var queued := QueuedView(v);
      AfterSubmit(if cancelDuringSubmit then Cancelled(queued) else queued, submit)
  }

  /** As intended: a cancel while the submission is pending ends the handler with the
      cancelled view, and the reply is not applied. */
  function StartView(v: VideoView, promptText: string, cancelDuringSubmit: bool, submit: Reply): (VideoView, bool)
  {
    if promptText == "" then (v.(error := Str(NeedPrompt)), false)
    else if cancelDuringSubmit then (Cancelled(QueuedView(v)), false)
    else AfterSubmit(QueuedView(v), submit)
  }

  /** The outer catch and `finally` of `handleGenerateVideo`. */
  function StartError(v: VideoView, message: string): VideoView
  {
    v.(status := Error, error := Str(message), statusMessage := StartFailedMessage, isGenerating := false)
  }

  /** The whole handler as written, `finally` included. */
  function GenerateVideoAsWritten(v: VideoView, promptText: string, cancelDuringSubmit: bool, submit: Reply,
                                  events: seq<PollEvent>): VideoView
  {
    var (started, polling) := StartAsWritten(v, promptText, cancelDuringSubmit, submit);
    if polling then PollAsWritten(started, events).(isGenerating := false) else started
  }

  /** The whole handler as intended, `finally` included. */
  function GenerateVideo(v: VideoView, promptText: string, cancelDuringSubmit: bool, submit: Reply,
                         events: seq<PollEvent>): VideoView
  {
    var (started, polling) := StartView(v, promptText, cancelDuringSubmit, submit);
    if polling then PollChecked(started, events).(isGenerating := false) else started
  }

  /** Polling turns that are not cancelled and all answer "still going" leave the
      rendering view. */
  lemma {:induction false} RenderingWhileKeptPolling(v: VideoView, events: seq<PollEvent>)
    requires events != []
    requires forall j :: 0 <= j < |events| ==> !events[j].cancelDuringWait && KeepsPolling(events[j].reply)
    ensures PollAsWritten(v, events).status == Processing
    ensures PollAsWritten(v, events).statusMessage == Rendering
    decreases |events|
  {
    KeepsPollingAnyView(v, events[0].reply);
    if |events| > 1 {
      assert forall j :: 0 <= j < |events[1..]| ==> events[1..][j] == events[j + 1];
      RenderingWhileKeptPolling(v.(status := Processing, statusMessage := Rendering), events[1..]);
    }
  }

  /** As written, a cancel while the submission is pending is lost: when the provider
      returns a job id, polling starts anyway, and its replies overwrite the cancelled
      view. */
  lemma SubmitCancelOverwrittenAsWritten(v: VideoView, promptText: string, submit: Reply, events: seq<PollEvent>)
    requires promptText != "" && submit.Replied? && !Nullish(submit.payload) && Truthy(Get(submit.payload, "jobId"))
    requires events != []
    requires forall j :: 0 <= j < |events| ==> !events[j].cancelDuringWait && KeepsPolling(events[j].reply)
    ensures StartAsWritten(v, promptText, true, submit).1
    ensures GenerateVideoAsWritten(v, promptText, true, submit, events).status == Processing
    ensures GenerateVideoAsWritten(v, promptText, true, submit, events).statusMessage == Rendering
  {
    RenderingWhileKeptPolling(StartAsWritten(v, promptText, true, submit).0, events);
  }

  /** As intended, a cancel while the submission is pending is final: no polling starts
      and the cancelled view stays. */
  lemma SubmitCancelIsFinal(v: VideoView, promptText: string, submit: Reply, events: seq<PollEvent>)
    requires promptText != ""
    ensures !StartView(v, promptText, true, submit).1
    ensures GenerateVideo(v, promptText, true, submit, events).status == Idle
    ensures GenerateVideo(v, promptText, true, submit, events).statusMessage == CancelledMessage
    ensures !GenerateVideo(v, promptText, true, submit, events).isGenerating
  {
  }

  /** Without any cancel the intended handler is the handler as written. */
  lemma NoCancelSameHandler(v: VideoView, promptText: string, submit: Reply, events: seq<PollEvent>)
    requires forall j :: 0 <= j < |events| ==> !events[j].cancelDuringWait
    ensures GenerateVideo(v, promptText, false, submit, events) == GenerateVideoAsWritten(v, promptText, false, submit, events)
  {
    var (started, polling) := StartView(v, promptText, false, submit);
    if polling {
      NoCancelSameLoop(started, events);
    }
  }

  /** A blank prompt changes only the error; a failed submission ends in an error that is
      never empty, with generation off; a cancel during the submission leaves the
      cancelled view; and no run leaves `isGenerating` set. */
  lemma GenerateVideoOutcomes(v: VideoView, promptText: string, cancelDuringSubmit: bool, submit: Reply,
                              events: seq<PollEvent>)
    ensures promptText == "" ==> GenerateVideo(v, promptText, cancelDuringSubmit, submit, events) == v.(error := Str(NeedPrompt))
    ensures promptText != "" && cancelDuringSubmit ==>
      GenerateVideo(v, promptText, cancelDuringSubmit, submit, events) == Cancelled(QueuedView(v))
    ensures promptText != "" && !cancelDuringSubmit && !StartView(v, promptText, false, submit).1 ==>
      var w := GenerateVideo(v, promptText, false, submit, events);
      w.status == Error && w.statusMessage == StartFailedMessage && w.error.Str? && w.error.s != ""
    ensures promptText != "" ==> !GenerateVideo(v, promptText, cancelDuringSubmit, submit, events).isGenerating
  {
  }

  /** `{ cancelled: boolean }`, shared through `videoJobRef` by the loop and the cancel. */
  class JobController {
    var cancelled: bool

    constructor ()
      ensures !cancelled
    {
      cancelled := false;
    }
  }

  /** The hook's video state together with `videoJobRef`. */
  class VideoSession {
    var status: VideoStatus
    var statusMessage: string
    var url: JsValue
    var isGenerating: bool
    var error: JsValue
    var job: JobController?

    function View(): VideoView
      reads this
    {
      VideoView(status, statusMessage, url, isGenerating, error)
    }

    constructor ()
      ensures View() == InitialView && job == null
    {
      status, statusMessage, url, isGenerating, error := Idle, "", Null, false, Null;
      job := null;
    }

    method SetView(v: VideoView)
      modifies this
      ensures View() == v && job == old(job)
    {
      status, statusMessage, url, isGenerating, error := v.status, v.statusMessage, v.url, v.isGenerating, v.error;
    }

    /** `handleCancelVideo`: `stopActiveVideoJob` marks the current job, then the view is
        set to the cancelled one. */
    method Cancel()
      modifies this, job
      ensures job == old(job) && (job != null ==> job.cancelled)
      ensures View() == Cancelled(old(View()))
    {
      if job != null {
        job.cancelled := true;
      }
      isGenerating := false;
      status := Idle;
      statusMessage := CancelledMessage;
    }

    /** The polling loop of `handleGenerateVideo` with the controller tested after each
        wait; `controller` is the job this run created. */
    method Poll(controller: JobController, events: seq<PollEvent>)
      requires job == controller && !controller.cancelled
      modifies this, controller
      ensures View() == PollChecked(old(View()), events)
      ensures job == controller
    {
      ghost var target := PollChecked(View(), events);
      var i := 0;
      while !controller.cancelled && i < |events|
        invariant 0 <= i <= |events| && job == controller
        invariant !controller.cancelled ==> target == PollChecked(View(), events[i..])
        invariant controller.cancelled ==> View() == target
        decreases |events| - i
      {
        assert events[i..][0] == events[i] && events[i..][1..] == events[i + 1..];
        if events[i].cancelDuringWait {
          Cancel();
        }
        if controller.cancelled {
          break;
        }
        var (next, stop) := ApplyPoll(View(), events[i].reply);
        SetView(next);
        i := i + 1;
        if stop {
          break;
        }
      }
    }

    /** The submission of `handleGenerateVideo` up to the start of polling; a cancel
        while the request is pending (`cancelDuringSubmit`) ends it with the cancelled
        view. */
    method Submit(promptText: string, cancelDuringSubmit: bool, reply: Reply) returns (polling: bool)
      requires promptText != ""
      modifies this, job
      ensures (View(), polling) == StartView(old(View()), promptText, cancelDuringSubmit, reply)
      ensures job == old(job) && (cancelDuringSubmit && job != null ==> job.cancelled)
    {
      error, url, status, statusMessage, isGenerating := Null, Null, Queued, Submitting, true;
      polling := false;
      if cancelDuringSubmit {
        Cancel();
        return;
      }
      match reply
      case Threw(m) =>
        SetView(StartError(View(), if m == "" then StartFailed else m));
      case NotOk(e) =>
        SetView(StartError(View(), RaisedMessage(e, StartFailed, StartFailed)));
      case Replied(payload) =>
        if Nullish(payload) {
          SetView(StartError(View(), NullRead));
        } else if !Truthy(Get(payload, "jobId")) {
          SetView(StartError(View(), NoJobId));
        } else {
          statusMessage := JobQueued;
          polling := true;
        }
    }

    /** `handleGenerateVideo(promptOverride)` as intended; `submit` answers the job
        submission, `cancelDuringSubmit` says whether the user cancels while it is pending,
        and `events` script the polling turns. */
    method Generate(promptOverride: Option<string>, videoPrompt: string, provider: string, videoDuration: int,
                    submit: VideoRequest -> Reply, cancelDuringSubmit: bool, events: seq<PollEvent>)
      modifies this, job
      ensures var promptText := PromptText(promptOverride, videoPrompt);
        View() == GenerateVideo(old(View()), promptText, cancelDuringSubmit,
                                submit(SubmitRequest(provider, promptText, videoDuration)), events)
      ensures old(job) != null && job != old(job) ==> old(job).cancelled
    {
      var promptText := PromptText(promptOverride, videoPrompt);
      var duration := ClampDuration(videoDuration);
      if promptText == "" {
        error := Str(NeedPrompt);
        return;
      }
      var reply := submit(VideoRequest("/api/video/" + provider, promptText, duration));
      Run(promptText, cancelDuringSubmit, reply, events);
    }

    /** The handler once the prompt is there: submission, a fresh controller in place of the
        previous one, polling and `finally`. */
    method Run(promptText: string, cancelDuringSubmit: bool, reply: Reply, events: seq<PollEvent>)
      requires promptText != ""
      modifies this, job
      ensures View() == GenerateVideo(old(View()), promptText, cancelDuringSubmit, reply, events)
      ensures old(job) != null && job != old(job) ==> old(job).cancelled
    {
      var polling := Submit(promptText, cancelDuringSubmit, reply);
      if polling {
        if job != null {
          job.cancelled := true;
        }
        var controller := new JobController();
        job := controller;
        Poll(controller, events);
        isGenerating := false;
      }
    }
  }
}

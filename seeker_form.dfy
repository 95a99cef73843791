/**
 * The seeker application form. Its submit builds a multipart body and posts
 * it with upload progress feeding the progress modal. Called with a retry
 * count, it retries a transient failure (a network error or a 502, 503 or
 * 504) at most twice, waiting 2000 ms and then 4000 ms; the form's own
 * submit passes the submit event instead of a count, and then no failure is
 * retried. A success clears the draft and resets the form.
 *
 * The network is a parameter: `attempts` lists, in order, what each post
 * would see (its progress events and its outcome).
 */
module SeekerForm {
  import opened Wrappers
  import opened Text
  import opened Wizard
  import Json
  import Payments
  import VideoUploader
  import Kinds
  import UploadRoutes
  import ErrorHandler
  import ProgressModal

  const Price: nat := 499
  /** `maxSize` the form gives its video picker: 250 MiB. */
  const PickerMaxSize: nat := 250 * 1024 * 1024
  const MaxRetries: nat := 2

  /** The toasts the form shows, with their wording; `Server` repeats what the server said. */
  datatype Notice =
    | CouponAccepted | InvalidCoupon | NoCoupon | NoVideo | Submitted | Retrying
    | Busy | RefreshHint | GenericFailure | Server(text: string)
  {
    function Text(): string {
      match this
      // The source file holds the UTF-8 bytes of the rupee sign and of the
      // light-bulb emoji read back as Windows-1252 text, so the app shows
      // these characters and not the glyphs.
      case CouponAccepted => "Coupon applied successfully! Amount: \U{00E2}\U{201A}\U{00B9}0"
      case InvalidCoupon => InvalidCouponMessage
      case NoCoupon => NoCouponMessage
      case NoVideo => "Please upload your video application"
      case Submitted => "Application submitted successfully!"
      case Retrying => "Retrying submission..."
      case Busy => "Server is busy or network error. Please try again in a moment."
      case RefreshHint => "\U{00F0}\U{0178}\U{2019}\U{00A1} Tip: If the issue persists, try refreshing the page."
      case GenericFailure => "Failed to submit application. Please try again."
      case Server(text) => text
    }
  }

  /** One entry of the multipart body. */
  datatype Part = Field(name: string, value: string) | Video(name: string, file: VideoUploader.File)

  /**
   * What a post ends with: a response body, or an error with its code, its
   * response status if any, and the response's message, details and tip
   * (`""` where missing, which JavaScript reads as false).
   */
  datatype Outcome =
    | Responded(success: bool, applicationId: string, videoDriveLink: string)
    | Failed(code: string, status: Option<int>, message: string, details: string, tip: string)

  /** One post: the upload percents reported while it runs, then its outcome. */
  datatype Attempt = Attempt(progress: seq<int>, outcome: Outcome)

  /** The progress modal's stages that the form sets, with the modal's ids for them. */
  datatype Stage = Uploading | Saving | Complete {
    function Id(): string {
      match this
      case Uploading => "uploading"
      case Saving => "saving"
      case Complete => "complete"
    }
  }

  /**
   * Every stage the form sets is one the modal knows, so the modal always has
   * exactly one active step; the form never sets the modal's "email" step,
   * which is therefore never active.
   */
  lemma StagesKnownToModal(s: Stage)
    ensures s.Id() in ProgressModal.StepIds
    ensures ProgressModal.CurrentStepIndex(s.Id()) == match s
      case Uploading => 0
      case Saving => 1
      case Complete => 3
    ensures s.Id() != "email"
  {
    match s
    case Uploading => ProgressModal.StepIndexOfEachId(0);
    case Saving => ProgressModal.StepIndexOfEachId(1);
    case Complete => ProgressModal.StepIndexOfEachId(3);
  }

  /** What the progress modal shows: a stage and a percent. */
  datatype Shown = Shown(stage: Stage, percent: int)

  /** The state the success page is opened with. */
  datatype Navigation = Navigation(applicationId: string, amount: nat, transactionId: string,
                                   kind: string, couponApplied: bool, videoDriveLink: string)

  // ---------------------------------------------------------------- body

  /** The parts one form value contributes. */
  function PartOf(e: (string, FieldValue)): seq<Part> {
    match e.1
    case Str(s) => [Field(e.0, s)]
    case Items(xs) => [Field(e.0, Json.EncodeStrings(xs))]
    case Absent => []
  }

  /**
   * An absent value gives no part, text is sent as it is, and a list is
   * sent as JSON text that decodes back to the same list.
   */
  lemma PartOfShape(e: (string, FieldValue))
    ensures e.1.Absent? <==> PartOf(e) == []
    ensures e.1.Str? ==> PartOf(e) == [Field(e.0, e.1.s)]
    ensures e.1.Items? ==> |PartOf(e)| == 1 && PartOf(e)[0].Field? && PartOf(e)[0].name == e.0
    ensures e.1.Items? ==> Json.DecodeStrings(PartOf(e)[0].value) == Some(e.1.xs)
  {
    if e.1.Items? {
      Json.EncodeStringsRoundTrip(e.1.xs);
    }
  }

  /** The parts of the form values, in key order. */
  function Parts(entries: seq<(string, FieldValue)>): seq<Part> {
    if entries == [] then [] else Parts(entries[..|entries| - 1]) + PartOf(entries[|entries| - 1])
  }

  /** The number of values that are present. */
  function Present(entries: seq<(string, FieldValue)>): nat {
    if entries == [] then 0
    else Present(entries[..|entries| - 1]) + (if entries[|entries| - 1].1.Absent? then 0 else 1)
  }

  /** Only absent values are skipped: one part per present value. */
  lemma {:induction false} PartsCount(entries: seq<(string, FieldValue)>)
    ensures |Parts(entries)| == Present(entries)
  {
    if entries != [] {
      PartsCount(entries[..|entries| - 1]);
      PartOfShape(entries[|entries| - 1]);
    }
  }

  /** The part of a present value sits after the parts of the values before it. */
  lemma {:induction false} PartPosition(entries: seq<(string, FieldValue)>, i: nat)
    requires i < |entries| && !entries[i].1.Absent?
    ensures |Parts(entries[..i])| < |Parts(entries)|
    ensures Parts(entries)[|Parts(entries[..i])|] == PartOf(entries[i])[0]
  {
    var n := |entries|;
    var init := entries[..n - 1];
    PartOfShape(entries[i]);
    assert Parts(entries) == Parts(init) + PartOf(entries[n - 1]);
    if i == n - 1 {
      assert init == entries[..i];
    } else {
      assert init[..i] == entries[..i] && init[i] == entries[i];
      PartPosition(init, i);
    }
  }

  /**
   * The whole body: the values' parts, the video when one is chosen, then
   * always `couponCode` and `amountPaid`.
   */
  function Body(entries: seq<(string, FieldValue)>, video: Option<VideoUploader.File>,
                couponCode: string, amount: nat): seq<Part>
  {
    Parts(entries) + (if video.Some? then [Video("video", video.value)] else [])
    + [Field("couponCode", couponCode), Field("amountPaid", IntToString(amount))]
  }

  /**
   * The body holds one part per present value, in order, then the video
   * exactly when one is chosen, and ends with `couponCode` and `amountPaid`.
   */
  lemma BodyLayout(entries: seq<(string, FieldValue)>, video: Option<VideoUploader.File>,
                   couponCode: string, amount: nat)
    ensures var b := Body(entries, video, couponCode, amount);
      && |b| == Present(entries) + (if video.Some? then 1 else 0) + 2
      && |Parts(entries)| <= |b| - 2
      && b[..|Parts(entries)|] == Parts(entries)
      && (video.Some? ==> b[|Parts(entries)|] == Video("video", video.value))
      && (video.None? ==> |Parts(entries)| == |b| - 2)
      && b[|b| - 2..] == [Field("couponCode", couponCode), Field("amountPaid", IntToString(amount))]
  {
    PartsCount(entries);
  }

  /** The `forEach` over the values followed by the three appends. */
  method BuildMultipart(entries: seq<(string, FieldValue)>, video: Option<VideoUploader.File>,
                        couponCode: string, amount: nat) returns (body: seq<Part>)
    ensures body == Body(entries, video, couponCode, amount)
  {
    body := [];
    for i := 0 to |entries|
      invariant body == Parts(entries[..i])
    {
      assert entries[..i + 1][..i] == entries[..i] && entries[..i + 1][i] == entries[i];
      body := body + PartOf(entries[i]);
    }
    assert entries[..|entries|] == entries;
    if video.Some? {
      body := body + [Video("video", video.value)];
    }
    // couponCode, then amountPaid
    body := body + [Field("couponCode", couponCode), Field("amountPaid", IntToString(amount))];
  }

  // ---------------------------------------------------------------- progress

  /** The modal stage for an upload percent. */
  function StageFor(percent: int): (stage: Stage)
    ensures stage == Uploading <==> percent < 90
    ensures stage == Saving <==> percent >= 90
  {
    if percent < 90 then Uploading else Saving
  }

  /** Once the upload reaches the saving stage, a higher percent stays there. */
  lemma StageMonotone(p: int, q: int)
    requires p <= q && StageFor(p) == Saving
    ensures StageFor(q) == Saving
  {
  }

  /** What the modal shows for each reported percent. */
  function ProgressShown(progress: seq<int>): seq<Shown> {
    if progress == [] then []
    else ProgressShown(progress[..|progress| - 1]) + [Shown(StageFor(progress[|progress| - 1]), progress[|progress| - 1])]
  }

  /** What the modal shows once the post ends. */
  function EndTrace(o: Outcome): seq<Shown> {
    match o
    case Responded(success, _, _) =>
      [Shown(Saving, 95)] + (if success then [Shown(Complete, 100)] else [])
    case Failed(_, _, _, _, _) => []
  }

  /** What the modal shows while a post uploads. */
  function UploadTrace(progress: seq<int>): seq<Shown> {
    [Shown(Uploading, 0)] + ProgressShown(progress)
  }

  /** What the modal shows during one attempt. */
  function AttemptTrace(a: Attempt): seq<Shown> {
    UploadTrace(a.progress) + EndTrace(a.outcome)
  }

  lemma AppendAssociative<T>(a: seq<T>, b: seq<T>, c: seq<T>)
    ensures (a + b) + c == a + (b + c)
  {
  }

  /** One modal state per reported percent, its stage following the percent. */
  lemma {:induction false} ProgressShownAt(progress: seq<int>)
    ensures |ProgressShown(progress)| == |progress|
    ensures forall i :: 0 <= i < |progress| ==>
      ProgressShown(progress)[i] == Shown(StageFor(progress[i]), progress[i])
  {
    if progress != [] {
      ProgressShownAt(progress[..|progress| - 1]);
    }
  }

  /** An attempt starts at `uploading`/0 and, when it succeeds, ends at `complete`/100. */
  lemma AttemptTraceEnds(a: Attempt)
    ensures var t := AttemptTrace(a);
      && |t| >= 1 && t[0] == Shown(Uploading, 0)
      && (a.outcome.Responded? && a.outcome.success ==> t[|t| - 1] == Shown(Complete, 100))
  {
  }

  /** In every modal state, the stage is `uploading` exactly below 90 percent. */
  predicate StagesAgree(t: seq<Shown>) {
    forall s :: s in t ==> (s.stage == Uploading <==> s.percent < 90)
  }

  lemma AttemptStagesAgree(a: Attempt)
    ensures StagesAgree(AttemptTrace(a))
  {
    var t := AttemptTrace(a);
    ProgressShownAt(a.progress);
    assert StagesAgree(ProgressShown(a.progress));
    assert t == [Shown(Uploading, 0)] + ProgressShown(a.progress) + EndTrace(a.outcome);
  }

  /**
   * The percent is not monotone: an upload that reports 100 and then gets a
   * response shows 100, then 95 while saving.
   */
  lemma ProgressFallsBackAfterUpload(link: string, id: string)
    ensures var t := AttemptTrace(Attempt([100], Responded(true, id, link)));
      t == [Shown(Uploading, 0), Shown(Saving, 100), Shown(Saving, 95), Shown(Complete, 100)]
  {
  }

  // ---------------------------------------------------------------- retries

  /** A network error, or a 502, 503 or 504 response. */
  predicate IsTransient(o: Outcome) {
    o.Failed? && (o.code == "ERR_NETWORK" || o.status == Some(502) || o.status == Some(503) || o.status == Some(504))
  }

  /**
   * The second argument of `onSubmit`, `retryCount` (default 0). The form's
   * submit handler passes the submit event there (the form library calls its
   * callback with the values and the event), so only the handler's own
   * retries pass a count.
   */
  datatype RetryArg = Event | Count(n: nat)

  /**
   * `retryCount < maxRetries`: on the event the comparison is with NaN, which
   * is false.
   */
  predicate BelowMax(arg: RetryArg) {
    arg.Count? && arg.n < MaxRetries
  }

  predicate ShouldRetry(o: Outcome, arg: RetryArg) {
    IsTransient(o) && BelowMax(arg)
  }

  /** How many more posts a submit called with `arg` may still need after the first. */
  function Remaining(arg: RetryArg): nat {
    if BelowMax(arg) then MaxRetries - arg.n else 0
  }

  /** The argument `k` retries later: counts go up by one per retry. */
  function Shifted(arg: RetryArg, k: nat): RetryArg {
    if arg.Count? then Count(arg.n + k) else arg
  }

  /** The toasts after a failure that is not retried. */
  function FailureNotices(o: Outcome): (ns: seq<Notice>)
    requires o.Failed?
    ensures o.message != "" && o.details != "" && o.tip != "" ==>
      ns == [Server(o.message), Server(o.details), Server(o.tip)]
    ensures o.message != "" && o.details != "" && o.tip == "" ==> ns == [Server(o.message), Server(o.details)]
    ensures o.message != "" && o.details == "" && o.tip != "" ==> ns == [Server(o.message), Server(o.tip)]
    ensures o.message != "" && o.details == "" && o.tip == "" ==> ns == [Server(o.message)]
    ensures o.message == "" && (o.code == "ERR_NETWORK" || o.status == Some(502)) ==> ns == [Busy, RefreshHint]
    ensures o.message == "" && !(o.code == "ERR_NETWORK" || o.status == Some(502)) ==> ns == [GenericFailure]
  {
    if o.message != "" then
      [Server(o.message)] + (if o.details != "" then [Server(o.details)] else [])
      + (if o.tip != "" then [Server(o.tip)] else [])
    else if o.code == "ERR_NETWORK" || o.status == Some(502) then [Busy, RefreshHint]
    else [GenericFailure]
  }

  /** The toasts once the last post has its outcome. */
  function Closing(o: Outcome): seq<Notice> {
    match o
    case Responded(success, _, _) => if success then [Submitted] else []
    case Failed(_, _, _, _, _) => FailureNotices(o)
  }

  /** What a whole submit does: posts made, waits, modal states, toasts, and the outcome kept. */
  datatype Run = Run(posts: nat, waits: seq<nat>, trace: seq<Shown>, notices: seq<Notice>, last: Outcome)

  function RunFrom(attempts: seq<Attempt>, arg: RetryArg): (r: Run)
    requires |attempts| > Remaining(arg)
    decreases |attempts|
  {
    var a := attempts[0];
    if ShouldRetry(a.outcome, arg) then
      var rest := RunFrom(attempts[1..], Count(arg.n + 1));
      Run(1 + rest.posts, [(arg.n + 1) * 2000] + rest.waits, AttemptTrace(a) + rest.trace,
          [Retrying] + rest.notices, rest.last)
    else
      Run(1, [], AttemptTrace(a), Closing(a.outcome), a.outcome)
  }

  /** A first post that is not retried ends the run: one post, no wait, its own trace and toasts. */
  lemma SettledRun(attempts: seq<Attempt>, arg: RetryArg)
    requires |attempts| > Remaining(arg) && !ShouldRetry(attempts[0].outcome, arg)
    ensures var a := attempts[0];
      RunFrom(attempts, arg) == Run(1, [], UploadTrace(a.progress) + EndTrace(a.outcome), Closing(a.outcome), a.outcome)
  {
  }

  /** A failure that is not retried: one post, no wait, the upload trace and the failure's toasts. */
  lemma FailedRun(attempts: seq<Attempt>, arg: RetryArg)
    requires |attempts| > Remaining(arg)
    requires attempts[0].outcome.Failed? && !ShouldRetry(attempts[0].outcome, arg)
    ensures var r := RunFrom(attempts, arg);
      && r.posts == 1 && r.waits == [] && r.trace == UploadTrace(attempts[0].progress)
      && r.notices == Closing(attempts[0].outcome) && r.last == attempts[0].outcome
      && !Succeeded(r.last)
  {
    var a := attempts[0];
    SettledRun(attempts, arg);
    assert UploadTrace(a.progress) + EndTrace(a.outcome) == UploadTrace(a.progress);
  }

  /** A retried post: its modal states, a wait and the retry toast come before the rest of the run. */
  lemma RetriedRun(attempts: seq<Attempt>, arg: RetryArg)
    requires |attempts| > Remaining(arg) && ShouldRetry(attempts[0].outcome, arg)
    ensures |attempts[1..]| > Remaining(Count(arg.n + 1))
    ensures var rest := RunFrom(attempts[1..], Count(arg.n + 1));
      RunFrom(attempts, arg) == Run(1 + rest.posts, [(arg.n + 1) * 2000] + rest.waits,
                                    AttemptTrace(attempts[0]) + rest.trace, [Retrying] + rest.notices, rest.last)
  {
  }

  /**
   * At most `MaxRetries` retries: the posts number one more than the waits,
   * at most three from a first submit, and the outcome kept is either not
   * transient or came when no retry was left.
   */
  lemma {:induction false} RunBounds(attempts: seq<Attempt>, arg: RetryArg)
    requires |attempts| > Remaining(arg)
    ensures var r := RunFrom(attempts, arg);
      && 1 <= r.posts <= Remaining(arg) + 1
      && |r.waits| == r.posts - 1
      && !ShouldRetry(r.last, Shifted(arg, r.posts - 1))
      && r.last == attempts[r.posts - 1].outcome
  {
    if ShouldRetry(attempts[0].outcome, arg) {
      RunBounds(attempts[1..], Count(arg.n + 1));
    }
  }

  /** The waits grow linearly: (retryCount + 1) * 2000 for each retry; a retry needs a count. */
  lemma {:induction false} RunWaits(attempts: seq<Attempt>, arg: RetryArg)
    requires |attempts| > Remaining(arg)
    ensures forall i :: 0 <= i < |RunFrom(attempts, arg).waits| ==>
      arg.Count? && RunFrom(attempts, arg).waits[i] == (arg.n + i + 1) * 2000
  {
    if ShouldRetry(attempts[0].outcome, arg) {
      RetriedRun(attempts, arg);
      RunWaits(attempts[1..], Count(arg.n + 1));
      var r := RunFrom(attempts, arg);
      var rest := RunFrom(attempts[1..], Count(arg.n + 1));
      assert r.waits == [(arg.n + 1) * 2000] + rest.waits;
      assert r.waits[0] == (arg.n + 0 + 1) * 2000;
      forall i | 1 <= i < |r.waits| ensures r.waits[i] == (arg.n + i + 1) * 2000 {
        assert r.waits[i] == rest.waits[i - 1];
        assert rest.waits[i - 1] == (arg.n + 1 + (i - 1) + 1) * 2000;
      }
    } else {
      SettledRun(attempts, arg);
    }
  }

  /**
   * From a call with the default count 0: three posts exactly when the first
   * two fail transiently, one exactly when the first does not, and the waits
   * are 2000 then 4000 ms.
   */
  lemma FirstSubmitRetries(attempts: seq<Attempt>)
    requires |attempts| >= 3
    ensures var r := RunFrom(attempts, Count(0));
      && (r.posts == 1 <==> !IsTransient(attempts[0].outcome))
      && (r.posts == 3 <==> IsTransient(attempts[0].outcome) && IsTransient(attempts[1].outcome))
      && 1 <= r.posts <= 3
      && r.waits == [2000, 4000][..r.posts - 1]
  {
    if !IsTransient(attempts[0].outcome) {
      SettledRun(attempts, Count(0));
    } else if IsTransient(attempts[1].outcome) {
      TwoRetries(attempts);
    } else {
      OneRetry(attempts);
    }
  }

  /** A first transient failure and then a post that is not transient: two posts, one wait of 2000 ms. */
  lemma OneRetry(attempts: seq<Attempt>)
    requires |attempts| >= 3 && IsTransient(attempts[0].outcome) && !IsTransient(attempts[1].outcome)
    ensures RunFrom(attempts, Count(0)).posts == 2 && RunFrom(attempts, Count(0)).waits == [2000]
  {
    var a1 := attempts[1..];
    assert a1[0] == attempts[1];
    RetriedRun(attempts, Count(0));
    SettledRun(a1, Count(1));
  }

  /** Two transient failures in a row: three posts, waits of 2000 then 4000 ms. */
  lemma TwoRetries(attempts: seq<Attempt>)
    requires |attempts| >= 3 && IsTransient(attempts[0].outcome) && IsTransient(attempts[1].outcome)
    ensures RunFrom(attempts, Count(0)).posts == 3 && RunFrom(attempts, Count(0)).waits == [2000, 4000]
  {
    var a1 := attempts[1..];
    assert a1[0] == attempts[1];
    RetriedRun(attempts, Count(0));
    RetriedRun(a1, Count(1));
    SettledRun(a1[1..], Count(2));
  }

  /**
   * From the form's own submit, which passes the event: one post whatever its
   * outcome, no wait, and a transient failure is reported at once.
   */
  lemma FormSubmitNeverRetries(attempts: seq<Attempt>)
    requires |attempts| >= 1
    ensures var a := attempts[0];
      RunFrom(attempts, Event) == Run(1, [], AttemptTrace(a), Closing(a.outcome), a.outcome)
    ensures IsTransient(attempts[0].outcome) ==>
      RunFrom(attempts, Event).notices == FailureNotices(attempts[0].outcome)
  {
  }

  /**
   * Every attempt's modal states start at `uploading`/0, the stage agrees
   * with the percent throughout, and a run that ends in success ends at
   * `complete`/100.
   */
  lemma {:induction false} RunTrace(attempts: seq<Attempt>, arg: RetryArg)
    requires |attempts| > Remaining(arg)
    ensures var r := RunFrom(attempts, arg);
      && |r.trace| >= 1 && r.trace[0] == Shown(Uploading, 0)
      && StagesAgree(r.trace)
      && (r.last.Responded? && r.last.success ==> r.trace[|r.trace| - 1] == Shown(Complete, 100))
  {
    AttemptStagesAgree(attempts[0]);
    AttemptTraceEnds(attempts[0]);
    var a := attempts[0];
    if ShouldRetry(a.outcome, arg) {
      RunTrace(attempts[1..], Count(arg.n + 1));
    }
  }

  // ---------------------------------------------------------------- the form

  /** The form's values: step, draft, video and coupon. */
  datatype Snapshot = Snapshot(currentStep: int, formData: Values, draft: Option<Values>,
                               videoFile: Option<VideoUploader.File>, couponCode: string,
                               couponApplied: bool, finalAmount: nat)

  /** The values after a successful submit: everything back to a fresh form, draft removed. */
  const Cleared: Snapshot := Snapshot(1, map[], None, None, CouponWord, false, Price)

  predicate Succeeded(o: Outcome) {
    o.Responded? && o.success
  }

  /** The success page for a successful response: amount 0 and the coupon applied. */
  function SuccessPage(o: Outcome, now: int): Navigation
    requires o.Responded?
  {
    Navigation(o.applicationId, 0, Payments.TransactionId(now), "seeker", true, o.videoDriveLink)
  }

  /** The same body posted `n` times. */
  function Copies(body: seq<Part>, n: nat): seq<seq<Part>> {
    if n == 0 then [] else [body] + Copies(body, n - 1)
  }

  /**
   * The picker lets through files the seeker routes refuse: a video above the
   * routes' 100 MiB and up to the picker's 250 MiB is accepted by the
   * picker, then answered 400 as too large.
   */
  lemma PickerAllowsWhatRouteRefuses(f: VideoUploader.File)
    requires f.mimetype in VideoUploader.DefaultFormats
    requires 100 * 1024 * 1024 < f.size <= PickerMaxSize
    ensures VideoUploader.ValidateFile(VideoUploader.DefaultFormats, PickerMaxSize, f).Ok?
    ensures var part := UploadRoutes.Incoming(UploadRoutes.VideoField, f.name, f.mimetype, f.size);
      && UploadRoutes.Ingest(Kinds.Seeker, [part]).Err?
      && ErrorHandler.Handle(UploadRoutes.Ingest(Kinds.Seeker, [part]).error).status == 400
      && ErrorHandler.Handle(UploadRoutes.Ingest(Kinds.Seeker, [part]).error).message == ErrorHandler.FileTooLargeMessage
  {
    var part := UploadRoutes.Incoming(UploadRoutes.VideoField, f.name, f.mimetype, f.size);
    UploadRoutes.TooLargeForRouter(Kinds.Seeker, part);
  }

  class Form {
    var currentStep: int
    var formData: Values
    /** The draft kept in local storage under `seekerApplicationFormData`. */
    var draft: Option<Values>
    var videoFile: Option<VideoUploader.File>
    var couponCode: string
    var couponApplied: bool
    var couponError: string
    var finalAmount: nat
    var isSubmitting: bool
    var showProgressModal: bool
    var uploadStep: Stage
    var uploadProgress: int
    /** The bodies posted, in order. */
    var posted: seq<seq<Part>>
    /** The waits before each retry, in milliseconds. */
    var waited: seq<nat>
    /** Every state the progress modal was put in. */
    var shown: seq<Shown>
    /** The toasts shown, in order. */
    var notices: seq<Notice>

    /** The step is in range and the amount follows the coupon. */
    predicate Valid()
      reads this
    {
      1 <= currentStep <= StepCount && finalAmount == (if couponApplied then 0 else Price)
    }

    /** The form mounted, with the coupon pre-filled; a saved draft is loaded. */
    constructor (saved: Option<Values>)
      ensures Valid()
      ensures currentStep == 1 && formData == saved.GetOr(map[]) && draft == saved
      ensures videoFile.None? && couponCode == CouponWord && !couponApplied && couponError == ""
      ensures finalAmount == Price && !isSubmitting && !showProgressModal
      ensures uploadStep == Uploading && uploadProgress == 0
      ensures posted == [] && waited == [] && shown == [] && notices == []
    {
      currentStep := 1;
      formData := saved.GetOr(map[]);
      draft := saved;
      videoFile := None;
      couponCode := CouponWord;
      couponApplied := false;
      couponError := "";
      finalAmount := Price;
      isSubmitting := false;
      showProgressModal := false;
      uploadStep := Uploading;
      uploadProgress := 0;
      posted := [];
      waited := [];
      shown := [];
      notices := [];
    }

    /** `saveFormData`: merge into the draft and store it. */
    method SaveFormData(data: Values)
      modifies this`formData, this`draft
      ensures formData == Merge(old(formData), data) && draft == Some(formData)
    {
      formData := Merge(formData, data);
      draft := Some(formData);
    }

    /** `handleNext`: move on one step, saving the step's values, only when the step validates. */
    method HandleNext(fieldsValid: bool, stepData: Values)
      requires Valid() && ShowNext(currentStep)
      modifies this`currentStep, this`formData, this`draft, this`notices
      ensures Valid()
      ensures StepValid(old(currentStep), fieldsValid, videoFile.Some?) ==>
        && currentStep == old(currentStep) + 1
        && formData == Merge(old(formData), stepData) && draft == Some(formData)
        && notices == old(notices)
      ensures !StepValid(old(currentStep), fieldsValid, videoFile.Some?) ==>
        && currentStep == old(currentStep) && formData == old(formData) && draft == old(draft)
        && notices == old(notices) + (if old(currentStep) == 4 then [NoVideo] else [])
    {
      if StepValid(currentStep, fieldsValid, videoFile.Some?) {
        SaveFormData(stepData);
        currentStep := currentStep + 1;
      } else if currentStep == 4 {
        notices := notices + [NoVideo];
      }
    }

    /** `handlePrevious`: one step back. */
    method HandlePrevious()
      requires Valid() && ShowPrevious(currentStep)
      modifies this`currentStep
      ensures Valid() && currentStep == old(currentStep) - 1
    {
      currentStep := currentStep - 1;
    }

    /** The coupon input: the text is kept upper-cased. */
    method EnterCouponCode(text: string)
      modifies this`couponCode
      ensures couponCode == Upper(text)
    {
      couponCode := Upper(text);
    }

    /** `handleApplyCoupon` */
    method ApplyCouponCode()
      requires Valid()
      modifies this`couponApplied, this`couponError, this`finalAmount, this`notices
      ensures Valid()
      ensures var c := ApplyCoupon(couponCode, Price);
        couponApplied == c.applied && couponError == c.error && finalAmount == c.amount
      ensures notices == old(notices) + [if couponApplied then CouponAccepted else InvalidCoupon]
    {
      var c := ApplyCoupon(couponCode, Price);
      couponApplied := c.applied;
      couponError := c.error;
      finalAmount := c.amount;
      notices := notices + [if c.applied then CouponAccepted else InvalidCoupon];
    }

    /** `onVideoSelect` from the picker. */
    method SelectVideo(file: Option<VideoUploader.File>)
      modifies this`videoFile
      ensures videoFile == file
    {
      videoFile := file;
    }

    /** The `onUploadProgress` callback. */
    method OnUploadProgress(percent: int)
      modifies this`uploadProgress, this`uploadStep, this`shown
      ensures uploadProgress == percent && uploadStep == StageFor(percent)
      ensures shown == old(shown) + [Shown(uploadStep, uploadProgress)]
    {
      uploadProgress := percent;
      uploadStep := StageFor(percent);
      shown := shown + [Shown(uploadStep, uploadProgress)];
    }

    /** Sets the progress modal's state and records it. */
    method ShowStage(stage: Stage, percent: int)
      modifies this`uploadProgress, this`uploadStep, this`shown
      ensures uploadProgress == percent && uploadStep == stage
      ensures shown == old(shown) + [Shown(stage, percent)]
    {
      uploadStep := stage;
      uploadProgress := percent;
      shown := shown + [Shown(stage, percent)];
    }

    /** Upload progress as axios reports it: one callback per percent. */
    method ReportProgress(progress: seq<int>)
      requires |shown| > 0 && uploadStep == shown[|shown| - 1].stage && uploadProgress == shown[|shown| - 1].percent
      modifies this`uploadStep, this`uploadProgress, this`shown
      ensures shown == old(shown) + ProgressShown(progress)
      ensures |shown| > 0 && uploadStep == shown[|shown| - 1].stage && uploadProgress == shown[|shown| - 1].percent
    {
      for i := 0 to |progress|
        invariant shown == old(shown) + ProgressShown(progress[..i])
        invariant |shown| > 0 && uploadStep == shown[|shown| - 1].stage && uploadProgress == shown[|shown| - 1].percent
      {
        assert progress[..i + 1][..i] == progress[..i];
        OnUploadProgress(progress[i]);
      }
      assert progress[..|progress|] == progress;
    }

    /** One post: the modal opens at `uploading`/0, the body goes out, progress comes in. */
    method Post(entries: seq<(string, FieldValue)>, progress: seq<int>)
      modifies this`isSubmitting, this`showProgressModal, this`uploadStep, this`uploadProgress,
               this`shown, this`posted
      ensures isSubmitting && showProgressModal
      ensures posted == old(posted) + [Body(entries, videoFile, couponCode, finalAmount)]
      ensures shown == old(shown) + UploadTrace(progress)
      ensures uploadStep == shown[|shown| - 1].stage && uploadProgress == shown[|shown| - 1].percent
    {
      isSubmitting := true;
      showProgressModal := true;
      ShowStage(Uploading, 0);
      var body := BuildMultipart(entries, videoFile, couponCode, finalAmount);
      posted := posted + [body];
      ReportProgress(progress);
      AppendAssociative(old(shown), [Shown(Uploading, 0)], ProgressShown(progress));
    }

    /** The values the form holds, apart from the progress modal and the logs. */
    function State(): Snapshot
      reads this
    {
      Snapshot(currentStep, formData, draft, videoFile, couponCode, couponApplied, finalAmount)
    }

    /** The post got a response: `saving`/95, then on success `complete`/100 and the reset. */
    method Respond(o: Outcome, now: int) returns (nav: Option<Navigation>)
      requires o.Responded? && Valid() && couponApplied
      modifies this`uploadStep, this`uploadProgress, this`shown, this`draft, this`formData,
               this`videoFile, this`couponCode, this`couponApplied, this`finalAmount,
               this`currentStep, this`notices, this`isSubmitting
      ensures Valid() && !isSubmitting
      ensures shown == old(shown) + EndTrace(o) && notices == old(notices) + Closing(o)
      ensures uploadStep == shown[|shown| - 1].stage && uploadProgress == shown[|shown| - 1].percent
      ensures State() == (if Succeeded(o) then Cleared else old(State()))
      ensures nav == (if Succeeded(o) then Some(SuccessPage(o, now)) else None)
    {
      ShowStage(Saving, 95);
      if o.success {
        ShowStage(Complete, 100);
        draft := None;
        formData := map[];
        videoFile := None;
        couponCode := CouponWord;
        couponApplied := false;
        finalAmount := Price;
        currentStep := 1;
        notices := notices + [Submitted];
        nav := Some(Navigation(o.applicationId, 0, Payments.TransactionId(now), "seeker", true, o.videoDriveLink));
      } else {
        nav := None;
      }
      isSubmitting := false;
    }

    /**
     * What a submit with an applied coupon leaves behind, given the network's
     * answers: the posts, waits, modal states and toasts of `RunFrom`, the
     * modal open only when the last post got a response, the form cleared
     * and the success page opened only on success.
     */
    twostate predicate Ran(entries: seq<(string, FieldValue)>, arg: RetryArg, attempts: seq<Attempt>,
                           now: int, new nav: Option<Navigation>)
      requires |attempts| > Remaining(arg)
      reads this
    {
      Left(entries, RunFrom(attempts, arg), now, nav)
    }

    /** What the run `r` leaves behind in the form. */
    twostate predicate Left(entries: seq<(string, FieldValue)>, r: Run, now: int, new nav: Option<Navigation>)
      reads this
    {
      && posted == old(posted) + Copies(Body(entries, old(videoFile), old(couponCode), old(finalAmount)), r.posts)
      && waited == old(waited) + r.waits
      && shown == old(shown) + r.trace
      && notices == old(notices) + r.notices
      && showProgressModal == r.last.Responded?
      && |shown| > 0 && uploadStep == shown[|shown| - 1].stage && uploadProgress == shown[|shown| - 1].percent
      && State() == (if Succeeded(r.last) then Cleared else old(State()))
      && nav == (if Succeeded(r.last) then Some(SuccessPage(r.last, now)) else None)
      && Valid() && !isSubmitting && couponError == old(couponError)
    }

    /**
     * `onSubmit`. Without an applied coupon: one toast, nothing posted and
     * the modal untouched. Otherwise what `Ran` states.
     */
    method OnSubmit(entries: seq<(string, FieldValue)>, arg: RetryArg, attempts: seq<Attempt>, now: int)
      returns (nav: Option<Navigation>)
      requires Valid() && |attempts| > Remaining(arg)
      modifies this
      decreases |attempts|, 3
      ensures Valid() && !isSubmitting
      ensures !old(couponApplied) ==>
        && nav.None? && notices == old(notices) + [NoCoupon]
        && posted == old(posted) && waited == old(waited) && shown == old(shown)
        && showProgressModal == old(showProgressModal)
        && uploadStep == old(uploadStep) && uploadProgress == old(uploadProgress)
        && State() == old(State()) && couponError == old(couponError)
      ensures old(couponApplied) ==> Ran(entries, arg, attempts, now, nav)
    {
      if !couponApplied {
        notices := notices + [NoCoupon];
        isSubmitting := false;
        return None;
      }
      nav := TrySubmit(entries, arg, attempts, now);
    }

    /**
     * `handleSubmit(onSubmit)`: the form library calls `onSubmit(data, event)`
     * only when the mounted fields validate. The earlier steps were checked by
     * `HandleNext`; on the last step that is the required terms box. Left
     * unticked, nothing happens. Ticked, the submit runs with the event as its
     * retry argument, so with an applied coupon exactly one body is posted and
     * nothing is waited for.
     */
    method HandleSubmit(termsAccepted: bool, entries: seq<(string, FieldValue)>, attempts: seq<Attempt>, now: int)
      returns (nav: Option<Navigation>)
      requires Valid() && |attempts| >= 1
      modifies this
      ensures !termsAccepted ==> nav.None? && unchanged(this)
      ensures termsAccepted ==> Valid() && !isSubmitting
      ensures termsAccepted && !old(couponApplied) ==>
        && nav.None? && notices == old(notices) + [NoCoupon]
        && posted == old(posted) && waited == old(waited) && shown == old(shown)
        && showProgressModal == old(showProgressModal)
        && uploadStep == old(uploadStep) && uploadProgress == old(uploadProgress)
        && State() == old(State()) && couponError == old(couponError)
      ensures termsAccepted && old(couponApplied) ==> Ran(entries, Event, attempts, now, nav)
      ensures termsAccepted && old(couponApplied) ==>
        && posted == old(posted) + [Body(entries, old(videoFile), old(couponCode), old(finalAmount))]
        && waited == old(waited)
    {
      if !termsAccepted {
        return None;
      }
      FormSubmitNeverRetries(attempts);
      ghost var body := Body(entries, videoFile, couponCode, finalAmount);
      assert Copies(body, 1) == [body];
      nav := OnSubmit(entries, Event, attempts, now);
    }

    /** Past the coupon check: one post, then finish, retry or give up by its outcome. */
    method TrySubmit(entries: seq<(string, FieldValue)>, arg: RetryArg, attempts: seq<Attempt>, now: int)
      returns (nav: Option<Navigation>)
      requires Valid() && couponApplied && |attempts| > Remaining(arg)
      modifies this
      decreases |attempts|, 2
      ensures Ran(entries, arg, attempts, now, nav)
    {
      var a := attempts[0];
      if a.outcome.Responded? {
        nav := Answered(entries, arg, attempts, now);
      } else if ShouldRetry(a.outcome, arg) {
        nav := Retried(entries, arg, attempts, now);
      } else {
        GaveUp(entries, arg, attempts, now);
        nav := None;
      }
    }

    /** The post got a response. */
    method Answered(entries: seq<(string, FieldValue)>, arg: RetryArg, attempts: seq<Attempt>, now: int)
      returns (nav: Option<Navigation>)
      requires Valid() && couponApplied && |attempts| > Remaining(arg) && attempts[0].outcome.Responded?
      modifies this
      ensures Ran(entries, arg, attempts, now, nav)
    {
      var a := attempts[0];
      ghost var body := Body(entries, videoFile, couponCode, finalAmount);
      Post(entries, a.progress);
      nav := Respond(a.outcome, now);
      assert Copies(body, 1) == [body];
      AppendAssociative(old(shown), UploadTrace(a.progress), EndTrace(a.outcome));
      assert Left(entries, Run(1, [], AttemptTrace(a), Closing(a.outcome), a.outcome), now, nav);
      SettledRun(attempts, arg);
    }

    /** The post failed for good: close the modal and say what went wrong. */
    method GaveUp(entries: seq<(string, FieldValue)>, arg: RetryArg, attempts: seq<Attempt>, now: int)
      requires Valid() && couponApplied && |attempts| > Remaining(arg)
      requires attempts[0].outcome.Failed? && !ShouldRetry(attempts[0].outcome, arg)
      modifies this
      ensures Ran(entries, arg, attempts, now, None)
    {
      var a := attempts[0];
      ghost var r := RunFrom(attempts, arg);
      FailedRun(attempts, arg);
      ghost var body := Body(entries, videoFile, couponCode, finalAmount);
      assert Copies(body, 1) == [body];
      assert waited == old(waited) + r.waits;
      Post(entries, a.progress);
      Fail(a.outcome);
      assert State() == old(State());
    }

    /** The modal closes and the failure's toasts are shown. */
    method Fail(o: Outcome)
      requires o.Failed?
      modifies this`showProgressModal, this`notices, this`isSubmitting
      ensures !showProgressModal && !isSubmitting && notices == old(notices) + Closing(o)
    {
      showProgressModal := false;
      notices := notices + FailureNotices(o);
      isSubmitting := false;
    }

    /** A transient failure with a retry left: the post, then the back-off and the next submit. */
    method Retried(entries: seq<(string, FieldValue)>, arg: RetryArg, attempts: seq<Attempt>, now: int)
      returns (nav: Option<Navigation>)
      requires Valid() && couponApplied && |attempts| > Remaining(arg)
      requires ShouldRetry(attempts[0].outcome, arg)
      modifies this
      decreases |attempts|, 1
      ensures Ran(entries, arg, attempts, now, nav)
    {
      var a := attempts[0];
      ghost var rest := RunFrom(attempts[1..], Count(arg.n + 1));
      ghost var body := Body(entries, videoFile, couponCode, finalAmount);
      Post(entries, a.progress);
      nav := Backoff(entries, arg.n, attempts[1..], now);
      assert posted == old(posted) + Copies(body, 1 + rest.posts) by {
        assert Copies(body, 1 + rest.posts) == [body] + Copies(body, rest.posts);
        AppendAssociative(old(posted), [body], Copies(body, rest.posts));
      }
      assert shown == old(shown) + (AttemptTrace(a) + rest.trace) by {
        assert AttemptTrace(a) == UploadTrace(a.progress);
        AppendAssociative(old(shown), UploadTrace(a.progress), rest.trace);
      }
      assert Left(entries, Run(1 + rest.posts, [(arg.n + 1) * 2000] + rest.waits, AttemptTrace(a) + rest.trace,
                               [Retrying] + rest.notices, rest.last), now, nav);
      RetriedRun(attempts, arg);
    }

    /**
     * Close the modal, wait (retryCount + 1) * 2000 ms, say so, and submit
     * again with the next retry count.
     */
    method Backoff(entries: seq<(string, FieldValue)>, retryCount: nat, rest: seq<Attempt>, now: int)
      returns (nav: Option<Navigation>)
      requires Valid() && couponApplied && retryCount < MaxRetries && |rest| > Remaining(Count(retryCount + 1))
      modifies this
      decreases |rest| + 1, 0
      ensures var r := RunFrom(rest, Count(retryCount + 1));
        Left(entries, Run(r.posts, [(retryCount + 1) * 2000] + r.waits, r.trace, [Retrying] + r.notices, r.last), now, nav)
    {
      showProgressModal := false;
      isSubmitting := false;
      waited := waited + [(retryCount + 1) * 2000];
      notices := notices + [Retrying];
      assert State() == old(State());
      nav := OnSubmit(entries, Count(retryCount + 1), rest, now);
      ghost var r := RunFrom(rest, Count(retryCount + 1));
      AppendAssociative(old(notices), [Retrying], r.notices);
      AppendAssociative(old(waited), [(retryCount + 1) * 2000], r.waits);
    }
  }
}

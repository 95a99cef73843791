/**
 * The founder pitch form: the five-step wizard with a saved draft, the
 * coupon (full price 999), and a submit that, for now, only makes up an
 * application id, clears the draft and moves on to the success page.
 */
module FounderForm {
  import opened Wrappers
  import opened Text
  import opened Wizard
  import Kinds
  import Submissions
  import Payments
  import VideoUploader
  import UploadRoutes
  import ErrorHandler

  const Price: nat := 999
  /** `maxSize` the form gives its video picker: 500 MiB. */
  const PickerMaxSize: nat := 500 * 1024 * 1024
  const NoVideoMessage: string := "Please upload a video pitch"
  const SubmittedMessage: string := "Pitch submitted successfully!"

  /** The state the success page is opened with. */
  datatype Navigation = Navigation(applicationId: string, amount: nat, transactionId: string,
                                   kind: string, couponApplied: bool)

  /**
   * The simulated id: `INC-FND-<year>-` and `Math.floor(Math.random() * 9999)`
   * padded to four digits, which is the server's id format.
   */
  function SimulatedId(year: nat, draw: nat): (id: string)
    ensures id == Submissions.ApplicationId(Kinds.Founder, year, draw)
  {
    "INC-FND-" + NatToString(year) + "-" + PadStart(NatToString(draw), 4, '0')
  }

  /** A simulated id carries its draw, from 0 to 9998, in exactly four digits. */
  lemma SimulatedIdSerial(year: nat, draw: nat)
    requires draw < 9999
    ensures var id := SimulatedId(year, draw);
      && StartsWith(id, "INC-FND-")
      && |"INC-FND-" + NatToString(year) + "-"| <= |id|
      && |Submissions.Serial(Kinds.Founder, year, id)| == 4
      && DecimalValue(Submissions.Serial(Kinds.Founder, year, id)) == draw
  {
    Submissions.ApplicationIdSerial(Kinds.Founder, year, draw);
  }

  /**
   * The picker lets through files the founder routes refuse: a video above the
   * routes' 200 MiB and up to the picker's 500 MiB is accepted by the
   * picker, then answered 400 as too large.
   */
  lemma PickerAllowsWhatRouteRefuses(f: VideoUploader.File)
    requires f.mimetype in VideoUploader.DefaultFormats
    requires 200 * 1024 * 1024 < f.size <= PickerMaxSize
    ensures VideoUploader.ValidateFile(VideoUploader.DefaultFormats, PickerMaxSize, f).Ok?
    ensures var part := UploadRoutes.Incoming(UploadRoutes.VideoField, f.name, f.mimetype, f.size);
      && UploadRoutes.Ingest(Kinds.Founder, [part]).Err?
      && ErrorHandler.Handle(UploadRoutes.Ingest(Kinds.Founder, [part]).error).status == 400
      && ErrorHandler.Handle(UploadRoutes.Ingest(Kinds.Founder, [part]).error).message == ErrorHandler.FileTooLargeMessage
  {
    var part := UploadRoutes.Incoming(UploadRoutes.VideoField, f.name, f.mimetype, f.size);
    UploadRoutes.TooLargeForRouter(Kinds.Founder, part);
  }

  class Form {
    var currentStep: int
    var formData: Values
    /** The draft kept in local storage under `founderPitchFormData`. */
    var draft: Option<Values>
    var videoFile: Option<VideoUploader.File>
    var couponCode: string
    var couponApplied: bool
    var couponError: string
    var finalAmount: nat
    var isSubmitting: bool
    /** The toasts shown, in order. */
    var notices: seq<string>

    /** The step is in range and the amount follows the coupon. */
    predicate Valid()
      reads this
    {
      1 <= currentStep <= StepCount && finalAmount == (if couponApplied then 0 else Price)
    }

    /** The form mounted; a saved draft is loaded into the form data. */
    constructor (saved: Option<Values>)
      ensures Valid()
      ensures currentStep == 1 && formData == saved.GetOr(map[]) && draft == saved
      ensures videoFile.None? && couponCode == "" && !couponApplied && couponError == ""
      ensures finalAmount == Price && !isSubmitting && notices == []
    {
      currentStep := 1;
      formData := saved.GetOr(map[]);
      draft := saved;
      videoFile := None;
      couponCode := "";
      couponApplied := false;
      couponError := "";
      finalAmount := Price;
      isSubmitting := false;
      notices := [];
    }

    /** `saveFormData`: merge into the draft and store it. */
    method SaveFormData(data: Values)
      modifies this`formData, this`draft
      ensures formData == Merge(old(formData), data) && draft == Some(formData)
    {
      formData := Merge(formData, data);
      draft := Some(formData);
    }

    /** `handleNext`: move on one step, saving the step's values, only when the step validates. */
    method HandleNext(fieldsValid: bool, stepData: Values)
      requires Valid() && ShowNext(currentStep)
      modifies this`currentStep, this`formData, this`draft, this`notices
      ensures Valid()
      ensures StepValid(old(currentStep), fieldsValid, old(videoFile).Some?) ==>
        && currentStep == old(currentStep) + 1
        && formData == Merge(old(formData), stepData) && draft == Some(formData)
        && notices == old(notices)
      ensures !StepValid(old(currentStep), fieldsValid, old(videoFile).Some?) ==>
        && currentStep == old(currentStep) && formData == old(formData) && draft == old(draft)
        && notices == old(notices) + (if old(currentStep) == 4 then [NoVideoMessage] else [])
      ensures videoFile == old(videoFile) && couponApplied == old(couponApplied)
      ensures finalAmount == old(finalAmount) && couponCode == old(couponCode)
    {
      if StepValid(currentStep, fieldsValid, videoFile.Some?) {
        SaveFormData(stepData);
        currentStep := currentStep + 1;
      } else if currentStep == 4 {
        notices := notices + [NoVideoMessage];
      }
    }

    /** `handlePrevious`: one step back. */
    method HandlePrevious()
      requires Valid() && ShowPrevious(currentStep)
      modifies this`currentStep
      ensures Valid() && currentStep == old(currentStep) - 1
    {
      currentStep := currentStep - 1;
    }

    /** The coupon input: the text is kept upper-cased. */
    method EnterCouponCode(text: string)
      modifies this`couponCode
      ensures couponCode == Upper(text)
    {
      couponCode := Upper(text);
    }

    /** `handleApplyCoupon` */
    method ApplyCouponCode()
      requires Valid()
      modifies this`couponApplied, this`couponError, this`finalAmount, this`notices
      ensures Valid()
      ensures var c := ApplyCoupon(couponCode, Price);
        couponApplied == c.applied && couponError == c.error && finalAmount == c.amount
      ensures notices == old(notices) + [if couponApplied then "Coupon applied successfully! Amount: ₹0" else InvalidCouponMessage]
    {
      var c := ApplyCoupon(couponCode, Price);
      couponApplied := c.applied;
      couponError := c.error;
      finalAmount := c.amount;
      notices := notices + [if c.applied then "Coupon applied successfully! Amount: ₹0" else InvalidCouponMessage];
    }

    /** `onVideoSelect` from the picker. */
    method SelectVideo(file: Option<VideoUploader.File>)
      modifies this`videoFile
      ensures videoFile == file
    {
      videoFile := file;
    }

    /**
     * `onSubmit`: without an applied coupon only a notice; otherwise make up an
     * id from the year and a draw below 9999, clear the draft and open the
     * success page with the amount and a transaction id. Either way the
     * submitting flag ends cleared.
     */
    method OnSubmit(year: nat, draw: nat, now: nat) returns (nav: Option<Navigation>)
      requires Valid() && draw < 9999
      modifies this`draft, this`notices, this`isSubmitting
      ensures Valid()
      ensures !old(couponApplied) ==>
        && nav.None? && notices == old(notices) + [NoCouponMessage]
        && draft == old(draft)
      ensures old(couponApplied) ==>
        && nav == Some(Navigation(SimulatedId(year, draw), 0, Payments.TransactionId(now), "founder", true))
        && draft.None? && notices == old(notices) + [SubmittedMessage]
      ensures !isSubmitting
      ensures currentStep == old(currentStep) && formData == old(formData) && videoFile == old(videoFile)
      ensures couponApplied == old(couponApplied) && finalAmount == old(finalAmount) && couponCode == old(couponCode)
    {
      if !couponApplied {
        notices := notices + [NoCouponMessage];
        isSubmitting := false;
        return None;
      }
      isSubmitting := true;
      var applicationId := SimulatedId(year, draw);
      draft := None;
      notices := notices + [SubmittedMessage];
      nav := Some(Navigation(applicationId, finalAmount, Payments.TransactionId(now), "founder", couponApplied));
      isSubmitting := false;
    }

    /**
     * `handleSubmit(onSubmit)`: the form library calls `onSubmit` only when
     * the mounted fields validate. The earlier steps were checked by
     * `HandleNext`; on the last step that is the required terms box. Left
     * unticked, nothing happens.
     */
    method HandleSubmit(termsAccepted: bool, year: nat, draw: nat, now: nat) returns (nav: Option<Navigation>)
      requires Valid() && draw < 9999
      modifies this`draft, this`notices, this`isSubmitting
      ensures Valid()
      ensures !termsAccepted ==>
        && nav.None? && draft == old(draft) && notices == old(notices) && isSubmitting == old(isSubmitting)
      ensures termsAccepted && !old(couponApplied) ==>
        && nav.None? && notices == old(notices) + [NoCouponMessage]
        && draft == old(draft) && !isSubmitting
      ensures termsAccepted && old(couponApplied) ==>
        && nav == Some(Navigation(SimulatedId(year, draw), 0, Payments.TransactionId(now), "founder", true))
        && draft.None? && notices == old(notices) + [SubmittedMessage] && !isSubmitting
      ensures currentStep == old(currentStep) && formData == old(formData) && videoFile == old(videoFile)
      ensures couponApplied == old(couponApplied) && finalAmount == old(finalAmount) && couponCode == old(couponCode)
    {
      if !termsAccepted {
        return None;
      }
      nav := OnSubmit(year, draw, now);
    }
  }
}

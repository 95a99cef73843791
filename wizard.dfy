/**
 * What the founder and seeker forms share: the five-step wizard (which step
 * may move on, which buttons show), the draft that collects each step's
 * values, and the `FNDRMET` coupon that makes a submission free.
 */
module Wizard {
  import opened Text

  /** A form value: text, a multi-select list, or nothing (`null`/`undefined`). */
  datatype FieldValue = Str(s: string) | Items(xs: seq<string>) | Absent

  /** Form values by field name. */
  type Values = map<string, FieldValue>

  const StepCount: int := 5
  const CouponWord: string := "FNDRMET"
  const InvalidCouponMessage: string := "Invalid coupon code"
  const NoCouponMessage: string := "Please apply a valid coupon code to continue"

  /** Coupon state: applied, its error text, and the amount to pay. */
  datatype Coupon = Coupon(applied: bool, error: string, amount: nat)

  /** `handleApplyCoupon` for a form whose full price is `price`. */
  function ApplyCoupon(code: string, price: nat): (c: Coupon)
    ensures c.applied <==> Upper(code) == CouponWord
    ensures c.applied ==> c.amount == 0 && c.error == ""
    ensures !c.applied ==> c.amount == price && c.error == InvalidCouponMessage
  {
    if Upper(code) == CouponWord then Coupon(true, "", 0) else Coupon(false, InvalidCouponMessage, price)
  }

  /** The coupon is read without regard to letter case. */
  lemma CouponIgnoresCase(code: string, price: nat)
    ensures ApplyCoupon(Lower(code), price) == ApplyCoupon(code, price)
    ensures ApplyCoupon(Upper(code), price) == ApplyCoupon(code, price)
  {
    assert Upper(Lower(code)) == Upper(code) by {
      forall i | 0 <= i < |code| ensures Upper(Lower(code))[i] == Upper(code)[i] {
        assert UpperChar(LowerChar(code[i])) == UpperChar(code[i]);
      }
    }
    assert Upper(Upper(code)) == Upper(code) by {
      forall i | 0 <= i < |code| ensures Upper(Upper(code))[i] == Upper(code)[i] {
        assert UpperChar(UpperChar(code[i])) == UpperChar(code[i]);
      }
    }
  }

  /**
   * `validateStep`: steps 1 to 3 pass when their fields validate, step 4 when a
   * video is chosen, any other step always.
   */
  function StepValid(step: int, fieldsValid: bool, hasVideo: bool): (ok: bool)
    ensures 1 <= step <= 3 ==> (ok <==> fieldsValid)
    ensures step == 4 ==> (ok <==> hasVideo)
    ensures step < 1 || step > 4 ==> ok
  {
    if 1 <= step <= 3 then fieldsValid
    else if step == 4 then hasVideo
    else true
  }

  /** `{ ...formData, ...data }` */
  function Merge(draft: Values, data: Values): (r: Values)
    ensures r.Keys == draft.Keys + data.Keys
    ensures forall k :: k in data ==> r[k] == data[k]
    ensures forall k :: k in draft && k !in data ==> r[k] == draft[k]
  {
    draft + data
  }

  /** Merging the same values twice is merging them once. */
  lemma MergeIdempotent(draft: Values, data: Values)
    ensures Merge(Merge(draft, data), data) == Merge(draft, data)
  {
  }

  /** The Previous button shows above step 1. */
  predicate ShowPrevious(step: int) {
    step > 1
  }

  /** The Next button shows below the last step; the submit button replaces it there. */
  predicate ShowNext(step: int) {
    step < StepCount
  }

  /** Moving with the buttons that show keeps the step within 1 to 5. */
  lemma ButtonsKeepStepInRange(step: int)
    requires 1 <= step <= StepCount
    ensures ShowNext(step) ==> 1 <= step + 1 <= StepCount
    ensures ShowPrevious(step) ==> 1 <= step - 1 <= StepCount
    ensures ShowNext(step) || ShowPrevious(step)
  {
  }
}

/** The general donation form: a preset or free-text amount, validation
    with "incomplete" checked before "too small", the insert, and the reset. */
module DonationForm {
  import opened Service
  import JsNumber

  /** The smallest donation the form accepts, in rupiah. */
  const MinimumDonation := 10000

  /** The preset buttons, in rupiah. */
  const Presets: seq<int> := [50000, 100000, 250000, 500000, 1000000]

  datatype Verdict = Incomplete | TooSmall | Accepted(amount: int)

  /** The row `handleSubmit` inserts into `donations`. */
  datatype DonationRecord = DonationRecord(
    name: string,
    email: string,
    amount: int,
    paymentMethod: string,
    donationType: string,
    status: string)

  const IncompleteToast := Toast("Form tidak lengkap", "Mohon lengkapi semua data yang diperlukan.", true)
  const TooSmallToast := Toast("Nominal terlalu kecil", "Minimal donasi adalah Rp 10.000", true)
  const SuccessToast := Toast("Donasi Berhasil! \U{1F389}",
    "Terima kasih atas kebaikan Anda. Detail pembayaran akan dikirim ke email Anda.", false)

  /** `selectedNominal || parseInt(customNominal)`: a preset counts only when
      it is set and non-zero; otherwise the free text is parsed (NaN is `None`). */
  function ResolveAmount(selected: Option<int>, custom: string): (amount: Option<int>)
  {
    if selected.Some? && selected.value != 0 then selected else JsNumber.ParseInt(custom)
  }

  /** The two checks of `handleSubmit`, in order: any empty field or a zero
      or NaN amount first, then an amount below the minimum. */
  function Classify(name: string, email: string, amount: Option<int>, paymentMethod: string): (v: Verdict)
    ensures v.Accepted? ==> v.amount >= MinimumDonation && amount == Some(v.amount)
  {
    if name == "" || email == "" || amount.None? || amount.value == 0 || paymentMethod == "" then Incomplete
    else if amount.value < MinimumDonation then TooSmall
    else Accepted(amount.value)
  }

  /** A submission is accepted exactly when every field is filled and the
      amount is a number of at least 10,000. */
  lemma AcceptedExactly(name: string, email: string, amount: Option<int>, paymentMethod: string, a: int)
    ensures Classify(name, email, amount, paymentMethod) == Accepted(a)
        <==> name != "" && email != "" && paymentMethod != "" && amount == Some(a) && a >= MinimumDonation
  {
  }

  /** "Too small" is reported exactly for a complete form whose amount is
      below the minimum, negative amounts included. */
  lemma TooSmallExactly(name: string, email: string, amount: Option<int>, paymentMethod: string)
    ensures Classify(name, email, amount, paymentMethod) == TooSmall
        <==> name != "" && email != "" && paymentMethod != "" && amount.Some? && amount.value != 0
             && amount.value < MinimumDonation
  {
  }

  /** With no preset, the free text "0" and the free text "abc" are both
      reported as an incomplete form, not as too small. */
  lemma ZeroOrNonNumericIsIncomplete(name: string, email: string, paymentMethod: string)
    ensures Classify(name, email, ResolveAmount(None, "0"), paymentMethod) == Incomplete
    ensures Classify(name, email, ResolveAmount(None, "abc"), paymentMethod) == Incomplete
  {
    assert JsNumber.DigitPrefix("0", 10) == 1;
    assert "0"[..1] == "0";
    assert JsNumber.DigitPrefix("abc", 10) == 0;
  }

  /** Every preset is accepted once the other fields are filled, whatever
      the free text holds. */
  lemma PresetsAreAccepted(name: string, email: string, paymentMethod: string, custom: string, p: int)
    requires p in Presets && name != "" && email != "" && paymentMethod != ""
    ensures Classify(name, email, ResolveAmount(Some(p), custom), paymentMethod) == Accepted(p)
  {
  }

  class Form {
    var name: string
    var email: string
    var selectedNominal: Option<int>
    var customNominal: string
    var paymentMethod: string
    var isSubmitting: bool

    constructor ()
      ensures name == "" && email == "" && selectedNominal == None && customNominal == ""
      ensures paymentMethod == "" && !isSubmitting
      ensures OneAmountSource()
    {
      name, email, selectedNominal, customNominal, paymentMethod := "", "", None, "", "";
      isSubmitting := false;
    }

    /** At most one of the preset and the free text is in use. */
    predicate OneAmountSource()
      reads this
    {
      selectedNominal.None? || customNominal == ""
    }

    /** A preset button: select it and clear the free text. */
    method ChoosePreset(value: int)
      modifies this`selectedNominal, this`customNominal
      ensures selectedNominal == Some(value) && customNominal == ""
      ensures OneAmountSource()
    {
      selectedNominal := Some(value);
      customNominal := "";
    }

    /** Typing in the free-text field: keep the text and drop the preset. */
    method EditCustom(text: string)
      modifies this`selectedNominal, this`customNominal
      ensures customNominal == text && selectedNominal == None
      ensures OneAmountSource()
    {
      customNominal := text;
      selectedNominal := None;
    }

    /** `handleSubmit`. A rejected form writes nothing and changes nothing; an
        accepted one inserts the record with the busy flag raised, resets all
        five fields and calls `onSuccess` on success, keeps them on failure,
        and releases the flag either way. */
    method HandleSubmit(reply: Reply, hasOnSuccess: bool)
      returns (request: Option<DonationRecord>, submittingDuringWrite: bool, toast: Toast, onSuccessCalled: bool)
      modifies this
      ensures var v := Classify(old(name), old(email), ResolveAmount(old(selectedNominal), old(customNominal)), old(paymentMethod));
        && (v == Incomplete ==> toast == IncompleteToast)
        && (v == TooSmall ==> toast == TooSmallToast)
        && (v.Accepted? <==> request.Some?)
        && (v.Accepted? ==> request == Some(DonationRecord(old(name), old(email), v.amount, old(paymentMethod), "umum", "completed")))
      ensures request.None? ==>
        && name == old(name) && email == old(email) && selectedNominal == old(selectedNominal)
        && customNominal == old(customNominal) && paymentMethod == old(paymentMethod)
        && isSubmitting == old(isSubmitting) && !onSuccessCalled
      ensures request.Some? ==> submittingDuringWrite && !isSubmitting
      ensures request.Some? && reply.Done? ==>
        && name == "" && email == "" && selectedNominal == None && customNominal == "" && paymentMethod == ""
        && toast == SuccessToast && onSuccessCalled == hasOnSuccess
      ensures request.Some? && reply.Failed? ==>
        && name == old(name) && email == old(email) && selectedNominal == old(selectedNominal)
        && customNominal == old(customNominal) && paymentMethod == old(paymentMethod)
        && toast == GenericError && !onSuccessCalled
    {
      var amount := ResolveAmount(selectedNominal, customNominal);
      var verdict := Classify(name, email, amount, paymentMethod);
      submittingDuringWrite, onSuccessCalled := false, false;
      if verdict == Incomplete {
        return None, submittingDuringWrite, IncompleteToast, onSuccessCalled;
      }
      if verdict == TooSmall {
        return None, submittingDuringWrite, TooSmallToast, onSuccessCalled;
      }

      isSubmitting := true;
      request := Some(DonationRecord(name, email, verdict.amount, paymentMethod, "umum", "completed"));
      submittingDuringWrite := isSubmitting;
      if reply.Done? {
        toast := SuccessToast;
        name := "";
        email := "";
        selectedNominal := None;
        customNominal := "";
        paymentMethod := "";
        onSuccessCalled := hasOnSuccess;
      } else {
        toast := GenericError;
      }
      isSubmitting := false;
    }
  }
}

/** The monthly-membership sign-up form: validation, the member insert, the
    duplicate-email case, and the render guard on the chosen plan. */
module KakasakuForm {
  import opened Service

  /** The row `handleSubmit` inserts into `kakasaku_members`. */
  datatype MemberRecord = MemberRecord(
    name: string,
    email: string,
    phone: string,
    monthlyAmount: int,
    paymentStatus: string)

  const IncompleteToast := Toast("Form tidak lengkap", "Mohon lengkapi semua data yang diperlukan.", true)
  const DuplicateToast := Toast("Email Sudah Terdaftar", "Email ini sudah terdaftar sebagai anggota Kakasaku.", true)
  const SuccessToast := Toast("Pendaftaran Berhasil! \U{1F389}",
    "Selamat bergabung dengan Kakasaku. Informasi pembayaran akan dikirim ke email Anda.", false)

  /** `!!selectedAmount`: a plan amount is set and is not zero. Both the
      submit check and the render guard `if (!selectedAmount) return null`
      test this, so the "other amount" link, which passes 0, shows no form. */
  function AmountChosen(selectedAmount: Option<int>): (chosen: bool)
    ensures chosen ==> selectedAmount.Some?
    ensures selectedAmount == Some(0) ==> !chosen
    ensures selectedAmount.Some? && selectedAmount.value != 0 ==> chosen
  {
    selectedAmount.Some? && selectedAmount.value != 0
  }

  /** The toast for the insert's answer: the unique-violation code is told
      apart from every other error. */
  function InsertToast(reply: Reply): (t: Toast)
    ensures reply.Done? ==> t == SuccessToast
    ensures reply.Failed? && reply.code == UniqueViolation ==> t == DuplicateToast
    ensures reply.Failed? && reply.code != UniqueViolation ==> t == GenericError
  {
    match reply
    case Done => SuccessToast
    case Failed(code, _) => if code == UniqueViolation then DuplicateToast else GenericError
  }

  /** The three answers give three different toasts, and only success is
      not marked destructive. */
  lemma InsertToastsDistinct(dup: Reply, other: Reply)
    requires dup.Failed? && dup.code == UniqueViolation
    requires other.Failed? && other.code != UniqueViolation
    ensures InsertToast(dup) != InsertToast(other)
    ensures InsertToast(Done) != InsertToast(dup) && InsertToast(Done) != InsertToast(other)
    ensures !InsertToast(Done).destructive && InsertToast(dup).destructive && InsertToast(other).destructive
  {
  }

  class Form {
    var name: string
    var email: string
    var phone: string
    var isSubmitting: bool

    constructor ()
      ensures name == "" && email == "" && phone == "" && !isSubmitting
    {
      name, email, phone := "", "", "";
      isSubmitting := false;
    }

    /** `handleSubmit` for the plan `selectedAmount` (a prop). An empty field
        or a missing plan writes nothing and leaves the flag alone; otherwise
        the member is inserted as unpaid with the busy flag raised, the
        answer picks the toast, only success calls `onClose`, and the flag is
        released on all three outcomes. The fields are never cleared. */
    method HandleSubmit(selectedAmount: Option<int>, reply: Reply, hasOnClose: bool)
      returns (request: Option<MemberRecord>, submittingDuringWrite: bool, toast: Toast, onCloseCalled: bool)
      modifies this`isSubmitting
      ensures request.Some? <==> name != "" && email != "" && phone != "" && AmountChosen(selectedAmount)
      ensures request.None? ==> toast == IncompleteToast && isSubmitting == old(isSubmitting) && !onCloseCalled
      ensures request.Some? ==>
        && request.value == MemberRecord(name, email, phone, selectedAmount.value, "belum")
        && submittingDuringWrite && !isSubmitting
        && toast == InsertToast(reply)
        && onCloseCalled == (reply.Done? && hasOnClose)
    {
      submittingDuringWrite, onCloseCalled := false, false;
      if name == "" || email == "" || phone == "" || !AmountChosen(selectedAmount) {
        return None, submittingDuringWrite, IncompleteToast, onCloseCalled;
      }

      isSubmitting := true;
      request := Some(MemberRecord(name, email, phone, selectedAmount.value, "belum"));
      submittingDuringWrite := isSubmitting;
      if reply.Failed? {
        if reply.code == UniqueViolation {
          toast := DuplicateToast;
        } else {
          toast := GenericError;
        }
        isSubmitting := false;
        return;
      }
      toast := SuccessToast;
      onCloseCalled := hasOnClose;
      isSubmitting := false;
    }
  }
}

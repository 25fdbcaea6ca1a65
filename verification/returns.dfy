/** The returns screen: status colours, opening a return for processing, and the one or
    two requests sent when it is processed (src/pages/admin/AdminReturns.jsx). */
module Returns {
  import opened JsValue

  /** One row of `/returns`. */
  datatype ReturnRequest = ReturnRequest(
    id: int,
    orderId: string,
    status: string,
    reason: string,
    processingNotes: Option<string>,
    refundAmount: Option<real>,
    refundIssued: Value)

  /** The processing form. */
  datatype ReturnForm = ReturnForm(status: string, processingNotes: string, refundAmount: real)

  const EmptyForm := ReturnForm("", "", 0.0)

  /** `statusColors[status] || 'secondary'`. */
  function StatusColor(status: string): (bg: string)
    ensures status == "PENDING" ==> bg == "warning"
    ensures status == "APPROVED" ==> bg == "success"
    ensures status == "REJECTED" ==> bg == "danger"
    ensures status == "REFUNDED" ==> bg == "info"
    ensures status != "PENDING" && status != "APPROVED" && status != "REJECTED" && status != "REFUNDED"
            ==> bg == "secondary"
  {
    if status == "PENDING" then "warning"
    else if status == "APPROVED" then "success"
    else if status == "REJECTED" then "danger"
    else if status == "REFUNDED" then "info"
    else "secondary"
  }

  /** The form `handleViewReturn` opens: the status as stored, absent or empty notes as ''
      and an absent or zero amount as 0. */
  function FormFor(r: ReturnRequest): (f: ReturnForm)
    ensures f.status == r.status
    ensures r.processingNotes.None? ==> f.processingNotes == ""
    ensures r.processingNotes.Some? ==> f.processingNotes == r.processingNotes.value
    ensures r.refundAmount.None? ==> f.refundAmount == 0.0
    ensures r.refundAmount.Some? ==> f.refundAmount == r.refundAmount.value
  {
    ReturnForm(r.status, StringOr(r.processingNotes, ""), RealOr(r.refundAmount, 0.0))
  }

  /** The "Process" button is disabled for refunded returns only. */
  predicate ProcessDisabled(r: ReturnRequest) {
    r.status == "REFUNDED"
  }

  /** The refund cell: the amount when a refund was issued, otherwise "Not issued" (None). */
  function RefundCell(r: ReturnRequest): (cell: Option<real>)
    ensures cell.None? <==> !Truthy(r.refundIssued)
    ensures cell.Some? && r.refundAmount.Some? ==> cell.value == r.refundAmount.value
  {
    if Truthy(r.refundIssued) then Some(if r.refundAmount.Some? then r.refundAmount.value else 0.0) else None
  }

  /** A request sent while processing a return. */
  datatype Request =
    | ProcessRequest(returnId: int, status: string, notes: string, processedBy: string)
    | RefundRequest(returnId: int, amount: real)

  /** Whether processing this form also asks for a refund. */
  predicate WantsRefund(f: ReturnForm) {
    f.status == "APPROVED" && f.refundAmount > 0.0
  }

  /** A return opened as REJECTED (or as anything but APPROVED), or opened without an
      amount, asks for no refund until the admin edits the form. */
  lemma NoRefundUnlessApprovedWithAmount(r: ReturnRequest)
    ensures r.status != "APPROVED" ==> !WantsRefund(FormFor(r))
    ensures r.refundAmount.None? ==> !WantsRefund(FormFor(r))
  {
  }

  /** A change made in the processing form: the status select, the notes or the amount.
      The amount field is shown only while the status is APPROVED. */
  datatype FormInput = StatusInput(status: string) | NotesInput(notes: string) | AmountInput(amount: real)

  /** `{...prev, [name]: value}`: only the named field of the form changes. */
  function WithInput(f: ReturnForm, input: FormInput): (r: ReturnForm)
    ensures input.StatusInput? ==> r.status == input.status
    ensures input.NotesInput? ==> r.processingNotes == input.notes
    ensures input.AmountInput? ==> r.refundAmount == input.amount
    ensures !input.StatusInput? ==> r.status == f.status
    ensures !input.NotesInput? ==> r.processingNotes == f.processingNotes
    ensures !input.AmountInput? ==> r.refundAmount == f.refundAmount
  {
    match input
    case StatusInput(status) => f.(status := status)
    case NotesInput(notes) => f.(processingNotes := notes)
    case AmountInput(amount) => f.(refundAmount := amount)
  }

  /** Choosing "Approve" and entering a positive amount makes processing ask for a
      refund, whatever the return was opened with; choosing "Reject" never does. */
  lemma EditedFormRefund(f: ReturnForm, amount: real)
    ensures amount > 0.0 ==> WantsRefund(WithInput(WithInput(f, StatusInput("APPROVED")), AmountInput(amount)))
    ensures !WantsRefund(WithInput(f, StatusInput("REJECTED")))
    ensures !WantsRefund(WithInput(WithInput(f, AmountInput(amount)), StatusInput("REJECTED")))
  {
  }

  /** Whether the browser lets the processing form submit: the status select is required
      and offers only "Approve" and "Reject" besides the empty choice, the notes are
      required, and the amount field, shown only for APPROVED, is required with a minimum
      of 0. */
  predicate Submittable(f: ReturnForm) {
    && (f.status == "APPROVED" || f.status == "REJECTED")
    && f.processingNotes != ""
    && (f.status == "APPROVED" ==> f.refundAmount >= 0.0)
  }

  /** A return opened with a status the select does not offer (PENDING, or REFUNDED if
      its disabled button were bypassed) or without notes cannot be processed until the
      admin edits the form. */
  lemma OpenedFormNeedsEdit(r: ReturnRequest)
    ensures r.status != "APPROVED" && r.status != "REJECTED" ==> !Submittable(FormFor(r))
    ensures r.processingNotes.None? ==> !Submittable(FormFor(r))
    ensures ProcessDisabled(r) ==> !Submittable(FormFor(r))
  {
  }

  /** Choosing "Reject" and writing notes always makes the form submittable; choosing
      "Approve" does too once the amount is at least 0. */
  lemma EditedFormSubmittable(f: ReturnForm, notes: string, amount: real)
    requires notes != ""
    ensures Submittable(WithInput(WithInput(f, StatusInput("REJECTED")), NotesInput(notes)))
    ensures Submittable(WithInput(WithInput(WithInput(f, StatusInput("APPROVED")), NotesInput(notes)), AmountInput(amount)))
            <==> amount >= 0.0
  {
  }

  /** The screen state the handlers update. */
  class ReturnsScreen {
    var returnRequests: seq<ReturnRequest>
    var loading: bool
    var showModal: bool
    var selectedReturn: Option<ReturnRequest>
    var formData: ReturnForm

    constructor ()
      ensures returnRequests == [] && loading && !showModal && selectedReturn == None && formData == EmptyForm
    {
      returnRequests := [];
      loading := true;
      showModal := false;
      selectedReturn := None;
      formData := EmptyForm;
    }

    /** `fetchReturns`. */
    method FetchReturns(reply: Reply<seq<ReturnRequest>>)
      modifies this
      ensures !loading
      ensures reply.Ok? ==> returnRequests == reply.body
      ensures reply.Failed? ==> returnRequests == old(returnRequests)
      ensures showModal == old(showModal) && selectedReturn == old(selectedReturn) && formData == old(formData)
    {
      if reply.Ok? {
        returnRequests := reply.body;
      }
      loading := false;
    }

    /** `handleViewReturn`. */
    method ViewReturn(r: ReturnRequest)
      modifies this
      ensures selectedReturn == Some(r) && formData == FormFor(r) && showModal
      ensures returnRequests == old(returnRequests) && loading == old(loading)
    {
      selectedReturn := Some(r);
      formData := FormFor(r);
      showModal := true;
    }

    /** `handleInputChange`: one field of the form takes the new value. */
    method InputChange(input: FormInput)
      modifies this
      ensures formData == WithInput(old(formData), input)
      ensures returnRequests == old(returnRequests) && loading == old(loading)
      ensures showModal == old(showModal) && selectedReturn == old(selectedReturn)
    {
      formData := WithInput(formData, input);
    }

    /** Submitting the processing form, given whether each request succeeds: the browser
        refuses a form that is not `Submittable`; otherwise `handleProcessReturn` runs.
        Returns the requests sent, in order, and whether the processing succeeded (then
        the modal closes and the list is reloaded). */
    method ProcessReturn(processOk: bool, refundOk: bool) returns (sent: seq<Request>, ok: bool)
      modifies this
      ensures selectedReturn.None? || !Submittable(formData) ==> sent == [] && !ok
      ensures selectedReturn.Some? && Submittable(formData) ==>
                && |sent| >= 1
                && sent[0] == ProcessRequest(selectedReturn.value.id, formData.status, formData.processingNotes, "admin")
                && (|sent| == 2 <==> processOk && WantsRefund(formData))
                && (|sent| == 2 ==> sent[1] == RefundRequest(selectedReturn.value.id, formData.refundAmount))
                && |sent| <= 2
                && (ok <==> processOk && (WantsRefund(formData) ==> refundOk))
      ensures forall i :: 0 <= i < |sent| && sent[i].RefundRequest? ==> formData.status == "APPROVED"
      ensures showModal == (old(showModal) && !ok)
      ensures selectedReturn == old(selectedReturn) && formData == old(formData)
      ensures returnRequests == old(returnRequests) && loading == old(loading)
    {
      sent := [];
      ok := false;
      if selectedReturn.None? || !Submittable(formData) {
        return;
      }
      var id := selectedReturn.value.id;
      sent := [ProcessRequest(id, formData.status, formData.processingNotes, "admin")];
      if !processOk {
        return;
      }
      if formData.status == "APPROVED" && formData.refundAmount > 0.0 {
        sent := sent + [RefundRequest(id, formData.refundAmount)];
        if !refundOk {
          return;
        }
      }
      ok := true;
      showModal := false;
    }
  }
}

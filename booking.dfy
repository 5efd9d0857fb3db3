/** The booking form: the decision made when it is submitted, the mapping from
    a service code to its label, and the details handed to the store once the
    confirmation is closed. */
module Booking {
  import opened Wrappers
  import AuthStore

  datatype PaymentMethod = Card | Cash

  datatype PaymentInfo = PaymentInfo(
    cardNumber: string,
    expiryDate: string,
    cvv: string,
    name: string,
    paymentMethod: PaymentMethod)

  /** The form's state: the three selections and the payment details. */
  datatype BookingForm = BookingForm(service: string, date: string, time: string, payment: PaymentInfo)

  /** What a submission leads to. */
  datatype SubmitOutcome = OpenAuthModal | Alert(message: string) | ShowConfirmation

  const RequiredFieldsMessage: string := "Please fill in all required fields"
  const PaymentDetailsMessage: string := "Please fill in all payment details"

  /** The form as the page first shows it: nothing chosen, card payment. */
  const InitialForm: BookingForm := BookingForm("", "", "", PaymentInfo("", "", "", "", Card))

  /** The service codes the form offers, in menu order. */
  const ServiceOptions: seq<string> := ["haircut", "color", "treatment"]

  /** Service, date and time are all chosen. */
  predicate RequiredFilled(form: BookingForm)
  {
    form.service != "" && form.date != "" && form.time != ""
  }

  /** All four card fields are filled in. */
  predicate CardFilled(p: PaymentInfo)
  {
    p.cardNumber != "" && p.expiryDate != "" && p.cvv != "" && p.name != ""
  }

  /** When a submission may go on to the confirmation. */
  predicate ReadyToConfirm(isAuthenticated: bool, form: BookingForm)
  {
    isAuthenticated && RequiredFilled(form) && (form.payment.paymentMethod == Cash || CardFilled(form.payment))
  }

  /** `handleSubmit`: the checks run in order and the first that fails decides. */
  function HandleSubmit(isAuthenticated: bool, form: BookingForm): (r: SubmitOutcome)
    ensures !isAuthenticated ==> r == OpenAuthModal
    ensures isAuthenticated && !RequiredFilled(form) ==> r == Alert(RequiredFieldsMessage)
    ensures isAuthenticated && RequiredFilled(form) && form.payment.paymentMethod == Card && !CardFilled(form.payment) ==>
      r == Alert(PaymentDetailsMessage)
    ensures r == ShowConfirmation <==> ReadyToConfirm(isAuthenticated, form)
  {
    if !isAuthenticated then OpenAuthModal
    else if form.service == "" || form.date == "" || form.time == "" then Alert(RequiredFieldsMessage)
    else if form.payment.paymentMethod == Card &&
            (form.payment.cardNumber == "" || form.payment.expiryDate == "" ||
             form.payment.cvv == "" || form.payment.name == "") then Alert(PaymentDetailsMessage)
    else ShowConfirmation
  }

  /** With cash payment the card fields are never looked at. */
  lemma CashIgnoresCardFields(isAuthenticated: bool, form: BookingForm,
                              cardNumber: string, expiryDate: string, cvv: string, name: string)
    requires form.payment.paymentMethod == Cash
    ensures HandleSubmit(isAuthenticated, form) ==
      HandleSubmit(isAuthenticated, form.(payment := PaymentInfo(cardNumber, expiryDate, cvv, name, Cash)))
  {
  }

  /** The required-fields check comes first: a missing selection gives its
      alert whatever the payment details are. */
  lemma RequiredCheckedBeforePayment(form: BookingForm, payment: PaymentInfo)
    requires !RequiredFilled(form)
    ensures HandleSubmit(true, form.(payment := payment)) == Alert(RequiredFieldsMessage)
  {
  }

  /** Submitting the untouched form while signed in asks for the required fields. */
  lemma InitialFormNeedsFields()
    ensures HandleSubmit(true, InitialForm) == Alert(RequiredFieldsMessage)
    ensures HandleSubmit(false, InitialForm) == OpenAuthModal
  {
  }

  /** `getServiceName`: the label of an offered service, `""` for anything else. */
  function ServiceName(value: string): (r: string)
    ensures r != "" <==> value in ServiceOptions
  {
    match value
    case "haircut" => "Haircut & Styling"
    case "color" => "Color Treatment"
    case "treatment" => "Hair Treatment"
    case _ => ""
  }

  /** Different offered services get different labels. */
  lemma ServiceNameInjective(a: string, b: string)
    requires a in ServiceOptions && b in ServiceOptions
    requires ServiceName(a) == ServiceName(b)
    ensures a == b
  {
  }

  /** The details passed to `addAppointment` when the confirmation is closed:
      the service's label rather than its code, and the chosen date and time. */
  function BookingDetails(form: BookingForm): AuthStore.AppointmentRequest
  {
    AuthStore.AppointmentRequest(ServiceName(form.service), form.date, form.time, None)
  }

  /** Closing the confirmation of a valid submission appends one pending
      appointment, with no rejection reason, carrying the signed-in user's
      email, the service's label (non-empty when the service is one the menu
      offers) and the chosen date and time; earlier records are kept. */
  lemma ConfirmedBookingRecorded(s: AuthStore.AuthState, form: BookingForm, id: int)
    requires AuthStore.Consistent(s)
    requires HandleSubmit(s.isAuthenticated, form) == ShowConfirmation
    ensures var r := AuthStore.AppointmentAdded(s, BookingDetails(form), id);
      var a := r.appointments[|r.appointments| - 1];
      |r.appointments| == |s.appointments| + 1 &&
      r.appointments[..|s.appointments|] == s.appointments &&
      a.id == id && a.status == AuthStore.Pending && a.rejectionReason.None? &&
      a.userEmail == s.user.value.email &&
      a.service == ServiceName(form.service) && a.date == form.date && a.time == form.time &&
      (form.service in ServiceOptions ==> a.service != "")
  {
  }
}

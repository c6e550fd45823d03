/**
 * The public table-booking form: validation of the name and phone fields, the request
 * body sent to the bookings endpoint, the test that the server accepted the booking, and
 * the loading / submitted flags around the request.
 */
module Booking {
  import opened Wrappers
  import opened Text

  datatype FormData = FormData(name: string, phone: string)

  const EmptyForm := FormData("", "")

  /** The two validation messages, in the order they are checked. */
  datatype FieldError = NameRequired | PhoneRequired

  /** The least number of non-whitespace characters a phone entry must have. */
  const MinPhoneLength := 9

  /** The country prefix put in front of the entered phone number. */
  const CountryCode := "+998"

  /** The phrase the server's message contains when it accepted a booking. */
  const AcceptedPhrase := "qabul qilindi"

  /** `validateForm`: the first failing check, or `None` when the form may be sent. The name
      fails when it is nothing but whitespace; the phone fails when `trim` leaves nothing or
      fewer than nine characters remain once all whitespace is removed. In terms of the
      characters typed: the name error exactly when the name is blank; the phone error exactly
      when the name is not blank and the phone has fewer than nine non-whitespace characters;
      success exactly when neither holds. */
  function ValidateForm(form: FormData): (r: Option<FieldError>)
    ensures r == Some(NameRequired) <==>
      forall i :: 0 <= i < |form.name| ==> IsWhitespace(form.name[i])
    ensures r == Some(PhoneRequired) <==>
      (exists i :: 0 <= i < |form.name| && !IsWhitespace(form.name[i])) &&
      |StripWhitespace(form.phone)| < MinPhoneLength
    ensures r == None <==>
      (exists i :: 0 <= i < |form.name| && !IsWhitespace(form.name[i])) &&
      |StripWhitespace(form.phone)| >= MinPhoneLength
  {
    PhoneCheckIsLengthCheck(form.phone);
    if Trim(form.name) == "" then Some(NameRequired)
    else if Trim(form.phone) == "" || |StripWhitespace(form.phone)| < MinPhoneLength then Some(PhoneRequired)
    else None
  }

  /** The trimmed-emptiness test on the phone adds nothing: a phone that trims to nothing has
      no characters left after whitespace removal either. */
  lemma PhoneCheckIsLengthCheck(phone: string)
    ensures (Trim(phone) == "" || |StripWhitespace(phone)| < MinPhoneLength)
        <==> |StripWhitespace(phone)| < MinPhoneLength
  {
  }

  /** The JSON body of the booking request. */
  datatype BookingRequest = BookingRequest(fullName: string, phone: string)

  lemma CountryCodeHasNoWhitespace()
    ensures NoWhitespace(CountryCode)
  {
    assert CountryCode == ['+', '9', '9', '8'];
  }

  /** The phone number sent: the country code followed by the entry without whitespace. */
  function FullPhone(phone: string): (r: string)
    ensures |r| == |CountryCode| + |StripWhitespace(phone)|
    ensures StartsWith(r, CountryCode) && r[|CountryCode|..] == StripWhitespace(phone)
    ensures NoWhitespace(r)
  {
    var stripped := StripWhitespace(phone);
    CountryCodeHasNoWhitespace();
    var r := CountryCode + stripped;
    assert forall i :: 0 <= i < |r| ==> r[i] == if i < |CountryCode| then CountryCode[i] else stripped[i - |CountryCode|];
    r
  }

  /** A form that passes validation yields a phone number of at least 4 + 9 characters. */
  lemma ValidFormPhoneLength(form: FormData)
    ensures ValidateForm(form) == None ==> |FullPhone(form.phone)| >= |CountryCode| + MinPhoneLength
  {
  }

  /** What came back from the request: a failure of `fetch` or of reading the JSON body, or
      the response's `ok` flag with the body's `message` field, if any. */
  datatype Reply = Failed | Answered(ok: bool, message: Option<string>)

  /** The success test: the response is OK and its lower-cased message contains the
      acceptance phrase. */
  predicate Accepted(reply: Reply)
    ensures Accepted(reply) <==>
      reply.Answered? && reply.ok && reply.message.Some? &&
      exists i :: OccursAt(Lower(reply.message.value), AcceptedPhrase, i)
  {
    if reply.Answered? && reply.ok && reply.message.Some? then
      IncludesIffOccurs(Lower(reply.message.value), AcceptedPhrase);
      Includes(Lower(reply.message.value), AcceptedPhrase)
    else false
  }

  /** A notice shown to the visitor. */
  datatype Toast = Invalid(error: FieldError) | Success(message: string) | SomethingWentWrong

  /** Acceptance depends on the message only through its lower-cased form, so the server may
      write the phrase in any casing. */
  lemma AcceptedIgnoresCase(ok: bool, m1: string, m2: string)
    requires Lower(m1) == Lower(m2)
    ensures Accepted(Answered(ok, Some(m1))) <==> Accepted(Answered(ok, Some(m2)))
  {
  }

  /** A reply that is not OK, or that has no message, is never a success. */
  lemma RejectedReplies(message: Option<string>, ok: bool)
    ensures !Accepted(Failed)
    ensures !Accepted(Answered(false, message))
    ensures !Accepted(Answered(ok, None))
  {
  }

  /** The state of the booking section. */
  class BookingSection {
    var formData: FormData
    var isLoading: bool
    var isSubmitted: bool

    constructor ()
      ensures formData == EmptyForm && !isLoading && !isSubmitted
    {
      formData := EmptyForm;
      isLoading := false;
      isSubmitted := false;
    }

    /** `handleInputChange` for the name field. */
    method SetName(value: string)
      modifies this`formData
      ensures formData == old(formData).(name := value)
    {
      formData := formData.(name := value);
    }

    /** `handleInputChange` for the phone field. */
    method SetPhone(value: string)
      modifies this`formData
      ensures formData == old(formData).(phone := value)
    {
      formData := formData.(phone := value);
    }

    /** The part of `handleSubmit` before the request is awaited. An invalid form reports its
        first error and issues nothing, leaving every flag as it was; a valid one sets the
        loading flag and returns the request to send: the name exactly as typed and the full
        phone number. */
    method BeginSubmit() returns (request: Option<BookingRequest>, toast: Option<Toast>)
      modifies this`isLoading
      ensures ValidateForm(formData).Some? ==>
        request == None && toast == Some(Invalid(ValidateForm(formData).value)) && isLoading == old(isLoading)
      ensures ValidateForm(formData) == None ==>
        request == Some(BookingRequest(formData.name, FullPhone(formData.phone))) && toast == None && isLoading
    {
      var error := ValidateForm(formData);
      if error.Some? {
        request, toast := None, Some(Invalid(error.value));
        return;
      }
      isLoading := true;
      request, toast := Some(BookingRequest(formData.name, FullPhone(formData.phone))), None;
    }

    /** The part of `handleSubmit` after the reply arrives: on acceptance the section shows
        its confirmation, otherwise the error notice; the loading flag is cleared either way. */
    method FinishSubmit(reply: Reply) returns (toast: Toast)
      modifies this`isLoading, this`isSubmitted
      ensures !isLoading
      ensures Accepted(reply) ==> isSubmitted && toast == Success(reply.message.value)
      ensures !Accepted(reply) ==> isSubmitted == old(isSubmitted) && toast == SomethingWentWrong
    {
      if Accepted(reply) {
        isSubmitted := true;
        toast := Success(reply.message.value);
      } else {
        toast := SomethingWentWrong;
      }
      isLoading := false;
    }

    /** The timer that fires three seconds after an accepted booking: the confirmation is
        hidden and the form cleared. */
    method ResetAfterSuccess()
      modifies this`isSubmitted, this`formData
      ensures !isSubmitted && formData == EmptyForm
    {
      isSubmitted := false;
      formData := EmptyForm;
    }
  }
}

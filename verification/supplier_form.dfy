/** The "become a supplier" request form on the find-a-supplier page: seven
    fields, their validation, and the submit that clears the form. */
module SupplierForm {
  import opened Text
  import opened Forms

  datatype Field = Company | Address | Phone | ContactFirst | ContactLast | Email | Email2

  const AllFields: set<Field> := {Company, Address, Phone, ContactFirst, ContactLast, Email, Email2}

  lemma FieldListed(k: Field)
    ensures k in AllFields
  {
    match k {
      case Company =>
      case Address =>
      case Phone =>
      case ContactFirst =>
      case ContactLast =>
      case Email =>
      case Email2 =>
    }
  }

  datatype Form = Form(
    company: string, address: string, phone: string,
    contactFirst: string, contactLast: string, email: string, email2: string)

  const EmptyForm := Form("", "", "", "", "", "", "")

  const CompanyMsg := "Company name is required."
  const AddressMsg := "Address is required."
  const PhoneMsg := "Phone is required."
  const FirstMsg := "First name is required."
  const LastMsg := "Last name is required."
  const EmailMsg := "Enter a valid email."
  const ConfirmMsg := "Confirm your email."
  const MismatchMsg := "Emails do not match."
  const ThanksMsg := "Thanks. Your request has been received and will be reviewed."

  function Get(f: Form, k: Field): string {
    match k
    case Company => f.company
    case Address => f.address
    case Phone => f.phone
    case ContactFirst => f.contactFirst
    case ContactLast => f.contactLast
    case Email => f.email
    case Email2 => f.email2
  }

  /** `setField(k, v)`: field `k` now holds `v` and every other field is as
      it was. */
  function Set(f: Form, k: Field, v: string): (g: Form)
    ensures Get(g, k) == v
    ensures forall j :: j != k ==> Get(g, j) == Get(f, j)
  {
    match k
    case Company => f.(company := v)
    case Address => f.(address := v)
    case Phone => f.(phone := v)
    case ContactFirst => f.(contactFirst := v)
    case ContactLast => f.(contactLast := v)
    case Email => f.(email := v)
    case Email2 => f.(email2 := v)
  }

  /** `emailMatch`: the two addresses agree once trimmed and lower-cased. */
  predicate EmailsMatch(f: Form)
    ensures Trim(f.email) == Trim(f.email2) ==> EmailsMatch(f)
    ensures EmailsMatch(f) ==> |Trim(f.email)| == |Trim(f.email2)|
  {
    EmailKey(f.email) == EmailKey(f.email2)
  }

  /** The check of one field fails. The five text fields are required; the
      confirmation also fails when both addresses are valid but differ. */
  predicate Fails(f: Form, k: Field) {
    match k
    case Company => Blank(f.company)
    case Address => Blank(f.address)
    case Phone => Blank(f.phone)
    case ContactFirst => Blank(f.contactFirst)
    case ContactLast => Blank(f.contactLast)
    case Email => !IsEmail(f.email)
    case Email2 => !IsEmail(f.email2) || (IsEmail(f.email) && !EmailsMatch(f))
  }

  /** The message of a failing field. For the confirmation the mismatch
      message is written last, so it wins whenever the confirmation itself is
      a valid address. */
  function Message(f: Form, k: Field): string {
    match k
    case Company => CompanyMsg
    case Address => AddressMsg
    case Phone => PhoneMsg
    case ContactFirst => FirstMsg
    case ContactLast => LastMsg
    case Email => EmailMsg
    case Email2 => if IsEmail(f.email2) then MismatchMsg else ConfirmMsg
  }

  /** The `errors` object: one entry per failing field. */
  function Errors(f: Form): (e: map<Field, string>)
    ensures forall k :: k in e <==> Fails(f, k)
    ensures forall k :: k in e ==> e[k] == Message(f, k)
  {
    forall k: Field ensures k in AllFields { FieldListed(k); }
    map k | k in AllFields && Fails(f, k) :: Message(f, k)
  }

  /** `canSubmit`: no errors at all. */
  predicate CanSubmit(f: Form) {
    Errors(f) == map[]
  }

  /** The form can be sent exactly when the five text fields hold something
      besides whitespace, both addresses are valid and they agree. */
  lemma CanSubmitIff(f: Form)
    ensures CanSubmit(f) <==>
      && !AllWhitespace(f.company) && !AllWhitespace(f.address) && !AllWhitespace(f.phone)
      && !AllWhitespace(f.contactFirst) && !AllWhitespace(f.contactLast)
      && IsEmail(f.email) && IsEmail(f.email2) && EmailsMatch(f)
  {
    BlankIff(f.company);
    BlankIff(f.address);
    BlankIff(f.phone);
    BlankIff(f.contactFirst);
    BlankIff(f.contactLast);
    NoFailingCheck(f);
  }

  /** No errors means that none of the seven checks fails. */
  lemma NoFailingCheck(f: Form)
    ensures CanSubmit(f) <==>
      && !Fails(f, Company) && !Fails(f, Address) && !Fails(f, Phone)
      && !Fails(f, ContactFirst) && !Fails(f, ContactLast)
      && !Fails(f, Email) && !Fails(f, Email2)
  {
    var e := Errors(f);
    if e != map[] {
      var k :| k in e;
      assert Fails(f, k);
    }
  }

  /** "Emails do not match." is shown only when both addresses are valid
      and differ in more than case and surrounding whitespace. */
  lemma MismatchOnlyWhenBothValid(f: Form)
    requires Email2 in Errors(f) && Errors(f)[Email2] == MismatchMsg
    ensures IsEmail(f.email) && IsEmail(f.email2)
    ensures EmailKey(f.email) != EmailKey(f.email2)
  {
  }

  lemma EmptyFormFails(k: Field)
    ensures Fails(EmptyForm, k)
  {
    EmptyIsNotEmail();
    assert Blank("") by { assert Trim("") == ""; }
    match k {
      case Company =>
      case Address =>
      case Phone =>
      case ContactFirst =>
      case ContactLast =>
      case Email =>
      case Email2 =>
    }
  }

  /** A fresh form fails every check, the confirmation with "Confirm your
      email.". */
  lemma EmptyFormErrors()
    ensures forall k :: k in Errors(EmptyForm)
    ensures Errors(EmptyForm)[Email2] == ConfirmMsg
  {
    forall k ensures k in Errors(EmptyForm) {
      EmptyFormFails(k);
    }
    EmptyConfirmMessage();
  }

  lemma EmptyConfirmMessage()
    ensures Message(EmptyForm, Email2) == ConfirmMsg
  {
    EmptyIsNotEmail();
  }

  /** The form component. `touched` is the set of fields whose errors are
      shown. The awaited send is an input of `Submit`: the page's
      placeholder timer always resolves, and the `catch` branch covers a send
      that fails. */
  class BecomeSupplierForm {
    var form: Form
    var touched: set<Field>
    var status: Status

    /** The status line only ever holds nothing, the thank-you message or
        the failure message. */
    ghost predicate Valid()
      reads this
    {
      status == NoStatus || status == Status(true, ThanksMsg) || status == Status(false, FailureMsg)
    }

    constructor ()
      ensures Valid()
      ensures form == EmptyForm && touched == {} && status == NoStatus
    {
      form := EmptyForm;
      touched := {};
      status := NoStatus;
    }

    /** Typing into a field. */
    method SetField(k: Field, v: string)
      modifies this`form
      ensures form == Set(old(form), k, v)
    {
      form := Set(form, k, v);
    }

    /** Leaving a field marks it touched. */
    method Blur(k: Field)
      modifies this`touched
      ensures touched == old(touched) + {k}
    {
      touched := touched + {k};
    }

    /** `onSubmit`. Every field becomes touched; an invalid form stops there
        and nothing is sent. A valid one is sent: on success the form is
        cleared, its errors hidden, the thank-you message shown, and `done`
        reports that `onDone` closes the panel; on failure the form is kept
        and the failure message shown. */
    method Submit(sendOk: bool) returns (sent: bool, done: bool)
      requires Valid()
      modifies this
      ensures Valid()
      ensures sent <==> CanSubmit(old(form))
      ensures done <==> sent && sendOk
      ensures !sent ==> form == old(form) && touched == AllFields && status == old(status)
      ensures done ==> form == EmptyForm && touched == {} && status == Status(true, ThanksMsg)
      ensures sent && !sendOk ==> form == old(form) && touched == AllFields && status == Status(false, FailureMsg)
    {
      touched := AllFields;
      done := false;
      if !CanSubmit(form) {
        return false, false;
      }
      sent := true;
      status := NoStatus;
      if sendOk {
        status := Status(true, ThanksMsg);
        form := EmptyForm;
        touched := {};
        done := true;
      } else {
        status := Status(false, FailureMsg);
      }
    }
  }

  /** A successful submit leaves a form that cannot be sent again until it
      is filled in anew. */
  lemma SubmittedFormIsEmpty()
    ensures !CanSubmit(EmptyForm)
  {
    EmptyFormErrors();
  }
}

/** The contact page's enquiry form: eight fields, their validation, the
    submit that resets the form and the Reset button. */
module ContactForm {
  import opened Text
  import opened Forms

  datatype Field = EnquiryType | CustomerType | FirstName | LastName | Phone | Email | Postcode | Message

  const AllFields: set<Field> := {EnquiryType, CustomerType, FirstName, LastName, Phone, Email, Postcode, Message}

  lemma FieldListed(k: Field)
    ensures k in AllFields
  {
    match k {
      case EnquiryType =>
      case CustomerType =>
      case FirstName =>
      case LastName =>
      case Phone =>
      case Email =>
      case Postcode =>
      case Message =>
    }
  }

  /** The two selects hold option values ("sales", "technical", ...;
      "individual", "company"); the rest are free text. */
  datatype Form = Form(
    enquiryType: string, customerType: string, firstName: string, lastName: string,
    phone: string, email: string, postcode: string, message: string)

  const DefaultForm := Form("sales", "company", "", "", "", "", "", "")

  const EnquiryMsg := "Select a reason for your enquiry."
  const CustomerMsg := "Select if you are an individual or company."
  const FirstMsg := "First name is required."
  const LastMsg := "Last name is required."
  const PhoneMsg := "Phone is required."
  const EmailMsg := "Enter a valid email."
  const MessageMsg := "Message is required."
  const PostcodeMsg := "Enter a valid postcode."
  const ThanksMsg := "Thanks. We’ve received your message and will get back to you shortly."

  function Get(f: Form, k: Field): string {
    match k
    case EnquiryType => f.enquiryType
    case CustomerType => f.customerType
    case FirstName => f.firstName
    case LastName => f.lastName
    case Phone => f.phone
    case Email => f.email
    case Postcode => f.postcode
    case Message => f.message
  }

  /** `setField(k, v)`: field `k` now holds `v` and every other field is as
      it was. */
  function Set(f: Form, k: Field, v: string): (g: Form)
    ensures Get(g, k) == v
    ensures forall j :: j != k ==> Get(g, j) == Get(f, j)
  {
    match k
    case EnquiryType => f.(enquiryType := v)
    case CustomerType => f.(customerType := v)
    case FirstName => f.(firstName := v)
    case LastName => f.(lastName := v)
    case Phone => f.(phone := v)
    case Email => f.(email := v)
    case Postcode => f.(postcode := v)
    case Message => f.(message := v)
  }

  /** The postcode is optional; when given, its trimmed text must have a
      `length` of at least three, counted in UTF-16 code units. */
  predicate PostcodeFails(p: string)
    ensures PostcodeFails(p) ==> 1 <= |Trim(p)| <= 2
    ensures Trim(p) != [] && |Trim(p)| >= 3 ==> !PostcodeFails(p)
  {
    Trim(p) != [] && Utf16Length(Trim(p)) < 3
  }

  /** The check of one field fails. The selects fail only when empty (not
      trimmed); the name, phone and message fields are required. */
  predicate Fails(f: Form, k: Field) {
    match k
    case EnquiryType => f.enquiryType == []
    case CustomerType => f.customerType == []
    case FirstName => Blank(f.firstName)
    case LastName => Blank(f.lastName)
    case Phone => Blank(f.phone)
    case Email => !IsEmail(f.email)
    case Postcode => PostcodeFails(f.postcode)
    case Message => Blank(f.message)
  }

  function ErrorMessage(k: Field): string {
    match k
    case EnquiryType => EnquiryMsg
    case CustomerType => CustomerMsg
    case FirstName => FirstMsg
    case LastName => LastMsg
    case Phone => PhoneMsg
    case Email => EmailMsg
    case Postcode => PostcodeMsg
    case Message => MessageMsg
  }

  /** The `errors` object: one entry per failing field. */
  function Errors(f: Form): (e: map<Field, string>)
    ensures forall k :: k in e <==> Fails(f, k)
    ensures forall k :: k in e ==> e[k] == ErrorMessage(k)
  {
    forall k: Field ensures k in AllFields { FieldListed(k); }
    map k | k in AllFields && Fails(f, k) :: ErrorMessage(k)
  }

  /** `canSubmit`: no errors at all. */
  predicate CanSubmit(f: Form) {
    Errors(f) == map[]
  }

  /** The form can be sent exactly when both selects are set, the names,
      phone and message hold something besides whitespace, the email is
      valid and the postcode is either left blank or at least three UTF-16
      code units long once trimmed. */
  lemma CanSubmitIff(f: Form)
    ensures CanSubmit(f) <==>
      && f.enquiryType != [] && f.customerType != []
      && !AllWhitespace(f.firstName) && !AllWhitespace(f.lastName)
      && !AllWhitespace(f.phone) && !AllWhitespace(f.message)
      && IsEmail(f.email)
      && (AllWhitespace(f.postcode) || Utf16Length(Trim(f.postcode)) >= 3)
  {
    BlankIff(f.firstName);
    BlankIff(f.lastName);
    BlankIff(f.phone);
    BlankIff(f.message);
    BlankIff(f.postcode);
    NoFailingCheck(f);
  }

  /** No errors means that none of the eight checks fails. */
  lemma NoFailingCheck(f: Form)
    ensures CanSubmit(f) <==>
      && !Fails(f, EnquiryType) && !Fails(f, CustomerType)
      && !Fails(f, FirstName) && !Fails(f, LastName) && !Fails(f, Phone)
      && !Fails(f, Email) && !Fails(f, Postcode) && !Fails(f, Message)
  {
    var e := Errors(f);
    if e != map[] {
      var k :| k in e;
      assert Fails(f, k);
    }
  }

  /** The postcode rule in terms of the raw text: the error appears exactly
      when, leading and trailing whitespace aside, what was typed has a
      `length` of one or two. */
  lemma PostcodeRule(p: string)
    ensures PostcodeFails(p) <==> !AllWhitespace(p) && Utf16Length(Trim(p)) <= 2
  {
    TrimEmptyIff(p);
  }

  /** A character outside the Basic Multilingual Plane counts twice: an emoji
      followed by one letter is a postcode long enough to send... */
  lemma AstralPostcodeAccepted()
    ensures !PostcodeFails("\U{1F600}a")
  {
    var e := "\U{1F600}a";
    assert !IsWhitespace(e[0]) && !IsWhitespace(e[|e| - 1]);
    assert Trim(e) == e;
    assert Utf16Length(e[1..]) == 1;
  }

  /** ...while two plain letters are not. */
  lemma TwoLetterPostcodeFails()
    ensures PostcodeFails("ab")
  {
    var p := "ab";
    assert !IsWhitespace(p[0]) && !IsWhitespace(p[|p| - 1]);
    assert Trim(p) == p;
  }

  lemma DefaultFormFails(k: Field)
    ensures Fails(DefaultForm, k) <==> k in {FirstName, LastName, Phone, Email, Message}
  {
    EmptyIsNotEmail();
    assert Blank("") by { assert Trim("") == ""; }
    assert !PostcodeFails("") by { assert Trim("") == ""; }
    match k {
      case EnquiryType =>
      case CustomerType =>
      case FirstName =>
      case LastName =>
      case Phone =>
      case Email =>
      case Postcode =>
      case Message =>
    }
  }

  /** The default form: both selects are set, so exactly the four required
      text fields and the email fail; the optional postcode does not. */
  lemma DefaultFormErrors()
    ensures forall k :: k in Errors(DefaultForm) <==> k in {FirstName, LastName, Phone, Email, Message}
  {
    forall k ensures k in Errors(DefaultForm) <==> k in {FirstName, LastName, Phone, Email, Message} {
      DefaultFormFails(k);
    }
  }

  /** The page's form state. The awaited send is an input of `Submit`: the
      page's placeholder timer always resolves, and the `catch` branch covers
      a send that fails. */
  class ContactPage {
    var form: Form
    var touched: set<Field>
    var status: Status

    /** The status line only ever holds nothing, the thank-you message or
        the failure message. */
    ghost predicate Valid()
      reads this
    {
      status == NoStatus || status == Status(true, ThanksMsg) || status == Status(false, FailureMsg)
    }

    constructor ()
      ensures Valid()
      ensures form == DefaultForm && touched == {} && status == NoStatus
    {
      form := DefaultForm;
      touched := {};
      status := NoStatus;
    }

    method SetField(k: Field, v: string)
      modifies this`form
      ensures form == Set(old(form), k, v)
    {
      form := Set(form, k, v);
    }

    method Blur(k: Field)
      modifies this`touched
      ensures touched == old(touched) + {k}
    {
      touched := touched + {k};
    }

    /** `onSubmit`. Every field becomes touched; an invalid form stops there
        and nothing is sent. A valid one is sent: on success the form goes
        back to its defaults, its errors are hidden and the thank-you message
        is shown; on failure the form is kept and the failure message shown. */
    method Submit(sendOk: bool) returns (sent: bool)
      requires Valid()
      modifies this
      ensures Valid()
      ensures sent <==> CanSubmit(old(form))
      ensures !sent ==> form == old(form) && touched == AllFields && status == old(status)
      ensures sent && sendOk ==> form == DefaultForm && touched == {} && status == Status(true, ThanksMsg)
      ensures sent && !sendOk ==> form == old(form) && touched == AllFields && status == Status(false, FailureMsg)
    {
      touched := AllFields;
      if !CanSubmit(form) {
        return false;
      }
      sent := true;
      status := NoStatus;
      if sendOk {
        status := Status(true, ThanksMsg);
        form := DefaultForm;
        touched := {};
      } else {
        status := Status(false, FailureMsg);
      }
    }

    /** The Reset button: defaults, nothing touched, no status. */
    method Reset()
      modifies this
      ensures Valid()
      ensures form == DefaultForm && touched == {} && status == NoStatus
    {
      form := DefaultForm;
      touched := {};
      status := NoStatus;
    }
  }
}

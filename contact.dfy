/** The contact form: the schema's length rules and the submission state
    machine (idle, submitting, success, error). The e-mail format check
    belongs to the validation library and is a parameter here. */
module Contact {
  import opened Common

  datatype FormData = FormData(name: string, email: string, subject: string, message: string)

  datatype Field = Name | Email | Subject | Message

  datatype Status = Idle | Success | Error

  const MinName: nat := 2
  const MinSubject: nat := 5
  const MinMessage: nat := 10

  const EmptyForm: FormData := FormData("", "", "", "")

  /** The message shown next to a field that fails its rule. */
  function ErrorMessage(f: Field): string {
    match f
    case Name => "Name must be at least 2 characters"
    case Email => "Invalid email address"
    case Subject => "Subject must be at least 5 characters"
    case Message => "Message must be at least 10 characters"
  }

  /** The fields that fail the schema. */
  function FieldErrors(d: FormData, isEmail: string -> bool): set<Field> {
    (if |d.name| < MinName then {Name} else {})
    + (if !isEmail(d.email) then {Email} else {})
    + (if |d.subject| < MinSubject then {Subject} else {})
    + (if |d.message| < MinMessage then {Message} else {})
  }

  predicate SchemaValid(d: FormData, isEmail: string -> bool) {
    FieldErrors(d, isEmail) == {}
  }

  /** The data passes the schema iff name, subject and message meet their
      minimum lengths and the e-mail check accepts the address. */
  lemma SchemaValidIff(d: FormData, isEmail: string -> bool)
    ensures SchemaValid(d, isEmail) <==>
      |d.name| >= 2 && isEmail(d.email) && |d.subject| >= 5 && |d.message| >= 10
  {
    if |d.name| < MinName { assert Name in FieldErrors(d, isEmail); }
    if !isEmail(d.email) { assert Email in FieldErrors(d, isEmail); }
    if |d.subject| < MinSubject { assert Subject in FieldErrors(d, isEmail); }
    if |d.message| < MinMessage { assert Message in FieldErrors(d, isEmail); }
  }

  /** Each failing rule is reported on its own field, so fields are corrected independently. */
  lemma {:induction false} ErrorsArePerField(d: FormData, isEmail: string -> bool, f: Field)
    ensures f in FieldErrors(d, isEmail) <==>
      match f
      case Name => |d.name| < 2
      case Email => !isEmail(d.email)
      case Subject => |d.subject| < 5
      case Message => |d.message| < 10
  {
  }

  /** The two status banners. */
  datatype Banners = Banners(success: bool, error: bool)

  class ContactForm {
    var fields: FormData
    var isSubmitting: bool
    var status: Status
    var errors: set<Field>
    var pending: FormData       // the data handed to `onSubmit`
    var sent: seq<FormData>     // the data logged by completed submissions

    ghost predicate Valid()
      reads this
    {
      isSubmitting ==> status == Idle
    }

    constructor ()
      ensures Valid()
      ensures fields == EmptyForm && !isSubmitting && status == Idle && errors == {} && sent == []
    {
      fields, isSubmitting, status, errors := EmptyForm, false, Idle, {};
      pending, sent := EmptyForm, [];
    }

    /** Typing into the inputs. */
    method Edit(d: FormData)
      modifies this`fields
      ensures fields == d
    {
      fields := d;
    }

    /** The submit button or Enter. While submitting the button is disabled
        and nothing happens; otherwise invalid data only reports its field
        errors, and valid data enters `onSubmit`. */
    method Submit(isEmail: string -> bool)
      requires Valid()
      modifies this`isSubmitting, this`status, this`errors, this`pending
      ensures Valid()
      ensures old(isSubmitting) ==> isSubmitting && status == old(status) && errors == old(errors) && pending == old(pending)
      ensures !old(isSubmitting) && !SchemaValid(fields, isEmail) ==>
        !isSubmitting && status == old(status) && errors == FieldErrors(fields, isEmail) && pending == old(pending)
      ensures !old(isSubmitting) && SchemaValid(fields, isEmail) ==>
        isSubmitting && status == Idle && errors == {} && pending == fields
    {
      if !isSubmitting {
        var e := FieldErrors(fields, isEmail);
        errors := e;
        if e == {} {
          isSubmitting := true;
          status := Idle;
          pending := fields;
        }
      }
    }

    /** The end of the simulated send: `ok` is whether the awaited step
        resolved. Success resets the form; an error keeps the fields. Either
        way `isSubmitting` is cleared. */
    method Complete(ok: bool)
      requires Valid() && isSubmitting
      modifies this`isSubmitting, this`status, this`fields, this`errors, this`sent
      ensures Valid() && !isSubmitting
      ensures ok ==> status == Success && fields == EmptyForm && errors == {} && sent == old(sent) + [pending]
      ensures !ok ==> status == Error && fields == old(fields) && errors == old(errors) && sent == old(sent)
    {
      if ok {
        sent := sent + [pending];
        status := Success;
        fields, errors := EmptyForm, {};
      } else {
        status := Error;
      }
      isSubmitting := false;
    }

    /** The disabled submit button: disabled exactly while submitting, and then no banner shows. */
    function SubmitDisabled(): (r: bool)
      reads this
      ensures r <==> isSubmitting
      ensures Valid() && r ==> status == Idle && ShownBanners() == Banners(false, false)
    {
      isSubmitting
    }

    /** The line under field `f`: its schema message, exactly when the field has an error. */
    function FieldMessage(f: Field): (m: Option<string>)
      reads this
      ensures m.Some? <==> f in errors
      ensures m.Some? ==> m.value == ErrorMessage(f)
    {
      if f in errors then Some(ErrorMessage(f)) else None
    }

    function ShownBanners(): (b: Banners)
      reads this
      ensures !(b.success && b.error)
      ensures b.success <==> status == Success
      ensures b.error <==> status == Error
      ensures isSubmitting && Valid() ==> !b.success && !b.error
    {
      Banners(status == Success, status == Error)
    }
  }

  /** One submission attempt from a form that is not already submitting. */
  method SubmitOnce(form: ContactForm, isEmail: string -> bool, ok: bool) returns (accepted: bool)
    requires form.Valid() && !form.isSubmitting
    modifies form
    ensures form.Valid() && !form.isSubmitting
    ensures accepted <==> SchemaValid(old(form.fields), isEmail)
    ensures accepted ==> form.status == (if ok then Success else Error)
    ensures !accepted ==> form.status == old(form.status) && form.sent == old(form.sent)
    ensures !accepted ==>
      form.fields == old(form.fields) && form.pending == old(form.pending) && form.errors == FieldErrors(old(form.fields), isEmail)
    ensures accepted ==> form.pending == old(form.fields)
    ensures accepted && ok ==>
      form.sent == old(form.sent) + [old(form.fields)] && form.fields == EmptyForm && form.errors == {}
    ensures accepted && !ok ==> form.sent == old(form.sent) && form.fields == old(form.fields) && form.errors == {}
  {
    form.Submit(isEmail);
    accepted := form.isSubmitting;
    if accepted {
      form.Complete(ok);
    }
  }
}

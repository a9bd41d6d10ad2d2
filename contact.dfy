/**
 * The contact page form (`pages/Contact.jsx`): four text fields, the errors shown
 * under them, and a submit that validates, then clears the form.
 */
module ContactPage {
  import opened Js
  import opened Validators

  datatype Field = Name | Email | Subject | Message

  /** The smallest length, in UTF-16 code units, a message needs once trimmed. */
  const MinMessageLength := 10

  /**
   * `errors` is the object `validateForm` builds for these field values: one
   * message for each failing field, and no other entry.
   */
  predicate ErrorsFor(errors: map<Field, Option<string>>, name: string, email: string, subject: string, message: string)
  {
    (forall f :: f in errors ==> errors[f].Some? && errors[f].value != "")
    && (Name in errors <==> AllWhitespace(name))
    && (Name in errors ==> errors[Name] == Some("Name is required"))
    && (Email in errors <==> AllWhitespace(email) || !EmailPattern(email))
    && (Email in errors && AllWhitespace(email) ==> errors[Email] == Some("Email is required"))
    && (Email in errors && !AllWhitespace(email) ==> errors[Email] == Some("Invalid email format"))
    && (Subject in errors <==> AllWhitespace(subject))
    && (Subject in errors ==> errors[Subject] == Some("Subject is required"))
    && (Message in errors <==> Utf16Length(Trim(message)) < MinMessageLength)
    && (Message in errors && AllWhitespace(message) ==> errors[Message] == Some("Message is required"))
    && (Message in errors && !AllWhitespace(message) ==> errors[Message] == Some("Message must be at least 10 characters"))
  }

  class ContactForm {
    var name: string
    var email: string
    var subject: string
    var message: string
    /** The errors object; `None` is an entry set to `null` when its field was edited. */
    var errors: map<Field, Option<string>>
    var isSubmitting: bool
    var isSubmitted: bool

    /** The value of one field. */
    function Get(f: Field): string
      reads this
    {
      match f
      case Name => name
      case Email => email
      case Subject => subject
      case Message => message
    }

    /** The field shows an error message. */
    predicate ShowsError(f: Field)
      reads this
    {
      f in errors && errors[f].Some? && errors[f].value != ""
    }

    /** The empty form. */
    constructor()
      ensures name == "" && email == "" && subject == "" && message == ""
      ensures errors == map[] && !isSubmitting && !isSubmitted
    {
      name, email, subject, message := "", "", "", "";
      errors := map[];
      isSubmitting, isSubmitted := false, false;
    }

    /** `handleChange(e)`: sets the edited field and clears that field's error only. */
    method HandleChange(f: Field, value: string)
      modifies this
      ensures Get(f) == value
      ensures forall g :: g != f ==> Get(g) == old(Get(g))
      ensures old(ShowsError(f)) ==> errors == old(errors)[f := None]
      ensures !old(ShowsError(f)) ==> errors == old(errors)
      ensures !ShowsError(f)
      ensures forall g :: g != f ==> (ShowsError(g) <==> old(ShowsError(g)))
      ensures isSubmitting == old(isSubmitting) && isSubmitted == old(isSubmitted)
    {
      match f {
        case Name => name := value;
        case Email => email := value;
        case Subject => subject := value;
        case Message => message := value;
      }
      if f in errors && errors[f].Some? && errors[f].value != "" {
        errors := errors[f := None];
      }
    }

    /**
     * `validateForm()`: name and subject must not be blank (`!s.trim()`, which holds
     * exactly when every character is whitespace), the email must be
     * present and match the email pattern, and the message must hold at least ten
     * characters once trimmed.  The errors object is replaced by the new errors.
     */
    method ValidateForm() returns (valid: bool)
      modifies this`errors
      ensures ErrorsFor(errors, name, email, subject, message)
      ensures valid <==> errors == map[]
    {
      BlankIffAllWhitespace(message);
      var newErrors := CollectErrors(AllWhitespace(name), AllWhitespace(email), !EmailPattern(email), AllWhitespace(subject),
                                     AllWhitespace(message), Utf16Length(Trim(message)) < MinMessageLength);
      errors := newErrors;
      valid := |newErrors| == 0;
      assert valid <==> errors == map[] by {
        if |newErrors| == 0 {
          assert newErrors.Keys == {};
        }
      }
    }

    /**
     * `handleSubmit(e)`, with the simulated request completed at once: a valid
     * form is sent and all four fields are reset to ''; an invalid one only shows
     * its errors.  Either way the errors object is the one built for the submitted values.
     */
    method HandleSubmit() returns (sent: bool)
      modifies this
      ensures sent ==> name == "" && email == "" && subject == "" && message == ""
      ensures sent ==> isSubmitted && !isSubmitting
      ensures !sent ==> name == old(name) && email == old(email) && subject == old(subject) && message == old(message)
      ensures !sent ==> isSubmitting == old(isSubmitting) && isSubmitted == old(isSubmitted)
      ensures sent <==> (!AllWhitespace(old(name)) && !AllWhitespace(old(email)) && EmailPattern(old(email))
        && !AllWhitespace(old(subject)) && Utf16Length(Trim(old(message))) >= MinMessageLength)
      ensures ErrorsFor(errors, old(name), old(email), old(subject), old(message))
      ensures sent <==> errors == map[]
    {
      var valid := ValidateForm();
      assert valid <==> (Name !in errors && Email !in errors && Subject !in errors && Message !in errors) by {
        if Name !in errors && Email !in errors && Subject !in errors && Message !in errors {
          assert forall f :: f !in errors by {
            forall f ensures f !in errors {
              match f
              case Name =>
              case Email =>
              case Subject =>
              case Message =>
            }
          }
          assert errors == map[];
        }
      }
      sent := valid;
      if valid {
        isSubmitting := true;
        isSubmitting := false;
        isSubmitted := true;
        name, email, subject, message := "", "", "", "";
      }
    }
  }

  /**
   * The if-chain of `validateForm`, given the outcome of each check: one message
   * per failing field, and for the message field 'required' before 'too short'.
   */
  method CollectErrors(nameBlank: bool, emailBlank: bool, emailMalformed: bool, subjectBlank: bool,
                       messageBlank: bool, messageShort: bool)
    returns (newErrors: map<Field, Option<string>>)
    ensures forall f :: f in newErrors ==> newErrors[f].Some? && newErrors[f].value != ""
    ensures Name in newErrors <==> nameBlank
    ensures Name in newErrors ==> newErrors[Name] == Some("Name is required")
    ensures Email in newErrors <==> emailBlank || emailMalformed
    ensures Email in newErrors && emailBlank ==> newErrors[Email] == Some("Email is required")
    ensures Email in newErrors && !emailBlank ==> newErrors[Email] == Some("Invalid email format")
    ensures Subject in newErrors <==> subjectBlank
    ensures Subject in newErrors ==> newErrors[Subject] == Some("Subject is required")
    ensures Message in newErrors <==> messageBlank || messageShort
    ensures Message in newErrors && messageBlank ==> newErrors[Message] == Some("Message is required")
    ensures Message in newErrors && !messageBlank ==> newErrors[Message] == Some("Message must be at least 10 characters")
  {
    newErrors := map[];
    if nameBlank {
      newErrors := newErrors[Name := Some("Name is required")];
    }
    if emailBlank {
      newErrors := newErrors[Email := Some("Email is required")];
    } else if emailMalformed {
      newErrors := newErrors[Email := Some("Invalid email format")];
    }
    if subjectBlank {
      newErrors := newErrors[Subject := Some("Subject is required")];
    }
    if messageBlank {
      newErrors := newErrors[Message := Some("Message is required")];
    } else if messageShort {
      newErrors := newErrors[Message := Some("Message must be at least 10 characters")];
    }
  }

  /**
   * The page's name, email and subject checks agree with `validateRequired` and
   * `validateEmail`, but its
   * message check trims first, unlike `validateContactForm`: a ten-character
   * message that starts with a space passes the shared validator and fails the page.
   */
  lemma PageAndValidatorChecks(s: string, m: string)
    requires Utf16Length(m) == 10 && IsWhitespace(m[0])
    ensures ValidateRequired(Str(s), "Name").Invalid? <==> IsBlank(s)
    ensures ValidateEmail(s).Invalid? <==> IsBlank(s) || !EmailPattern(s)
    ensures ValidateMinLength(m, 10, "Message").Valid?
    ensures Utf16Length(Trim(m)) < MinMessageLength
  {
    BlankIffAllWhitespace(s);
    EmailPatternIsShape(s);
    TrimDropsLeadingSpace(m);
  }

  /** Trimming a text that starts with whitespace shortens it by at least one code unit. */
  lemma TrimDropsLeadingSpace(m: string)
    requires |m| > 0 && IsWhitespace(m[0])
    ensures Utf16Length(Trim(m)) < Utf16Length(m)
  {
    var k := |m| - |TrimStart(m)|;
    assert k >= 1 by {
      assert TrimStart(m) == TrimStart(m[1..]);
    }
    TrimIsSlice(m);
    Utf16LengthOfSlice(m, k, k + |Trim(m)|);
  }
}

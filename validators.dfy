/**
 * Form validation (`utils/validators.jsx`) and the regular expressions it tests against
 * (`REGEX_PATTERNS` in `utils/constants.jsx`). Each primitive check answers valid or an
 * error message; the two form validators collect one message per failing field.
 */
module Validators {
  import opened Js

  /** `{isValid: true, error: null}` or `{isValid: false, error}` */
  datatype Validation = Valid | Invalid(error: string)

  const DefaultFieldName := "This field"

  // ---------------------------------------------------------------------------
  // The regular expressions
  // ---------------------------------------------------------------------------

  /** `[^\s@]` */
  predicate PlainChar(c: char)
  {
    !IsWhitespace(c) && c != '@'
  }

  /** `[^\s@]+` matches all of `s`. */
  predicate Plain(s: string)
  {
    s != [] && forall k :: 0 <= k < |s| ==> PlainChar(s[k])
  }

  /** The email pattern read literally: one run of plain characters, `@`, a run, `.`, a run. */
  predicate EmailPattern(s: string)
  {
    exists i, j | 0 <= i < j < |s| ::
      s[i] == '@' && s[j] == '.' && Plain(s[..i]) && Plain(s[i + 1..j]) && Plain(s[j + 1..])
  }

  /** No character of `s` is whitespace. */
  predicate NoWhitespace(s: string)
  {
    forall k :: 0 <= k < |s| ==> !IsWhitespace(s[k])
  }

  /** `i` is the only position of `s` that holds an `@`. */
  predicate OnlyAt(s: string, i: int)
  {
    forall k :: 0 <= k < |s| && k != i ==> s[k] != '@'
  }

  /** Some `.` after the `@` at `i` has text on both sides. */
  predicate DotAfter(s: string, i: int)
  {
    exists j | 0 <= j < |s| - 1 && i + 1 < j :: s[j] == '.'
  }

  /**
   * What the email pattern accepts, stated plainly: no whitespace, exactly one `@`, a
   * non-empty part before it, and a `.` after it with non-empty text on both sides.
   */
  predicate EmailShape(s: string)
  {
    NoWhitespace(s) && exists i | 0 < i < |s| :: s[i] == '@' && OnlyAt(s, i) && DotAfter(s, i)
  }

  lemma EmailPatternIsShape(s: string)
    ensures EmailPattern(s) <==> EmailShape(s)
  {
    if EmailPattern(s) {
      var i, j :| 0 <= i < j < |s| && s[i] == '@' && s[j] == '.' && Plain(s[..i]) && Plain(s[i + 1..j]) && Plain(s[j + 1..]);
      MatchHasShape(s, i, j);
    }
    if EmailShape(s) {
      var i :| 0 < i < |s| && s[i] == '@' && OnlyAt(s, i) && DotAfter(s, i);
      var j :| i + 1 < j < |s| - 1 && s[j] == '.';
      ShapeMatches(s, i, j);
    }
  }

  /** A match of the pattern, with its `@` at `i` and its `.` at `j`, has the plain shape. */
  lemma MatchHasShape(s: string, i: int, j: int)
    requires 0 <= i < j < |s| && s[i] == '@' && s[j] == '.'
    requires Plain(s[..i]) && Plain(s[i + 1..j]) && Plain(s[j + 1..])
    ensures EmailShape(s)
  {
    forall k | 0 <= k < |s| && k != i
      ensures PlainChar(s[k]) || k == j
    {
      if k < i {
        assert s[k] == s[..i][k];
      } else if i < k < j {
        assert s[k] == s[i + 1..j][k - i - 1];
      } else if k > j {
        assert s[k] == s[j + 1..][k - j - 1];
      }
    }
    assert s[j] == '.' && !IsWhitespace('.');
    assert DotAfter(s, i);
  }

  /** The plain shape, with its `@` at `i` and a `.` at `j`, is a match of the pattern. */
  lemma ShapeMatches(s: string, i: int, j: int)
    requires 0 < i && i + 1 < j < |s| - 1 && s[i] == '@' && s[j] == '.'
    requires NoWhitespace(s) && OnlyAt(s, i)
    ensures EmailPattern(s)
  {
    assert Plain(s[..i]);
    assert Plain(s[i + 1..j]);
    assert Plain(s[j + 1..]);
  }

  predicate IsLower(c: char) { 'a' <= c <= 'z' }
  predicate IsUpper(c: char) { 'A' <= c <= 'Z' }

  /** The characters `.` does not match. */
  predicate IsLineTerminator(c: char)
  {
    c == '\n' || c == '\r' || c == '\U{2028}' || c == '\U{2029}'
  }

  predicate HasLower(s: string) { exists k | 0 <= k < |s| :: IsLower(s[k]) }
  predicate HasUpper(s: string) { exists k | 0 <= k < |s| :: IsUpper(s[k]) }
  predicate HasDigit(s: string) { exists k | 0 <= k < |s| :: IsDigit(s[k]) }

  /**
   * The password pattern: eight or more UTF-16 code units on one line (without the
   * `u` flag `.` matches one code unit), with a lowercase letter, an uppercase
   * letter and a digit.
   */
  predicate PasswordPattern(s: string)
  {
    Utf16Length(s) >= 8 && (forall k :: 0 <= k < |s| ==> !IsLineTerminator(s[k]))
    && HasLower(s) && HasUpper(s) && HasDigit(s)
  }

  /** `[\d\s\-\+\(\)]` */
  predicate PhoneChar(c: char)
  {
    IsDigit(c) || IsWhitespace(c) || c == '-' || c == '+' || c == '(' || c == ')'
  }

  /** The phone pattern: one or more of digits, whitespace, `-`, `+`, `(` and `)`. */
  predicate PhonePattern(s: string)
  {
    s != [] && forall k :: 0 <= k < |s| ==> PhoneChar(s[k])
  }

  /** The URL pattern: `http://` or `https://` followed by at least one character of the first line. */
  predicate UrlPattern(s: string)
  {
    (|s| > 7 && s[..7] == "http://" && !IsLineTerminator(s[7]))
    || (|s| > 8 && s[..8] == "https://" && !IsLineTerminator(s[8]))
  }

  // ---------------------------------------------------------------------------
  // The primitive validators
  // ---------------------------------------------------------------------------

  /** `!s || s.trim() === ''` for a string (an absent value is the empty string here). */
  predicate Missing(s: string)
  {
    s == "" || IsBlank(s)
  }

  /** `validateEmail(email)` */
  function ValidateEmail(email: string): (r: Validation)
    ensures AllWhitespace(email) ==> r == Invalid("Email is required")
    ensures !AllWhitespace(email) ==> (r.Valid? <==> EmailShape(email))
    ensures !AllWhitespace(email) && !EmailShape(email) ==> r == Invalid("Invalid email format")
  {
    BlankIffAllWhitespace(email);
    EmailPatternIsShape(email);
    if Missing(email) then Invalid("Email is required")
    else if !EmailPattern(email) then Invalid("Invalid email format")
    else Valid
  }

  /** `validatePassword(password)` */
  function ValidatePassword(password: string): (r: Validation)
    ensures AllWhitespace(password) ==> r == Invalid("Password is required")
    ensures !AllWhitespace(password) && Utf16Length(password) < 8 ==> r == Invalid("Password must be at least 8 characters")
    ensures r.Valid? <==> PasswordPattern(password)
    ensures !AllWhitespace(password) && Utf16Length(password) >= 8 && !PasswordPattern(password) ==>
      r == Invalid("Password must contain uppercase, lowercase, and number")
  {
    BlankIffAllWhitespace(password);
    if Missing(password) then Invalid("Password is required")
    else if Utf16Length(password) < 8 then Invalid("Password must be at least 8 characters")
    else if !PasswordPattern(password) then Invalid("Password must contain uppercase, lowercase, and number")
    else Valid
  }

  /** `validateRequired(value, fieldName)`: falsy values and blank strings fail. */
  function ValidateRequired(value: Value, fieldName: string): (r: Validation)
    ensures r.Valid? <==> Truthy(value) && !(value.Str? && AllWhitespace(value.s))
    ensures r.Invalid? ==> r.error == fieldName + " is required"
  {
    if !Truthy(value) then Invalid(fieldName + " is required")
    else if value.Str? then
      BlankIffAllWhitespace(value.s);
      if IsBlank(value.s) then Invalid(fieldName + " is required") else Valid
    else Valid
  }

  /** `validatePhone(phone)` */
  function ValidatePhone(phone: string): (r: Validation)
    ensures AllWhitespace(phone) ==> r == Invalid("Phone number is required")
    ensures !AllWhitespace(phone) ==> (r.Valid? <==> PhonePattern(phone))
    ensures !AllWhitespace(phone) && !PhonePattern(phone) ==> r == Invalid("Invalid phone number format")
  {
    BlankIffAllWhitespace(phone);
    if Missing(phone) then Invalid("Phone number is required")
    else if !PhonePattern(phone) then Invalid("Invalid phone number format")
    else Valid
  }

  /** `validateURL(url)` */
  function ValidateUrl(url: string): (r: Validation)
    ensures AllWhitespace(url) ==> r == Invalid("URL is required")
    ensures r.Valid? <==> UrlPattern(url)
    ensures !AllWhitespace(url) && !UrlPattern(url) ==> r == Invalid("Invalid URL format")
  {
    BlankIffAllWhitespace(url);
    if Missing(url) then Invalid("URL is required")
    else if !UrlPattern(url) then Invalid("Invalid URL format")
    else Valid
  }

  /** `validateMinLength(value, minLength, fieldName)`: the untrimmed length, in UTF-16 code units, counts. */
  function ValidateMinLength(value: string, minLength: int, fieldName: string): (r: Validation)
    ensures value == "" ==> r == Invalid(fieldName + " is required")
    ensures r.Valid? <==> value != "" && Utf16Length(value) >= minLength
    ensures value != "" && Utf16Length(value) < minLength ==>
      r == Invalid(fieldName + " must be at least " + DecimalString(minLength) + " characters")
  {
    if value == "" then Invalid(fieldName + " is required")
    else if Utf16Length(value) < minLength then Invalid(fieldName + " must be at least " + DecimalString(minLength) + " characters")
    else Valid
  }

  /** `validateMaxLength(value, maxLength, fieldName)`: an empty value always passes; the length is in UTF-16 code units. */
  function ValidateMaxLength(value: string, maxLength: int, fieldName: string): (r: Validation)
    ensures r.Valid? <==> Utf16Length(value) <= maxLength || value == ""
    ensures r.Invalid? ==> r.error == fieldName + " must be at most " + DecimalString(maxLength) + " characters"
  {
    if value != "" && Utf16Length(value) > maxLength then
      Invalid(fieldName + " must be at most " + DecimalString(maxLength) + " characters")
    else Valid
  }

  /** `validateRange(value, min, max, fieldName)`: both bounds are inclusive. */
  function ValidateRange(value: string, min: int, max: int, fieldName: string): (r: Validation)
    ensures r.Valid? <==> ParseFloat(value).Dec? && AtMost(FromInt(min), ParseFloat(value)) && AtMost(ParseFloat(value), FromInt(max))
    ensures ParseFloat(value).NaN? ==> r == Invalid(fieldName + " must be a number")
    ensures ParseFloat(value).Dec? && r.Invalid? ==>
      r.error == fieldName + " must be between " + DecimalString(min) + " and " + DecimalString(max)
  {
    var num := ParseFloat(value);
    if num.NaN? then Invalid(fieldName + " must be a number")
    else if Less(num, FromInt(min)) || Less(FromInt(max), num) then
      Invalid(fieldName + " must be between " + DecimalString(min) + " and " + DecimalString(max))
    else Valid
  }

  /**
   * Ten characters below U+10000 pass a minimum of 10 and their first nine do not;
   * the bound is not off by one.
   */
  lemma MinLengthBoundary(value: string)
    requires |value| == 10 && forall k :: 0 <= k < |value| ==> !Astral(value[k])
    ensures ValidateMinLength(value, 10, DefaultFieldName).Valid?
    ensures ValidateMinLength(value[..9], 10, DefaultFieldName).Invalid?
  {
    Utf16LengthOfBasic(value);
    Utf16LengthOfBasic(value[..9]);
  }

  /**
   * Characters beyond U+FFFF count twice towards a length: `Aa1` followed by three
   * such characters is six characters long but passes the eight-unit minimum of
   * `validatePassword`, while six characters below U+10000 fail it.
   */
  lemma PasswordLengthInCodeUnits(basic: string, astral: string)
    requires basic == "Aa1" && |astral| == 3 && forall k :: 0 <= k < 3 ==> Astral(astral[k])
    ensures ValidatePassword(basic + astral).Valid?
    ensures ValidatePassword(basic + "bcd").Invalid?
  {
    var s := basic + astral;
    assert PasswordPattern(s) by {
      Utf16LengthOfBasic(basic);
      Utf16LengthOfAstral(astral);
      Utf16LengthAppend(basic, astral);
      assert IsLower(s[1]) && IsUpper(s[0]) && IsDigit(s[2]);
      forall k | 0 <= k < |s| ensures !IsLineTerminator(s[k]) {
        if k >= 3 { assert s[k] == astral[k - 3]; }
      }
    }
    assert !PasswordPattern(basic + "bcd") by {
      Utf16LengthOfBasic(basic + "bcd");
    }
  }


  // ---------------------------------------------------------------------------
  // The form validators
  // ---------------------------------------------------------------------------

  /** The fields `validateProductForm` reads, each as whatever JavaScript value the form holds. */
  datatype ProductForm = ProductForm(name: Value, category: Value, price: Value, description: string, stock: Value)

  /** `parseFloat(v)`: a number stays itself, a string is parsed, anything else reads as NaN. */
  function ParseFloatValue(v: Value): Number
  {
    match v
    case Num(x) => x
    case Str(s) => ParseFloat(s)
    case _ => NaN
  }

  /** `parseInt(v)`, on the same terms; a number is cut to its whole part toward zero. */
  function ParseIntValue(v: Value): Number
  {
    match v
    case Num(x) => if x.Dec? then FromInt(TruncatedWhole(x)) else NaN
    case Str(s) => ParseInt(s)
    case _ => NaN
  }

  /** The whole part of a decimal, cut toward zero. */
  function TruncatedWhole(x: Number): int
    requires x.Dec?
  {
    if x.mantissa >= 0 then x.mantissa / Pow10(x.scale) else -((-x.mantissa) / Pow10(x.scale))
  }

  /** `!data.price || parseFloat(data.price) <= 0`, as written: NaN is not `<= 0`. */
  predicate PriceRejected(price: Value)
  {
    !Truthy(price) || AtMost(ParseFloatValue(price), FromInt(0))
  }

  /** `data.stock === undefined || parseInt(data.stock) < 0` */
  predicate StockRejected(stock: Value)
  {
    stock.Undefined? || Less(ParseIntValue(stock), FromInt(0))
  }

  /**
   * The field-by-field chain of `validateProductForm`, given the outcome of each
   * check: an entry per failing field, holding that check's message.
   */
  method CollectProductErrors(name: Validation, category: Validation, priceRejected: bool,
                              description: Validation, stockRejected: bool)
    returns (isValid: bool, errors: map<string, string>)
    ensures errors.Keys <= {"name", "category", "price", "description", "stock"}
    ensures "name" in errors <==> name.Invalid?
    ensures "name" in errors ==> errors["name"] == name.error
    ensures "category" in errors <==> category.Invalid?
    ensures "category" in errors ==> errors["category"] == category.error
    ensures "price" in errors <==> priceRejected
    ensures "price" in errors ==> errors["price"] == "Valid price is required"
    ensures "description" in errors <==> description.Invalid?
    ensures "description" in errors ==> errors["description"] == description.error
    ensures "stock" in errors <==> stockRejected
    ensures "stock" in errors ==> errors["stock"] == "Valid stock quantity is required"
    ensures isValid <==> errors == map[]
  {
    errors := map[];
    if name.Invalid? {
      errors := errors["name" := name.error];
    }
    if category.Invalid? {
      errors := errors["category" := category.error];
    }
    if priceRejected {
      errors := errors["price" := "Valid price is required"];
    }
    if description.Invalid? {
      errors := errors["description" := description.error];
    }
    if stockRejected {
      errors := errors["stock" := "Valid stock quantity is required"];
    }
    isValid := |errors| == 0;
    assert isValid <==> errors == map[] by {
      if |errors| == 0 {
        assert errors.Keys == {};
      }
    }
  }

  /** `validateProductForm(data)`: fills the errors object field by field. */
  method ValidateProductForm(data: ProductForm) returns (isValid: bool, errors: map<string, string>)
    ensures errors.Keys <= {"name", "category", "price", "description", "stock"}
    ensures "name" in errors <==> ValidateRequired(data.name, "Product name").Invalid?
    ensures "name" in errors ==> errors["name"] == ValidateRequired(data.name, "Product name").error
    ensures "category" in errors <==> ValidateRequired(data.category, "Category").Invalid?
    ensures "category" in errors ==> errors["category"] == ValidateRequired(data.category, "Category").error
    ensures "price" in errors <==> PriceRejected(data.price)
    ensures "price" in errors ==> errors["price"] == "Valid price is required"
    ensures "description" in errors <==> data.description == "" || Utf16Length(data.description) < 10
    ensures "description" in errors ==> errors["description"] == ValidateMinLength(data.description, 10, "Description").error
    ensures "stock" in errors <==> StockRejected(data.stock)
    ensures "stock" in errors ==> errors["stock"] == "Valid stock quantity is required"
    ensures isValid <==> errors == map[]
  {
    var nameValidation := ValidateRequired(data.name, "Product name");
    var categoryValidation := ValidateRequired(data.category, "Category");
    var descValidation := ValidateMinLength(data.description, 10, "Description");
    isValid, errors := CollectProductErrors(nameValidation, categoryValidation, PriceRejected(data.price),
                                            descValidation, StockRejected(data.stock));
  }

  /** The fields `validateContactForm` reads. */
  datatype ContactForm = ContactForm(name: Value, email: string, subject: Value, message: string)

  /** `validateContactForm(data)`: the message needs 10 characters, counted untrimmed. */
  method ValidateContactForm(data: ContactForm) returns (isValid: bool, errors: map<string, string>)
    ensures errors.Keys <= {"name", "email", "subject", "message"}
    ensures "name" in errors <==> ValidateRequired(data.name, "Name").Invalid?
    ensures "name" in errors ==> errors["name"] == ValidateRequired(data.name, "Name").error
    ensures "email" in errors <==> ValidateEmail(data.email).Invalid?
    ensures "email" in errors ==> errors["email"] == ValidateEmail(data.email).error
    ensures "subject" in errors <==> ValidateRequired(data.subject, "Subject").Invalid?
    ensures "subject" in errors ==> errors["subject"] == ValidateRequired(data.subject, "Subject").error
    ensures "message" in errors <==> data.message == "" || Utf16Length(data.message) < 10
    ensures "message" in errors ==> errors["message"] == ValidateMinLength(data.message, 10, "Message").error
    ensures isValid <==> errors == map[]
  {
    errors := map[];
    var nameValidation := ValidateRequired(data.name, "Name");
    if nameValidation.Invalid? {
      errors := errors["name" := nameValidation.error];
    }
    var emailValidation := ValidateEmail(data.email);
    if emailValidation.Invalid? {
      errors := errors["email" := emailValidation.error];
    }
    var subjectValidation := ValidateRequired(data.subject, "Subject");
    if subjectValidation.Invalid? {
      errors := errors["subject" := subjectValidation.error];
    }
    var messageValidation := ValidateMinLength(data.message, 10, "Message");
    if messageValidation.Invalid? {
      errors := errors["message" := messageValidation.error];
    }
    isValid := |errors| == 0;
    assert isValid <==> errors == map[] by {
      if |errors| == 0 {
        assert errors.Keys == {};
      }
    }
  }
}

/** The checkout form of orders/forms.py: the fields of an order the
    customer fills in, with the phone and address checks the form adds to
    the model's own field rules. */
module OrderForms {
  import opened Wrappers
  import opened Text

  // ---------------------------------------------------------------------
  // Phone: ^(\+7|8|7)\d{10}$

  /** The whole text is "+7", "8" or "7" followed by exactly ten digits. */
  predicate PhoneShape(p: string) {
    || (|p| == 12 && p[0] == '+' && p[1] == '7' && AllDigits(p[2..]))
    || (|p| == 11 && (p[0] == '8' || p[0] == '7') && AllDigits(p[1..]))
  }

  const PhonePrefixes: set<string> := {"+7", "8", "7"}

  /** The pattern read as a grammar: one of the prefixes, then ten digits. */
  lemma PhoneShapeIsPattern(p: string)
    ensures PhoneShape(p) <==> exists i :: 1 <= i <= 2 && |p| == i + 10 && p[..i] in PhonePrefixes && AllDigits(p[i..])
  {
    if PhoneShape(p) {
      if |p| == 12 {
        assert p[..2] == "+7";
        assert p[..2] in PhonePrefixes;
      } else {
        assert p[..1] == [p[0]];
        assert p[..1] in PhonePrefixes;
      }
    }
    if exists i :: 1 <= i <= 2 && |p| == i + 10 && p[..i] in PhonePrefixes && AllDigits(p[i..]) {
      var i :| 1 <= i <= 2 && |p| == i + 10 && p[..i] in PhonePrefixes && AllDigits(p[i..]);
      if i == 1 {
        assert p[..1] == [p[0]];
        assert p[..1] == "8" || p[..1] == "7";
      } else {
        assert p[..2] == [p[0], p[1]];
        assert p[..2] == "+7";
      }
    }
  }

  /** re.match(pattern, phone): the end anchor also matches just before a
      newline that ends the text. */
  predicate PhoneMatches(p: string) {
    PhoneShape(p) || (|p| > 0 && p[|p| - 1] == '\n' && PhoneShape(p[..|p| - 1]))
  }

  /** clean_phone(): the phone unchanged, or a validation error. */
  function CleanPhone(phone: string): (r: Result<string, string>)
    ensures r.Success? <==> PhoneMatches(phone)
    ensures r.Success? ==> r.value == phone
  {
    if PhoneMatches(phone) then Success(phone) else Failure(PhoneError)
  }

  const PhoneError := "Введите корректный номер телефона в формате +7XXXXXXXXXX или 8XXXXXXXXXX"

  /** An accepted phone without a final newline has 11 or 12 characters, and
      with one, 12 or 13. */
  lemma AcceptedPhoneLength(phone: string)
    requires CleanPhone(phone).Success?
    ensures phone == [] || phone[|phone| - 1] != '\n' ==> |phone| == 11 || |phone| == 12
    ensures |phone| == 11 || |phone| == 12 || |phone| == 13
  {
    if !PhoneShape(phone) {
      assert PhoneShape(phone[..|phone| - 1]);
    }
  }

  /** Examples: a number with +7 or 8, accepted; one digit short, refused;
      a number with a final newline, accepted as the end anchor allows. */
  lemma PhoneExamples()
    ensures CleanPhone("+79991234567").Success?
    ensures CleanPhone("89991234567").Success?
    ensures CleanPhone("8999123456").Failure?
    ensures CleanPhone("+79991234567\n").Success?
  {
    assert AllDigits("+79991234567"[2..]);
    assert AllDigits("89991234567"[1..]);
    var n := "+79991234567\n";
    assert n[..|n| - 1] == "+79991234567";
  }

  // ---------------------------------------------------------------------
  // Address

  /** clean_address(): refused when the trimmed text is shorter than five
      characters or made of digits only; returned unchanged otherwise. */
  function CleanAddress(address: string): (r: Result<string, string>)
    ensures r.Success? <==> |Strip(address)| >= 5 && !IsDigitText(Strip(address))
    ensures r.Success? ==> r.value == address
  {
    var trimmed := Strip(address);
    if |trimmed| < 5 || IsDigitText(trimmed) then Failure(AddressError) else Success(address)
  }

  const AddressError := "Введите корректный адрес доставки (не только цифры, минимум 5 символов)"

  /** A house number alone is refused however long it is. */
  lemma DigitsOnlyAddress()
    ensures CleanAddress("1234567").Failure?
  {
    var a := "1234567";
    assert AllDigits(a);
    StripUnpadded(a);
  }

  /** Spaces around an address do not count towards its length. */
  lemma PaddedShortAddress()
    ensures CleanAddress("  ab  ").Failure?
  {
    assert TrimLeft("  ab  ") == "ab  ";
    assert TrimRight("ab  ") == "ab";
  }

  /** An address of five or more characters that neither starts nor ends
      with a space and does not start with a digit passes. */
  lemma UnpaddedAddressAccepted(a: string)
    requires |a| >= 5 && !IsSpace(a[0]) && !IsSpace(a[|a| - 1]) && !IsDigit(a[0])
    ensures CleanAddress(a).Success?
  {
    StripUnpadded(a);
  }

  /** A street and a house number pass. */
  lemma StreetAddress()
    ensures CleanAddress("ул. Ленина, 1").Success?
  {
    var a := "ул. Ленина, 1";
    assert a[0] == 'у' && a[|a| - 1] == '1';
    UnpaddedAddressAccepted(a);
  }

  // ---------------------------------------------------------------------
  // The form as a whole

  /** The fields of Meta.fields, as submitted. */
  datatype OrderForm = OrderForm(
    firstName: string,
    lastName: string,
    email: string,
    phone: string,
    address: string,
    postalCode: string,
    city: string,
    note: string)

  /** A model text field: required unless it may be blank, and at most
      maxLength characters when it has a limit. */
  predicate FieldOk(value: string, required: bool, maxLength: Option<nat>) {
    && (required ==> |value| > 0)
    && (maxLength.Some? ==> |value| <= maxLength.value)
  }

  datatype Field = FirstName | LastName | Email | Phone | Address | PostalCode | City | Note

  /** Whether a field passes: its own rules first, and its clean_<field>
      method only after they pass. Whether an email address is well formed
      is decided by the framework's validator and comes in as emailValid. */
  predicate Passes(f: OrderForm, emailValid: bool, field: Field) {
    match field
    case FirstName => FieldOk(f.firstName, true, Some(50))
    case LastName => FieldOk(f.lastName, true, Some(50))
    case Email => FieldOk(f.email, true, Some(254)) && emailValid
    case Phone => FieldOk(f.phone, true, Some(20)) && CleanPhone(f.phone).Success?
    case Address => FieldOk(f.address, true, Some(250)) && CleanAddress(f.address).Success?
    case PostalCode => FieldOk(f.postalCode, true, Some(20))
    case City => FieldOk(f.city, true, Some(100))
    case Note => FieldOk(f.note, false, None)
  }

  const FormFields: seq<Field> := [FirstName, LastName, Email, Phone, Address, PostalCode, City, Note]

  /** The fields among the given ones that fail, in order. */
  function Failing(f: OrderForm, emailValid: bool, fields: seq<Field>): (r: seq<Field>)
    ensures forall field :: field in r <==> field in fields && !Passes(f, emailValid, field)
  {
    if fields == [] then []
    else
      var rest := Failing(f, emailValid, fields[1..]);
      assert forall field :: field in fields <==> field == fields[0] || field in fields[1..];
      if Passes(f, emailValid, fields[0]) then rest else [fields[0]] + rest
  }

  lemma AllFields()
    ensures forall field: Field :: field in FormFields
  {
    forall field: Field
      ensures field in FormFields
    {
      var k := match field
        case FirstName => 0 case LastName => 1 case Email => 2 case Phone => 3
        case Address => 4 case PostalCode => 5 case City => 6 case Note => 7;
      assert FormFields[k] == field;
    }
  }

  /** form.errors: the fields that fail, in form order. */
  function Errors(f: OrderForm, emailValid: bool): (r: seq<Field>)
    ensures forall field :: field in r <==> !Passes(f, emailValid, field)
  {
    AllFields();
    Failing(f, emailValid, FormFields)
  }

  /** The form is valid exactly when every required field is filled within
      its length, the email is well formed and the phone and address pass
      their checks. */
  lemma ValidExactly(f: OrderForm, emailValid: bool)
    ensures Errors(f, emailValid) == [] <==>
              && 0 < |f.firstName| <= 50 && 0 < |f.lastName| <= 50
              && 0 < |f.email| <= 254 && emailValid
              && 0 < |f.phone| <= 20 && CleanPhone(f.phone).Success?
              && 0 < |f.address| <= 250 && CleanAddress(f.address).Success?
              && 0 < |f.postalCode| <= 20 && 0 < |f.city| <= 100
  {
    var r := Errors(f, emailValid);
    if r != [] {
      assert !Passes(f, emailValid, r[0]);
    }
    if r == [] {
      assert Passes(f, emailValid, FirstName) && Passes(f, emailValid, LastName);
      assert Passes(f, emailValid, Email) && Passes(f, emailValid, Phone);
      assert Passes(f, emailValid, Address) && Passes(f, emailValid, PostalCode);
      assert Passes(f, emailValid, City);
    }
  }

  /** A bad phone or address is reported under its own name, and the note
      never fails. */
  lemma ErrorFields(f: OrderForm, emailValid: bool)
    ensures Phone in Errors(f, emailValid) <==> !(0 < |f.phone| <= 20 && CleanPhone(f.phone).Success?)
    ensures Address in Errors(f, emailValid) <==> !(0 < |f.address| <= 250 && CleanAddress(f.address).Success?)
    ensures Note !in Errors(f, emailValid)
  {
    assert Passes(f, emailValid, Note);
  }

  predicate IsValid(f: OrderForm, emailValid: bool) {
    Errors(f, emailValid) == []
  }
}

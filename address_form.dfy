/**
 * The delivery-address form: three remembered text fields, a phone filter
 * applied on every edit, the `filled` condition and the Continue button that
 * hands the three values on only when the form is filled.
 */
module AddressForm {
  import opened Wrappers
  import opened KotlinText

  const MaxPhoneInput: nat := 10

  /** What a phone field may hold: digits only, at most ten of them. */
  predicate ValidPhone(phone: string) {
    |phone| <= MaxPhoneInput && AllDigits(phone)
  }

  /** `filled`: none of the three fields is blank (empty or whitespace only). */
  predicate Filled(name: string, phone: string, address: string): (r: bool)
    ensures r <==> (exists i :: 0 <= i < |name| && !IsWhitespace(name[i]))
                   && (exists i :: 0 <= i < |phone| && !IsWhitespace(phone[i]))
                   && (exists i :: 0 <= i < |address| && !IsWhitespace(address[i]))
    ensures r ==> name != [] && phone != [] && address != []
  {
    !IsBlank(name) && !IsBlank(phone) && !IsBlank(address)
  }

  /**
   * The phone field after the user types `input`: the edit is accepted only
   * when the raw input has at most ten UTF-16 code units, and then only its
   * digits are kept.
   */
  function PhoneAfterEdit(phone: string, input: string): (r: string)
    ensures ValidPhone(phone) ==> ValidPhone(r)
    ensures Utf16Length(input) > MaxPhoneInput ==> r == phone
    ensures Utf16Length(input) <= MaxPhoneInput ==> r == Digits(input)
  {
    if Utf16Length(input) <= MaxPhoneInput then Digits(input) else phone
  }

  /** An input over ten characters is refused even when it holds ten digits or fewer. */
  lemma LongInputRefused(phone: string)
    ensures PhoneAfterEdit(phone, "123-456-789") == phone
    ensures PhoneAfterEdit(phone, "98765 43210") == phone
  {
  }

  /** An accepted edit drops the separators a user may type. */
  lemma SeparatorsDropped()
    ensures PhoneAfterEdit("", "98-765") == "98765"
  {
    assert Digits("765") == "765";
    assert Digits("-765") == "765";
    assert Digits("8-765") == "8765";
  }

  /**
   * Nine digits and an emoji make ten characters but eleven UTF-16 code
   * units, so the edit is refused.
   */
  lemma SurrogatePairCountsTwice(phone: string)
    ensures PhoneAfterEdit(phone, "123456789\U{1F600}") == phone
  {
    assert "123456789\U{1F600}"[9] >= '\U{10000}';
  }

  /** The three values the Continue button hands on. */
  datatype Recipient = Recipient(name: string, phone: string, address: string)

  class AddressScreen {
    var name: string
    var phone: string
    var address: string

    ghost predicate Valid()
      reads this
    {
      ValidPhone(phone)
    }

    predicate IsFilled(): (r: bool)
      reads this
      ensures r ==> name != [] && phone != [] && address != []
    {
      Filled(name, phone, address)
    }

    /** All three fields start empty, so the form starts not filled. */
    constructor()
      ensures Valid() && name == "" && phone == "" && address == ""
      ensures !IsFilled()
    {
      name, phone, address := "", "", "";
    }

    /** The name field stores what is typed, verbatim. */
    method EditName(input: string)
      requires Valid()
      modifies this`name
      ensures Valid() && name == input
    {
      name := input;
    }

    /** The phone field applies the length check and the digit filter. */
    method EditPhone(input: string)
      requires Valid()
      modifies this`phone
      ensures Valid() && phone == PhoneAfterEdit(old(phone), input)
    {
      if Utf16Length(input) <= MaxPhoneInput {
        phone := Digits(input);
      }
    }

    /** The address field stores what is typed, verbatim. */
    method EditAddress(input: string)
      requires Valid()
      modifies this`address
      ensures Valid() && address == input
    {
      address := input;
    }

    /**
     * The Continue button: `onContinue(name, phone, address)` runs only when
     * the form is filled, with the current values, whose phone is digits only.
     */
    method Continue() returns (submitted: Option<Recipient>)
      requires Valid()
      ensures submitted.Some? <==> IsFilled()
      ensures submitted.Some? ==> submitted.value == Recipient(name, phone, address)
      ensures submitted.Some? ==> ValidPhone(submitted.value.phone) && submitted.value.phone != ""
    {
      if IsFilled() {
        submitted := Some(Recipient(name, phone, address));
      } else {
        submitted := None;
      }
    }
  }

  /**
   * Whitespace-only fields count as blank, the ASCII information separators
   * included: such a form is not filled.
   */
  lemma WhitespaceIsBlank(name: string, phone: string)
    ensures !Filled(name, phone, " \t ")
    ensures !Filled("   ", phone, name)
    ensures !Filled(name, "\U{1C}\U{1F}", name)
  {
    assert IsBlank(" \t ");
    assert IsBlank("   ");
    assert IsBlank("\U{1C}\U{1F}");
  }
}

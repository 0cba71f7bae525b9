/** The CustomerTools methods the agents may call. Each validates its
    arguments and builds a reply string; the three that collect optional
    fields build a list of the fields present, in a fixed order, and join it
    with ", ". Nullable string arguments are `Option<string>`; a null
    argument interpolates as "". The two CustomerTools classes share these
    bodies; they differ only in their method tables. */
module CustomerTools {
  import opened Common
  import opened ToolExtensions

  /** A labelled optional field: the label and the value printed after it. */
  type Field = (string, Option<string>)

  /** The printed form of one field: nothing when its value is blank. */
  function Shown(field: Field): (r: seq<string>)
    ensures |r| == 0 <==> IsNullOrWhiteSpace(field.1)
  {
    if IsNullOrWhiteSpace(field.1) then [] else [field.0 + field.1.value]
  }

  /** Appending a field's printed form when its value is non-blank is
      appending `Shown`. */
  lemma AppendShown(acc: seq<string>, tag: string, value: Option<string>)
    ensures !IsNullOrWhiteSpace(value) ==> acc + [tag + value.value] == acc + Shown((tag, value))
    ensures IsNullOrWhiteSpace(value) ==> acc == acc + Shown((tag, value))
  {
  }

  /** The printed form of the fields with a non-blank value, in order. */
  function Present(fields: seq<Field>): (r: seq<string>)
    ensures |r| <= |fields|
  {
    if |fields| == 0 then [] else Shown(fields[0]) + Present(fields[1..])
  }

  /** Nothing is printed exactly when every field is blank. */
  lemma {:induction false} PresentEmptyIff(fields: seq<Field>)
    ensures |Present(fields)| == 0 <==> forall i :: 0 <= i < |fields| ==> IsNullOrWhiteSpace(fields[i].1)
  {
    if |fields| > 0 {
      PresentEmptyIff(fields[1..]);
      assert forall i :: 1 <= i < |fields| ==> fields[i] == fields[1..][i - 1];
    }
  }

  lemma Present3(a: Field, b: Field, c: Field)
    ensures Present([a, b, c]) == Shown(a) + Shown(b) + Shown(c)
  {
    assert [a, b, c][1..] == [b, c];
    assert [b, c][1..] == [c];
    assert [c][1..] == [];
    assert Present([c]) == Shown(c);
    assert Present([b, c]) == Shown(b) + Shown(c);
  }

  lemma Present4(a: Field, b: Field, c: Field, d: Field)
    ensures Present([a, b, c, d]) == Shown(a) + Shown(b) + Shown(c) + Shown(d)
  {
    assert [a, b, c, d][1..] == [b, c, d];
    Present3(b, c, d);
  }

  lemma Present5(a: Field, b: Field, c: Field, d: Field, e: Field)
    ensures Present([a, b, c, d, e]) == Shown(a) + Shown(b) + Shown(c) + Shown(d) + Shown(e)
  {
    assert [a, b, c, d, e][1..] == [b, c, d, e];
    Present4(b, c, d, e);
  }

  /** Each non-blank field is printed. */
  lemma {:induction false} PresentIncludes(fields: seq<Field>, k: nat)
    requires k < |fields| && !IsNullOrWhiteSpace(fields[k].1)
    ensures exists j :: 0 <= j < |Present(fields)| && Present(fields)[j] == fields[k].0 + fields[k].1.value
  {
    var head := Shown(fields[0]);
    assert Present(fields) == head + Present(fields[1..]);
    if k > 0 {
      assert fields[1..][k - 1] == fields[k];
      PresentIncludes(fields[1..], k - 1);
      var j :| 0 <= j < |Present(fields[1..])| && Present(fields[1..])[j] == fields[k].0 + fields[k].1.value;
      assert Present(fields)[|head| + j] == Present(fields[1..])[j];
    } else {
      assert Present(fields)[0] == fields[0].0 + fields[0].1.value;
    }
  }

  /** With every field given, every field is printed, in the given order. */
  lemma {:induction false} PresentAllGiven(fields: seq<Field>)
    requires forall i :: 0 <= i < |fields| ==> !IsNullOrWhiteSpace(fields[i].1)
    ensures |Present(fields)| == |fields|
    ensures forall i :: 0 <= i < |fields| ==> fields[i].1.Some? && Present(fields)[i] == fields[i].0 + fields[i].1.value
  {
    if |fields| > 0 {
      assert forall i :: 1 <= i < |fields| ==> fields[1..][i - 1] == fields[i];
      PresentAllGiven(fields[1..]);
      assert Present(fields) == [fields[0].0 + fields[0].1.value] + Present(fields[1..]);
    }
  }

  /** The field is printed in the reply: it occurs in the joined list. */
  lemma PresentInJoin(fields: seq<Field>, k: nat)
    requires k < |fields| && !IsNullOrWhiteSpace(fields[k].1)
    ensures Contains(Join(", ", Present(fields)), fields[k].0 + fields[k].1.value)
  {
    PresentIncludes(fields, k);
    var j :| 0 <= j < |Present(fields)| && Present(fields)[j] == fields[k].0 + fields[k].1.value;
    JoinContainsPart(", ", Present(fields), j);
  }

  // ---- EditPersonalInformation -------------------------------------------

  function PersonalFields(firstName: Option<string>, lastName: Option<string>,
                          email: Option<string>, phoneNumber: Option<string>): seq<Field>
  {
    [("First Name: ", firstName), ("Last Name: ", lastName), ("Email: ", email), ("Phone Number: ", phoneNumber)]
  }

  function NoPersonalUpdates(customerId: Option<string>): string
  {
    "No " + "updates provided for customer " + OrEmpty(customerId) + ". Personal information remains unchanged."
  }

  /** The reply of EditPersonalInformation. The customer id is not checked. */
  function PersonalInformationReply(customerId: Option<string>, firstName: Option<string>, lastName: Option<string>,
                                    email: Option<string>, phoneNumber: Option<string>): string
  {
    var updates := Present(PersonalFields(firstName, lastName, email, phoneNumber));
    if |updates| == 0 then NoPersonalUpdates(customerId) else PersonalInformationUpdated(customerId, updates)
  }

  function PersonalInformationUpdated(customerId: Option<string>, updates: seq<string>): string
  {
    "Successfully " + "updated personal information for customer " + OrEmpty(customerId)
    + ". Updated fields: " + Join(", ", updates)
  }

  /** EditPersonalInformation: add each non-blank field to `updates`, then reply. */
  method EditPersonalInformation(customerId: Option<string>, firstName: Option<string>, lastName: Option<string>,
                                 email: Option<string>, phoneNumber: Option<string>) returns (r: string)
    ensures r == PersonalInformationReply(customerId, firstName, lastName, email, phoneNumber)
  {
    var updates: seq<string> := [];
    AppendShown(updates, "First Name: ", firstName);
    if !IsNullOrWhiteSpace(firstName) {
      updates := updates + ["First Name: " + firstName.value];
    }
    assert updates == Shown(("First Name: ", firstName));
    AppendShown(updates, "Last Name: ", lastName);
    if !IsNullOrWhiteSpace(lastName) {
      updates := updates + ["Last Name: " + lastName.value];
    }
    assert updates == Shown(("First Name: ", firstName)) + Shown(("Last Name: ", lastName));
    AppendShown(updates, "Email: ", email);
    if !IsNullOrWhiteSpace(email) {
      updates := updates + ["Email: " + email.value];
    }
    assert updates == Shown(("First Name: ", firstName)) + Shown(("Last Name: ", lastName)) + Shown(("Email: ", email));
    AppendShown(updates, "Phone Number: ", phoneNumber);
    if !IsNullOrWhiteSpace(phoneNumber) {
      updates := updates + ["Phone Number: " + phoneNumber.value];
    }
    assert updates == Shown(("First Name: ", firstName)) + Shown(("Last Name: ", lastName)) + Shown(("Email: ", email)) + Shown(("Phone Number: ", phoneNumber));
    Present4(("First Name: ", firstName), ("Last Name: ", lastName), ("Email: ", email), ("Phone Number: ", phoneNumber));
    assert updates == Present(PersonalFields(firstName, lastName, email, phoneNumber));
    if |updates| == 0 {
      r := NoPersonalUpdates(customerId);
    } else {
      r := PersonalInformationUpdated(customerId, updates);
    }
    PersonalInformationReplyOf(customerId, firstName, lastName, email, phoneNumber, updates);
  }

  lemma PersonalInformationReplyOf(customerId: Option<string>, firstName: Option<string>, lastName: Option<string>,
                                   email: Option<string>, phoneNumber: Option<string>, updates: seq<string>)
    requires updates == Present(PersonalFields(firstName, lastName, email, phoneNumber))
    ensures PersonalInformationReply(customerId, firstName, lastName, email, phoneNumber)
            == if |updates| == 0 then NoPersonalUpdates(customerId) else PersonalInformationUpdated(customerId, updates)
  {
  }

  /** The "unchanged" reply comes exactly when all four fields are blank. */
  lemma PersonalInformationUnchangedIff(customerId: Option<string>, firstName: Option<string>, lastName: Option<string>,
                                        email: Option<string>, phoneNumber: Option<string>)
    ensures PersonalInformationReply(customerId, firstName, lastName, email, phoneNumber) == NoPersonalUpdates(customerId)
            <==> IsNullOrWhiteSpace(firstName) && IsNullOrWhiteSpace(lastName)
                 && IsNullOrWhiteSpace(email) && IsNullOrWhiteSpace(phoneNumber)
  {
    var fields := PersonalFields(firstName, lastName, email, phoneNumber);
    var r := PersonalInformationReply(customerId, firstName, lastName, email, phoneNumber);
    PresentEmptyIff(fields);
    if |Present(fields)| != 0 {
      assert r[0] == 'S' && NoPersonalUpdates(customerId)[0] == 'N';
    } else {
      assert IsNullOrWhiteSpace(fields[0].1) && IsNullOrWhiteSpace(fields[1].1);
      assert IsNullOrWhiteSpace(fields[2].1) && IsNullOrWhiteSpace(fields[3].1);
    }
  }

  /** Every non-blank field is listed with its label. */
  lemma PersonalInformationListsField(customerId: Option<string>, firstName: Option<string>, lastName: Option<string>,
                                      email: Option<string>, phoneNumber: Option<string>, k: nat)
    requires k < 4
    requires !IsNullOrWhiteSpace(PersonalFields(firstName, lastName, email, phoneNumber)[k].1)
    ensures var f := PersonalFields(firstName, lastName, email, phoneNumber)[k];
            Contains(PersonalInformationReply(customerId, firstName, lastName, email, phoneNumber), f.0 + f.1.value)
  {
    var fields := PersonalFields(firstName, lastName, email, phoneNumber);
    PresentInJoin(fields, k);
    var prefix := "Successfully " + "updated personal information for customer " + OrEmpty(customerId) + ". Updated fields: ";
    ContainsWithin(prefix, Join(", ", Present(fields)), "", fields[k].0 + fields[k].1.value);
    assert prefix + Join(", ", Present(fields)) + "" == PersonalInformationReply(customerId, firstName, lastName, email, phoneNumber);
  }

  /** With all four fields given, they are listed in the fixed order
      First Name, Last Name, Email, Phone Number. */
  lemma PersonalInformationOrder(customerId: Option<string>, firstName: string, lastName: string,
                                 email: string, phoneNumber: string)
    requires !IsBlank(firstName) && !IsBlank(lastName) && !IsBlank(email) && !IsBlank(phoneNumber)
    ensures PersonalInformationReply(customerId, Some(firstName), Some(lastName), Some(email), Some(phoneNumber))
            == "Successfully " + "updated personal information for customer " + OrEmpty(customerId) + ". Updated fields: "
               + Join(", ", ["First Name: " + firstName, "Last Name: " + lastName, "Email: " + email,
                             "Phone Number: " + phoneNumber])
  {
    var fields := PersonalFields(Some(firstName), Some(lastName), Some(email), Some(phoneNumber));
    PresentAllGiven(fields);
    assert Present(fields) == ["First Name: " + firstName, "Last Name: " + lastName, "Email: " + email,
                               "Phone Number: " + phoneNumber];
  }

  /** EditPersonalInformation never reports an error, whatever the customer id. */
  lemma PersonalInformationNeverErrors(customerId: Option<string>, firstName: Option<string>, lastName: Option<string>,
                                       email: Option<string>, phoneNumber: Option<string>)
    ensures var r := PersonalInformationReply(customerId, firstName, lastName, email, phoneNumber);
            |r| > 0 && r[0] != 'E'
  {
  }

  // ---- CancelAccount ------------------------------------------------------

  const CancelAccountError: string := "Error: " + "Customer ID is required to cancel an account."

  /** CancelAccount: a blank customer id is an error; otherwise the reply
      names the customer and ends with the reason text. */
  function CancelAccount(customerId: Option<string>, reason: Option<string>): (r: string)
    ensures IsNullOrWhiteSpace(customerId) <==> r == CancelAccountError
    ensures !IsNullOrWhiteSpace(customerId) ==>
              r == "Account " + "for customer " + customerId.value + " has been successfully cancelled. " + ReasonText(reason)
  {
    if IsNullOrWhiteSpace(customerId) then CancelAccountError
    else
      var reply := "Account " + "for customer " + customerId.value + " has been successfully cancelled. " + ReasonText(reason);
      assert reply[0] != CancelAccountError[0];
      reply
  }

  /** The reason sentence: the default when the reason is blank. */
  function ReasonText(reason: Option<string>): (r: string)
    ensures IsNullOrWhiteSpace(reason) ==> r == "No reason provided."
    ensures !IsNullOrWhiteSpace(reason) ==> r == "Reason: " + reason.value
  {
    if IsNullOrWhiteSpace(reason) then "No reason provided." else "Reason: " + reason.value
  }

  // ---- EditAddress --------------------------------------------------------

  const EditAddressError: string := "Error: " + "Customer ID is required to update address."

  function AddressFields(streetAddress: Option<string>, city: Option<string>, state: Option<string>,
                         postalCode: Option<string>, country: Option<string>): seq<Field>
  {
    [("", streetAddress), ("", city), ("", state), ("", postalCode), ("", country)]
  }

  function NoAddressUpdates(customerId: Option<string>): string
  {
    "No " + "address updates provided for customer " + OrEmpty(customerId) + ". Address remains unchanged."
  }

  /** The reply of EditAddress. */
  function AddressReply(customerId: Option<string>, streetAddress: Option<string>, city: Option<string>,
                        state: Option<string>, postalCode: Option<string>, country: Option<string>): string
  {
    if IsNullOrWhiteSpace(customerId) then EditAddressError
    else
      var parts := Present(AddressFields(streetAddress, city, state, postalCode, country));
      if |parts| == 0 then NoAddressUpdates(customerId) else AddressUpdated(customerId.value, parts)
  }

  function AddressUpdated(customerId: string, parts: seq<string>): string
  {
    "Successfully " + "updated address for customer " + customerId + ". New address: " + Join(", ", parts)
  }

  /** EditAddress: check the customer id, then add each non-blank part. */
  method EditAddress(customerId: Option<string>, streetAddress: Option<string>, city: Option<string>,
                     state: Option<string>, postalCode: Option<string>, country: Option<string>) returns (r: string)
    ensures r == AddressReply(customerId, streetAddress, city, state, postalCode, country)
  {
    if IsNullOrWhiteSpace(customerId) {
      return EditAddressError;
    }
    var addressParts: seq<string> := [];
    AppendShown(addressParts, "", streetAddress);
    if !IsNullOrWhiteSpace(streetAddress) {
      assert "" + streetAddress.value == streetAddress.value;
      addressParts := addressParts + [streetAddress.value];
    }
    assert addressParts == Shown(("", streetAddress));
    AppendShown(addressParts, "", city);
    if !IsNullOrWhiteSpace(city) {
      assert "" + city.value == city.value;
      addressParts := addressParts + [city.value];
    }
    assert addressParts == Shown(("", streetAddress)) + Shown(("", city));
    AppendShown(addressParts, "", state);
    if !IsNullOrWhiteSpace(state) {
      assert "" + state.value == state.value;
      addressParts := addressParts + [state.value];
    }
    assert addressParts == Shown(("", streetAddress)) + Shown(("", city)) + Shown(("", state));
    AppendShown(addressParts, "", postalCode);
    if !IsNullOrWhiteSpace(postalCode) {
      assert "" + postalCode.value == postalCode.value;
      addressParts := addressParts + [postalCode.value];
    }
    assert addressParts == Shown(("", streetAddress)) + Shown(("", city)) + Shown(("", state)) + Shown(("", postalCode));
    AppendShown(addressParts, "", country);
    if !IsNullOrWhiteSpace(country) {
      assert "" + country.value == country.value;
      addressParts := addressParts + [country.value];
    }
    assert addressParts == Shown(("", streetAddress)) + Shown(("", city)) + Shown(("", state)) + Shown(("", postalCode)) + Shown(("", country));
    Present5(("", streetAddress), ("", city), ("", state), ("", postalCode), ("", country));
    assert addressParts == Present(AddressFields(streetAddress, city, state, postalCode, country));
    if |addressParts| == 0 {
      r := NoAddressUpdates(customerId);
    } else {
      r := AddressUpdated(customerId.value, addressParts);
    }
  }

  /** EditAddress fails exactly on a blank customer id, before looking at the
      address; with a valid id, "unchanged" comes exactly when every part is
      blank. */
  lemma AddressReplyCases(customerId: Option<string>, streetAddress: Option<string>, city: Option<string>,
                          state: Option<string>, postalCode: Option<string>, country: Option<string>)
    ensures AddressReply(customerId, streetAddress, city, state, postalCode, country) == EditAddressError
            <==> IsNullOrWhiteSpace(customerId)
    ensures !IsNullOrWhiteSpace(customerId) ==>
              (AddressReply(customerId, streetAddress, city, state, postalCode, country) == NoAddressUpdates(customerId)
               <==> forall i :: 0 <= i < 5 ==> IsNullOrWhiteSpace(AddressFields(streetAddress, city, state, postalCode, country)[i].1))
  {
    var r := AddressReply(customerId, streetAddress, city, state, postalCode, country);
    if !IsNullOrWhiteSpace(customerId) {
      assert r[0] != EditAddressError[0];
      var fields := AddressFields(streetAddress, city, state, postalCode, country);
      PresentEmptyIff(fields);
      if |Present(fields)| != 0 {
        assert r[0] == 'S' && NoAddressUpdates(customerId)[0] == 'N';
      }
    }
  }

  /** With a valid id, each non-blank address part occurs in the reply. */
  lemma AddressReplyListsPart(customerId: Option<string>, streetAddress: Option<string>, city: Option<string>,
                              state: Option<string>, postalCode: Option<string>, country: Option<string>, k: nat)
    requires !IsNullOrWhiteSpace(customerId)
    requires k < 5 && !IsNullOrWhiteSpace(AddressFields(streetAddress, city, state, postalCode, country)[k].1)
    ensures Contains(AddressReply(customerId, streetAddress, city, state, postalCode, country),
                     AddressFields(streetAddress, city, state, postalCode, country)[k].1.value)
  {
    var fields := AddressFields(streetAddress, city, state, postalCode, country);
    PresentInJoin(fields, k);
    assert fields[k].0 + fields[k].1.value == fields[k].1.value;
    var prefix := "Successfully " + "updated address for customer " + customerId.value + ". New address: ";
    ContainsWithin(prefix, Join(", ", Present(fields)), "", fields[k].1.value);
    assert prefix + Join(", ", Present(fields)) + "" == AddressReply(customerId, streetAddress, city, state, postalCode, country);
  }

  /** With every part given, the address is street, city, state, postal code,
      country, in that order. */
  lemma AddressOrder(customerId: string, streetAddress: string, city: string, state: string,
                     postalCode: string, country: string)
    requires !IsBlank(customerId)
    requires !IsBlank(streetAddress) && !IsBlank(city) && !IsBlank(state) && !IsBlank(postalCode) && !IsBlank(country)
    ensures AddressReply(Some(customerId), Some(streetAddress), Some(city), Some(state), Some(postalCode), Some(country))
            == "Successfully " + "updated address for customer " + customerId + ". New address: "
               + Join(", ", [streetAddress, city, state, postalCode, country])
  {
    var fields := AddressFields(Some(streetAddress), Some(city), Some(state), Some(postalCode), Some(country));
    PresentAllGiven(fields);
    Present5(fields[0], fields[1], fields[2], fields[3], fields[4]);
    assert forall x: string :: "" + x == x;
    assert Present(fields) == [streetAddress, city, state, postalCode, country];
  }

  // ---- ChangePassword -----------------------------------------------------

  const ChangePasswordIdError: string := "Error: " + "Customer ID is required to change password."
  const ChangePasswordError: string := "Error: " + "New password is required."

  /** ChangePassword: the customer id is checked before the password. */
  function ChangePassword(customerId: Option<string>, newPassword: Option<string>): (r: string)
    ensures IsNullOrWhiteSpace(customerId) ==> r == ChangePasswordIdError
    ensures !IsNullOrWhiteSpace(customerId) && IsNullOrWhiteSpace(newPassword) ==> r == ChangePasswordError
    ensures r != ChangePasswordIdError && r != ChangePasswordError
            ==> !IsNullOrWhiteSpace(customerId) && !IsNullOrWhiteSpace(newPassword)
    ensures !IsNullOrWhiteSpace(customerId) && !IsNullOrWhiteSpace(newPassword) ==>
              r == "Password " + "successfully changed for customer " + customerId.value
                   + ". A confirmation email has been sent."
  {
    if IsNullOrWhiteSpace(customerId) then ChangePasswordIdError
    else if IsNullOrWhiteSpace(newPassword) then ChangePasswordError
    else "Password " + "successfully changed for customer " + customerId.value + ". A confirmation email has been sent."
  }

  /** The password never reaches the reply: any two valid passwords give the
      same text. */
  lemma ChangePasswordHidesPassword(customerId: Option<string>, p1: Option<string>, p2: Option<string>)
    requires !IsNullOrWhiteSpace(p1) && !IsNullOrWhiteSpace(p2)
    ensures ChangePassword(customerId, p1) == ChangePassword(customerId, p2)
  {
  }

  // ---- UpdatePaymentMethod ------------------------------------------------

  const PaymentIdError: string := "Error: " + "Customer ID is required to update payment method."
  const PaymentTypeError: string := "Error: " + "Payment method type is required."

  /** UpdatePaymentMethod: the customer id is checked before the type; the
      details are accepted but never used. */
  function UpdatePaymentMethod(customerId: Option<string>, paymentMethodType: Option<string>,
                               paymentMethodDetails: Option<string>): (r: string)
    ensures IsNullOrWhiteSpace(customerId) ==> r == PaymentIdError
    ensures !IsNullOrWhiteSpace(customerId) && IsNullOrWhiteSpace(paymentMethodType) ==> r == PaymentTypeError
    ensures !IsNullOrWhiteSpace(customerId) && !IsNullOrWhiteSpace(paymentMethodType) ==>
              r == "Payment " + "method successfully updated for customer " + customerId.value
                   + ". Payment method type: " + paymentMethodType.value
  {
    if IsNullOrWhiteSpace(customerId) then PaymentIdError
    else if IsNullOrWhiteSpace(paymentMethodType) then PaymentTypeError
    else "Payment " + "method successfully updated for customer " + customerId.value
         + ". Payment method type: " + paymentMethodType.value
  }

  /** The payment details never reach the reply. */
  lemma UpdatePaymentMethodHidesDetails(customerId: Option<string>, paymentMethodType: Option<string>,
                                        d1: Option<string>, d2: Option<string>)
    ensures UpdatePaymentMethod(customerId, paymentMethodType, d1) == UpdatePaymentMethod(customerId, paymentMethodType, d2)
  {
  }

  // ---- UpdateSubscriptionPreferences --------------------------------------

  const PreferencesError: string := "Error: " + "Customer ID is required to update subscription preferences."

  /** bool.ToString() */
  function BoolText(b: bool): string
  {
    if b then "True" else "False"
  }

  /** A nullable flag as a field value: present exactly when it has a value. */
  function FlagValue(flag: Option<bool>): (r: Option<string>)
    ensures r.Some? <==> flag.Some?
    ensures !IsNullOrWhiteSpace(r) <==> flag.Some?
  {
    if flag.None? then None
    else
      assert !IsWhiteSpace(BoolText(flag.value)[0]);
      Some(BoolText(flag.value))
  }

  function PreferenceFields(emailNotifications: Option<bool>, smsNotifications: Option<bool>,
                            marketingEmails: Option<bool>): seq<Field>
  {
    [("Email Notifications: ", FlagValue(emailNotifications)),
     ("SMS Notifications: ", FlagValue(smsNotifications)),
     ("Marketing Emails: ", FlagValue(marketingEmails))]
  }

  function NoPreferenceUpdates(customerId: Option<string>): string
  {
    "No " + "preference updates provided for customer " + OrEmpty(customerId) + ". Preferences remain unchanged."
  }

  /** The reply of UpdateSubscriptionPreferences. */
  function PreferencesReply(customerId: Option<string>, emailNotifications: Option<bool>,
                            smsNotifications: Option<bool>, marketingEmails: Option<bool>): string
  {
    if IsNullOrWhiteSpace(customerId) then PreferencesError
    else
      var preferences := Present(PreferenceFields(emailNotifications, smsNotifications, marketingEmails));
      if |preferences| == 0 then NoPreferenceUpdates(customerId) else PreferencesUpdated(customerId.value, preferences)
  }

  function PreferencesUpdated(customerId: string, preferences: seq<string>): string
  {
    "Subscription " + "preferences successfully updated for customer " + customerId
    + ". Updated preferences: " + Join(", ", preferences)
  }

  /** UpdateSubscriptionPreferences: check the id, then add each flag that has a value. */
  method UpdateSubscriptionPreferences(customerId: Option<string>, emailNotifications: Option<bool>,
                                       smsNotifications: Option<bool>, marketingEmails: Option<bool>) returns (r: string)
    ensures r == PreferencesReply(customerId, emailNotifications, smsNotifications, marketingEmails)
  {
    if IsNullOrWhiteSpace(customerId) {
      return PreferencesError;
    }
    var preferences: seq<string> := [];
    AppendShown(preferences, "Email Notifications: ", FlagValue(emailNotifications));
    if emailNotifications.Some? {
      preferences := preferences + ["Email Notifications: " + BoolText(emailNotifications.value)];
    }
    assert preferences == Shown(("Email Notifications: ", FlagValue(emailNotifications)));
    AppendShown(preferences, "SMS Notifications: ", FlagValue(smsNotifications));
    if smsNotifications.Some? {
      preferences := preferences + ["SMS Notifications: " + BoolText(smsNotifications.value)];
    }
    assert preferences == Shown(("Email Notifications: ", FlagValue(emailNotifications))) + Shown(("SMS Notifications: ", FlagValue(smsNotifications)));
    AppendShown(preferences, "Marketing Emails: ", FlagValue(marketingEmails));
    if marketingEmails.Some? {
      preferences := preferences + ["Marketing Emails: " + BoolText(marketingEmails.value)];
    }
    assert preferences == Shown(("Email Notifications: ", FlagValue(emailNotifications))) + Shown(("SMS Notifications: ", FlagValue(smsNotifications))) + Shown(("Marketing Emails: ", FlagValue(marketingEmails)));
    Present3(("Email Notifications: ", FlagValue(emailNotifications)),
             ("SMS Notifications: ", FlagValue(smsNotifications)),
             ("Marketing Emails: ", FlagValue(marketingEmails)));
    assert preferences == Present(PreferenceFields(emailNotifications, smsNotifications, marketingEmails));
    if |preferences| == 0 {
      r := NoPreferenceUpdates(customerId);
    } else {
      r := PreferencesUpdated(customerId.value, preferences);
    }
  }

  /** A flag that has a value is listed, even when that value is false. */
  lemma PreferencesListFlag(customerId: Option<string>, emailNotifications: Option<bool>,
                            smsNotifications: Option<bool>, marketingEmails: Option<bool>, k: nat)
    requires !IsNullOrWhiteSpace(customerId)
    requires k < 3 && [emailNotifications, smsNotifications, marketingEmails][k].Some?
    ensures var f := PreferenceFields(emailNotifications, smsNotifications, marketingEmails)[k];
            Contains(PreferencesReply(customerId, emailNotifications, smsNotifications, marketingEmails),
                     f.0 + BoolText([emailNotifications, smsNotifications, marketingEmails][k].value))
  {
    var fields := PreferenceFields(emailNotifications, smsNotifications, marketingEmails);
    assert !IsNullOrWhiteSpace(fields[k].1);
    PresentInJoin(fields, k);
    var prefix := "Subscription " + "preferences successfully updated for customer " + customerId.value
                  + ". Updated preferences: ";
    ContainsWithin(prefix, Join(", ", Present(fields)), "", fields[k].0 + fields[k].1.value);
    assert prefix + Join(", ", Present(fields)) + ""
           == PreferencesReply(customerId, emailNotifications, smsNotifications, marketingEmails);
  }

  /** With a valid id, "unchanged" comes exactly when no flag has a value. */
  lemma PreferencesUnchangedIff(customerId: Option<string>, emailNotifications: Option<bool>,
                                smsNotifications: Option<bool>, marketingEmails: Option<bool>)
    requires !IsNullOrWhiteSpace(customerId)
    ensures PreferencesReply(customerId, emailNotifications, smsNotifications, marketingEmails)
            == NoPreferenceUpdates(customerId)
            <==> emailNotifications.None? && smsNotifications.None? && marketingEmails.None?
  {
    var fields := PreferenceFields(emailNotifications, smsNotifications, marketingEmails);
    var r := PreferencesReply(customerId, emailNotifications, smsNotifications, marketingEmails);
    PresentEmptyIff(fields);
    if |Present(fields)| != 0 {
      assert r[0] == 'S' && NoPreferenceUpdates(customerId)[0] == 'N';
    } else {
      assert IsNullOrWhiteSpace(fields[0].1) && IsNullOrWhiteSpace(fields[1].1) && IsNullOrWhiteSpace(fields[2].1);
    }
  }

  // ---- Method tables ------------------------------------------------------

  /** A public instance method declared on CustomerTools. */
  function ToolMethod(name: string, danger: bool): MethodInfo
  {
    MethodInfo(name, true, false, true, false, danger)
  }

  /** A public method CustomerTools inherits from object. */
  function InheritedMethod(name: string): MethodInfo
  {
    MethodInfo(name, true, false, false, false, false)
  }

  /** The approval sample's CustomerTools, in declaration order:
      CancelAccount and ChangePassword carry [Danger]. */
  const ApprovalCustomerToolsMethods: seq<MethodInfo> := [
    ToolMethod("EditPersonalInformation", false),
    ToolMethod("CancelAccount", true),
    ToolMethod("EditAddress", false),
    ToolMethod("ChangePassword", true),
    ToolMethod("UpdatePaymentMethod", false),
    ToolMethod("UpdateSubscriptionPreferences", false),
    InheritedMethod("ToString"),
    InheritedMethod("GetHashCode")]

  /** The function-tools sample's CustomerTools: no method carries [Danger]. */
  const FunctionCustomerToolsMethods: seq<MethodInfo> := [
    ToolMethod("EditPersonalInformation", false),
    ToolMethod("EditAddress", false),
    ToolMethod("UpdatePaymentMethod", false),
    ToolMethod("UpdateSubscriptionPreferences", false),
    InheritedMethod("ToString"),
    InheritedMethod("GetHashCode")]

  /** The approval sample registers six tools; exactly CancelAccount and
      ChangePassword need approval. */
  lemma ApprovalCustomerToolsList()
    ensures ExpectedTools(ApprovalCustomerToolsMethods) == [
      PlainFunction(AIFunction("EditPersonalInformation")),
      ApprovalRequiredFunction(AIFunction("CancelAccount")),
      PlainFunction(AIFunction("EditAddress")),
      ApprovalRequiredFunction(AIFunction("ChangePassword")),
      PlainFunction(AIFunction("UpdatePaymentMethod")),
      PlainFunction(AIFunction("UpdateSubscriptionPreferences"))]
  {
    var ms := ApprovalCustomerToolsMethods;
    assert ms[1..][1..][1..][1..][1..][1..][1..][1..] == [];
  }

  /** The function-tools sample registers four tools, none needing approval. */
  lemma FunctionCustomerToolsList()
    ensures ExpectedTools(FunctionCustomerToolsMethods) == [
      PlainFunction(AIFunction("EditPersonalInformation")),
      PlainFunction(AIFunction("EditAddress")),
      PlainFunction(AIFunction("UpdatePaymentMethod")),
      PlainFunction(AIFunction("UpdateSubscriptionPreferences"))]
  {
    var ms := FunctionCustomerToolsMethods;
    assert ms[1..][1..][1..][1..][1..][1..] == [];
  }
}

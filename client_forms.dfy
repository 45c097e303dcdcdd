/**
 * The client profile form: the contact person is required for companies.
 * The form's `cleaned_data` and its error list are kept as maps from field
 * names, as the form holds them.
 */
module ClientProfileForms {

  /** The stored value of `Client.ClientType.COMPANY`. */
  const COMPANY: string := "COMPANY"

  const ContactPersonField: string := "contact_person"
  const ClientTypeField: string := "client_type"
  const ContactPersonMessage: string := "Contact person is required for companies"

  /** A cleaned form value: a text or None. */
  datatype Value = Text(s: string) | Null

  /** The client record the form edits: its key (0 when new) and its stored type. */
  datatype ClientInstance = ClientInstance(pk: nat, clientType: string)

  /** Python truthiness of a cleaned text value: None and "" are false. */
  predicate Falsy(v: Value)
  {
    v == Null || v == Text("")
  }

  /**
   * What `clean` checks, with `cleaned_data.get` semantics: the type is
   * COMPANY and the contact person is missing, None or empty.
   */
  predicate NeedsContactPerson(cleaned: map<string, Value>)
  {
    ClientTypeField in cleaned && cleaned[ClientTypeField] == Text(COMPANY)
    && (ContactPersonField !in cleaned || Falsy(cleaned[ContactPersonField]))
  }

  /** The error list with `message` appended to the errors of `field`. */
  function AppendError(errors: map<string, seq<string>>, field: string, message: string): (r: map<string, seq<string>>)
    ensures r.Keys == errors.Keys + {field}
    ensures field in errors ==> r[field] == errors[field] + [message]
    ensures field !in errors ==> r[field] == [message]
    ensures forall f :: f in errors && f != field ==> r[f] == errors[f]
  {
    errors[field := (if field in errors then errors[field] else []) + [message]]
  }

  /** COMPANY with a missing or empty contact person needs one; anything else does not. */
  lemma NeedsContactPersonCases(cleaned: map<string, Value>, person: string, kind: string)
    ensures NeedsContactPerson(cleaned[ClientTypeField := Text(COMPANY)][ContactPersonField := Text("")])
    ensures NeedsContactPerson(cleaned[ClientTypeField := Text(COMPANY)][ContactPersonField := Null])
    ensures NeedsContactPerson(cleaned[ClientTypeField := Text(COMPANY)] - {ContactPersonField})
    ensures person != "" ==> !NeedsContactPerson(cleaned[ClientTypeField := Text(COMPANY)][ContactPersonField := Text(person)])
    ensures kind != COMPANY ==> !NeedsContactPerson(cleaned[ClientTypeField := Text(kind)])
    ensures !NeedsContactPerson(cleaned - {ClientTypeField})
  {
  }

  class ClientForm {
    const instance: ClientInstance
    var contactPersonRequired: bool
    var cleanedData: map<string, Value>
    var errors: map<string, seq<string>>

    /**
     * `__init__`: the contact person is optional, except on a form for a
     * stored client whose type is COMPANY.
     */
    constructor (instance: ClientInstance)
      ensures this.instance == instance
      ensures contactPersonRequired <==> instance.pk != 0 && instance.clientType == COMPANY
      ensures cleanedData == map[] && errors == map[]
    {
      this.instance := instance;
      contactPersonRequired := false;
      cleanedData := map[];
      errors := map[];
      if instance.pk != 0 {
        if instance.clientType == COMPANY {
          contactPersonRequired := true;
        }
      }
    }

    /** The form's `add_error`: record the message and drop the field from `cleaned_data`. */
    method AddError(field: string, message: string)
      modifies this
      ensures errors == AppendError(old(errors), field, message)
      ensures cleanedData == old(cleanedData) - {field}
      ensures contactPersonRequired == old(contactPersonRequired)
    {
      errors := AppendError(errors, field, message);
      cleanedData := cleanedData - {field};
    }

    /**
     * `clean`: a company without a contact person gets one error, on the
     * contact person; the cleaned data are returned.
     */
    method Clean() returns (cleaned: map<string, Value>)
      modifies this
      ensures NeedsContactPerson(old(cleanedData)) ==>
        errors == AppendError(old(errors), ContactPersonField, ContactPersonMessage)
        && cleanedData == old(cleanedData) - {ContactPersonField}
      ensures !NeedsContactPerson(old(cleanedData)) ==> errors == old(errors) && cleanedData == old(cleanedData)
      ensures forall f :: f in old(cleanedData) && f != ContactPersonField ==> f in cleaned && cleaned[f] == old(cleanedData)[f]
      ensures cleaned == cleanedData
      ensures contactPersonRequired == old(contactPersonRequired)
    {
      cleaned := cleanedData;
      var clientType := if ClientTypeField in cleaned then cleaned[ClientTypeField] else Null;
      var contactPerson := if ContactPersonField in cleaned then cleaned[ContactPersonField] else Null;
      if clientType == Text(COMPANY) && Falsy(contactPerson) {
        AddError(ContactPersonField, ContactPersonMessage);
      }
      cleaned := cleanedData;
    }
  }
}

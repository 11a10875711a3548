/** The email-confirmation page: the request it sends and how its callback
    turns the server's answer into either a success notice and navigation,
    or the form's field-error map. */
module ConfirmEmailPage {
  import opened Common

  /** One entry of the server's `validationErrors` list. */
  datatype FieldError = FieldError(field: string, messages: seq<string>)

  /** A value stored in the form's error map: the messages joined into one
      string, or the messages array stored as it came. */
  datatype ErrorValue = Joined(text: string) | Unjoined(messages: seq<string>)

  const EmailKey: string := "email"
  /** The property key JavaScript derives from a plain object used as a key. */
  const ObjectKey: string := "[object Object]"
  const AllFields: string := "__all__"

  function TotalLength(parts: seq<string>): nat {
    if parts == [] then 0 else TotalLength(parts[..|parts| - 1]) + |parts[|parts| - 1]|
  }

  /** `Array.prototype.join`: the parts with `sep` between neighbours. */
  function Join(parts: seq<string>, sep: string): (r: string)
    ensures |r| == TotalLength(parts) + (if parts == [] then 0 else (|parts| - 1) * |sep|)
    ensures |parts| == 1 ==> r == parts[0]
  {
    if parts == [] then ""
    else if |parts| == 1 then parts[0]
    else Join(parts[..|parts| - 1], sep) + sep + parts[|parts| - 1]
  }

  /** The key an entry is stored under: "__all__" and "email" both go to
      "email"; any other entry is stored under the entry object itself,
      which JavaScript coerces to "[object Object]". */
  function KeyOf(e: FieldError): (k: string)
    ensures k == EmailKey <==> e.field in {AllFields, EmailKey}
    ensures k == ObjectKey <==> e.field !in {AllFields, EmailKey}
  {
    if e.field == AllFields then EmailKey
    else if e.field == EmailKey then EmailKey
    else ObjectKey
  }

  /** The value an entry stores: its messages joined with one space under
      "email", the bare messages array otherwise. */
  function ValueOf(e: FieldError): ErrorValue {
    if e.field == AllFields then Joined(Join(e.messages, " "))
    else if e.field == EmailKey then Joined(Join(e.messages, " "))
    else Unjoined(e.messages)
  }

  /** The error map after the entries have been written in list order,
      starting from the empty object. */
  function ErrorMap(entries: seq<FieldError>): map<string, ErrorValue> {
    if entries == [] then map[]
    else
      var last := entries[|entries| - 1];
      ErrorMap(entries[..|entries| - 1])[KeyOf(last) := ValueOf(last)]
  }

  /** The `.map` callback run over `validationErrors`, writing into the
      `errors` object entry by entry. */
  method BuildErrors(validationErrors: seq<FieldError>) returns (errors: map<string, ErrorValue>)
    ensures errors == ErrorMap(validationErrors)
  {
    errors := map[];
    var i := 0;
    while i < |validationErrors|
      invariant 0 <= i <= |validationErrors|
      invariant errors == ErrorMap(validationErrors[..i])
    {
      var error := validationErrors[i];
      if error.field == AllFields {
        errors := errors[EmailKey := Joined(Join(error.messages, " "))];
      } else if error.field == EmailKey {
        errors := errors[EmailKey := Joined(Join(error.messages, " "))];
      } else {
        errors := errors[ObjectKey := Unjoined(error.messages)];
      }
      assert validationErrors[..i + 1][..i] == validationErrors[..i];
      i := i + 1;
    }
    assert validationErrors[..i] == validationErrors;
  }

  /** A key is present exactly when some entry is stored under it. */
  lemma {:induction false} KeyPresent(entries: seq<FieldError>, k: string)
    ensures k in ErrorMap(entries) <==> exists i :: 0 <= i < |entries| && KeyOf(entries[i]) == k
  {
    if entries != [] {
      var n := |entries| - 1;
      var earlier := entries[..n];
      KeyPresent(earlier, k);
      if k in ErrorMap(earlier) {
        var i :| 0 <= i < |earlier| && KeyOf(earlier[i]) == k;
        assert entries[i] == earlier[i];
      }
      if exists i :: 0 <= i < |entries| && KeyOf(entries[i]) == k {
        var i :| 0 <= i < |entries| && KeyOf(entries[i]) == k;
        if i < n {
          assert earlier[i] == entries[i];
        }
      }
    }
  }

  /** Last write wins: the key of an entry that no later entry shares
      holds that entry's value. */
  lemma {:induction false} LastWins(entries: seq<FieldError>, i: nat)
    requires i < |entries|
    requires forall j :: i < j < |entries| ==> KeyOf(entries[j]) != KeyOf(entries[i])
    ensures KeyOf(entries[i]) in ErrorMap(entries)
    ensures ErrorMap(entries)[KeyOf(entries[i])] == ValueOf(entries[i])
  {
    var n := |entries| - 1;
    if i < n {
      var earlier := entries[..n];
      assert earlier[i] == entries[i];
      forall j | i < j < |earlier|
        ensures KeyOf(earlier[j]) != KeyOf(earlier[i])
      {
        assert earlier[j] == entries[j];
      }
      LastWins(earlier, i);
    }
  }

  /** The map only ever has the keys "email" and "[object Object]", so an
      error for any other field is never filed under its own name. */
  lemma {:induction false} OnlyTwoKeys(entries: seq<FieldError>)
    ensures ErrorMap(entries).Keys <= {EmailKey, ObjectKey}
    ensures forall i :: 0 <= i < |entries| && entries[i].field !in {AllFields, EmailKey, ObjectKey} ==>
              entries[i].field !in ErrorMap(entries)
  {
    if entries != [] {
      OnlyTwoKeys(entries[..|entries| - 1]);
    }
  }

  /** The last entry for "__all__" or "email" sets "email" to its messages
      joined with a single space. */
  lemma EmailMessagesJoined(entries: seq<FieldError>, i: nat)
    requires i < |entries| && entries[i].field in {AllFields, EmailKey}
    requires forall j :: i < j < |entries| ==> entries[j].field !in {AllFields, EmailKey}
    ensures EmailKey in ErrorMap(entries)
    ensures ErrorMap(entries)[EmailKey] == Joined(Join(entries[i].messages, " "))
  {
    forall j | i < j < |entries| ensures KeyOf(entries[j]) != KeyOf(entries[i]) { }
    LastWins(entries, i);
  }

  /** The last entry for any other field stores its messages, unjoined,
      under "[object Object]". */
  lemma OtherMessagesUnjoined(entries: seq<FieldError>, i: nat)
    requires i < |entries| && entries[i].field !in {AllFields, EmailKey}
    requires forall j :: i < j < |entries| ==> entries[j].field in {AllFields, EmailKey}
    ensures ObjectKey in ErrorMap(entries)
    ensures ErrorMap(entries)[ObjectKey] == Unjoined(entries[i].messages)
  {
    forall j | i < j < |entries| ensures KeyOf(entries[j]) != KeyOf(entries[i]) {
      assert KeyOf(entries[j]) == EmailKey;
    }
    LastWins(entries, i);
  }

  /** The variables of the confirmEmail mutation: only the form's `email`
      value (None when the form has none). */
  datatype ConfirmVariables = ConfirmVariables(email: Option<string>)

  function ConfirmRequest(values: map<string, string>): (r: ConfirmVariables)
    ensures r.email.Some? <==> EmailKey in values
    ensures r.email.Some? ==> r.email.value == values[EmailKey]
  {
    if EmailKey in values then ConfirmVariables(Some(values[EmailKey])) else ConfirmVariables(None)
  }

  /** The `error` of the mutation's answer: a ValidationErrors value with
      its list, or an error of another type, whose `validationErrors` the
      query does not select. */
  datatype ConfirmError = ValidationErrors(validationErrors: seq<FieldError>) | OtherError(typename: string)

  datatype ConfirmResult = ConfirmResult(error: Option<ConfirmError>)

  /** The callback's observable effects, in order. */
  datatype Effect = Alert(message: string) | Navigate(path: string) | SetErrors(errors: map<string, ErrorValue>)

  const CheckEmailNotice: string := "Check your email, please!"

  /** The `.then` callback of the confirmEmail mutation; it is Rejected by
      the TypeError of calling `.map` on an undefined list. `dashboard` is the
      DASHBOARD route constant. */
  method OnConfirmResult(result: ConfirmResult, dashboard: string) returns (effects: seq<Effect>, completion: Completion)
    ensures result.error.None? ==> effects == [Alert(CheckEmailNotice), Navigate(dashboard)] && completion == Resolved
    ensures result.error.Some? && result.error.value.ValidationErrors? ==>
      effects == [SetErrors(ErrorMap(result.error.value.validationErrors))] && completion == Resolved
    ensures result.error.Some? && result.error.value.OtherError? ==> effects == [] && completion == Rejected
  {
    match result.error
    case None =>
      effects := [Alert(CheckEmailNotice), Navigate(dashboard)];
      completion := Resolved;
    case Some(ValidationErrors(list)) =>
      var errors := BuildErrors(list);
      effects := [SetErrors(errors)];
      completion := Resolved;
    case Some(OtherError(_)) =>
      effects := [];
      completion := Rejected;
  }
}

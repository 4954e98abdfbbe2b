/**
 * Validation of the body of a create-comment request: the field constraints
 * declared on CreateCommentDto together with the global ValidationPipe options
 * `whitelist` and `forbidNonWhitelisted`, written as one explicit function from
 * the raw body to either the validated DTO or the list of per-field errors.
 */
module Validation {
  import opened Wrappers

  /** A JSON value as it can appear in a request body (numbers are integers here). */
  datatype Json =
    | JString(s: string)
    | JNumber(n: int)
    | JBool(b: bool)
    | JNull
    | JArray(elems: seq<Json>)
    | JObject(members: seq<(string, Json)>)

  /** A list of properties with their values, in order. */
  type Properties = seq<(string, Json)>

  /** No property name occurs twice. */
  predicate DistinctKeys(props: Properties) {
    forall i, j :: 0 <= i < j < |props| ==> props[i].0 != props[j].0
  }

  /** The body of a request: the parsed object's own properties, in order, each name once. */
  type Body = props: Properties | DistinctKeys(props)

  /** The class-validator constraint a field error comes from. */
  datatype Constraint = IsNotEmpty | IsString | MaxLength(max: nat) | Whitelist

  /** One failed constraint on one property, with the text reported to the client. */
  datatype FieldError = FieldError(property: string, constraint: Constraint, text: string)

  /** The constraints and messages declared for one DTO property. */
  datatype FieldRules = FieldRules(property: string, max: nat, required: string, notString: string, tooLong: string)

  const NameRules := FieldRules("name", 100, "Name is required", "Name must be a string",
                                "Name must not exceed 100 characters")
  const MessageRules := FieldRules("message", 500, "Message is required", "Message must be a string",
                                   "Message must not exceed 500 characters")

  /** The validated DTO handed to the service. */
  datatype CreateCommentDto = CreateCommentDto(name: string, message: string)

  /** The value of property `key`, or None when the body has no such property (undefined). */
  function Lookup(body: Properties, key: string): (r: Option<Json>)
    ensures r.Some? <==> exists i :: 0 <= i < |body| && body[i].0 == key
    ensures r.Some? ==> exists i :: 0 <= i < |body| && body[i] == (key, r.value)
  {
    if body == [] then None
    else if body[0].0 == key then Some(body[0].1)
    else
      var r := Lookup(body[1..], key);
      assert forall i :: 0 < i < |body| ==> body[i] == body[1..][i - 1];
      r
  }

  /** Properties the DTO declares; only these survive the whitelist. */
  predicate Whitelisted(key: string) {
    key == NameRules.property || key == MessageRules.property
  }

  /** class-validator's isNotEmpty: the value is not '', null or undefined. */
  predicate NotEmpty(v: Option<Json>) {
    v != None && v != Some(JNull) && v != Some(JString(""))
  }

  /** class-validator's isString. */
  predicate IsStringValue(v: Option<Json>) {
    v.Some? && v.value.JString?
  }

  /** class-validator's maxLength: a string whose length is at most `max`. */
  predicate WithinMaxLength(v: Option<Json>, max: nat) {
    IsStringValue(v) && |v.value.s| <= max
  }

  /** The errors the three declared constraints report for one property's value. */
  function CheckField(rules: FieldRules, v: Option<Json>): (errs: seq<FieldError>)
    ensures |errs| <= 3
    ensures forall e :: e in errs ==> e.property == rules.property && e.constraint != Whitelist
  {
    (if NotEmpty(v) then [] else [FieldError(rules.property, IsNotEmpty, rules.required)]) +
    (if IsStringValue(v) then [] else [FieldError(rules.property, IsString, rules.notString)]) +
    (if WithinMaxLength(v, rules.max) then [] else [FieldError(rules.property, MaxLength(rules.max), rules.tooLong)])
  }

  /** The text the whitelist check reports for a property the DTO does not declare. */
  function ShouldNotExist(key: string): string {
    "property " + key + " should not exist"
  }

  /** One whitelist error per property of the body that the DTO does not declare, in order. */
  function UnknownPropertyErrors(body: Properties): (errs: seq<FieldError>)
    ensures forall e :: e in errs ==> e.constraint == Whitelist && !Whitelisted(e.property)
  {
    if body == [] then []
    else
      var rest := UnknownPropertyErrors(body[1..]);
      if Whitelisted(body[0].0) then rest
      else [FieldError(body[0].0, Whitelist, ShouldNotExist(body[0].0))] + rest
  }

  /** All errors for a body: unknown properties first, then `name`, then `message`. */
  function Errors(body: Properties): (errs: seq<FieldError>)
    ensures forall e :: e in errs ==> (e.constraint == Whitelist <==> !Whitelisted(e.property))
  {
    UnknownPropertyErrors(body) +
    (CheckField(NameRules, Lookup(body, NameRules.property)) +
     CheckField(MessageRules, Lookup(body, MessageRules.property)))
  }

  /** The ValidationPipe: the DTO when no constraint fails, otherwise every failure. */
  function Validate(body: Body): (r: Result<CreateCommentDto, seq<FieldError>>)
    ensures r.Err? ==> r.error != []
    ensures r.Ok? ==>
      Lookup(body, "name") == Some(JString(r.value.name)) &&
      Lookup(body, "message") == Some(JString(r.value.message))
  {
    var errs := Errors(body);
    if errs != [] then Err(errs)
    else
      var name := Lookup(body, NameRules.property);
      var message := Lookup(body, MessageRules.property);
      assert IsStringValue(name) && IsStringValue(message) by {
        assert CheckField(NameRules, name) == [] && CheckField(MessageRules, message) == [];
      }
      Ok(CreateCommentDto(name.value.s, message.value.s))
  }

  /** The errors among `errs` that concern `property`. */
  function ErrorsFor(errs: seq<FieldError>, property: string): (r: seq<FieldError>)
    ensures forall e :: e in r ==> e in errs && e.property == property
    ensures forall e :: e in errs && e.property == property ==> e in r
  {
    if errs == [] then []
    else if errs[0].property == property then [errs[0]] + ErrorsFor(errs[1..], property)
    else ErrorsFor(errs[1..], property)
  }

  /** A string value of `rules`' property that satisfies all its declared constraints. */
  predicate Acceptable(rules: FieldRules, v: Option<Json>) {
    v.Some? && v.value.JString? && v.value.s != "" && |v.value.s| <= rules.max
  }

  lemma CheckFieldEmptyIff(rules: FieldRules, v: Option<Json>)
    ensures CheckField(rules, v) == [] <==> Acceptable(rules, v)
  {
  }

  lemma {:induction false} UnknownPropertyErrorsEmptyIff(body: Properties)
    ensures UnknownPropertyErrors(body) == [] <==> forall i :: 0 <= i < |body| ==> Whitelisted(body[i].0)
  {
    if body != [] {
      UnknownPropertyErrorsEmptyIff(body[1..]);
      assert forall i :: 0 < i < |body| ==> body[i] == body[1..][i - 1];
    }
  }

  /**
   * A body is accepted exactly when every property is declared and both `name`
   * and `message` are non-empty strings within their bounds; the DTO then
   * carries those strings unchanged (no trimming on the server).
   */
  lemma ValidateAcceptsExactly(body: Body)
    ensures Validate(body).Ok? <==>
      (forall i :: 0 <= i < |body| ==> Whitelisted(body[i].0)) &&
      Acceptable(NameRules, Lookup(body, "name")) &&
      Acceptable(MessageRules, Lookup(body, "message"))
    ensures Validate(body).Ok? ==>
      Some(JString(Validate(body).value.name)) == Lookup(body, "name") &&
      Some(JString(Validate(body).value.message)) == Lookup(body, "message")
  {
    UnknownPropertyErrorsEmptyIff(body);
    CheckFieldEmptyIff(NameRules, Lookup(body, "name"));
    CheckFieldEmptyIff(MessageRules, Lookup(body, "message"));
  }

  lemma {:induction false} UnknownErrorFor(body: Properties, i: nat)
    requires i < |body| && !Whitelisted(body[i].0)
    ensures FieldError(body[i].0, Whitelist, ShouldNotExist(body[i].0)) in UnknownPropertyErrors(body)
  {
    if i > 0 {
      assert body[i] == body[1..][i - 1];
      UnknownErrorFor(body[1..], i - 1);
    }
  }

  /** A property the DTO does not declare is reported, not silently dropped. */
  lemma UnknownPropertyRejected(body: Body, i: nat)
    requires i < |body| && !Whitelisted(body[i].0)
    ensures Validate(body).Err?
    ensures FieldError(body[i].0, Whitelist, "property " + body[i].0 + " should not exist") in Validate(body).error
  {
    UnknownErrorFor(body, i);
  }

  lemma {:induction false} ErrorsForAppend(a: seq<FieldError>, b: seq<FieldError>, property: string)
    ensures ErrorsFor(a + b, property) == ErrorsFor(a, property) + ErrorsFor(b, property)
  {
    if a == [] {
      assert a + b == b;
    } else {
      assert (a + b)[0] == a[0];
      assert (a + b)[1..] == a[1..] + b;
      ErrorsForAppend(a[1..], b, property);
    }
  }

  lemma {:induction false} ErrorsForUniform(errs: seq<FieldError>, property: string)
    requires forall e :: e in errs ==> e.property == property
    ensures ErrorsFor(errs, property) == errs
  {
    if errs != [] {
      assert errs[0] in errs;
      assert forall e :: e in errs[1..] ==> e in errs;
      ErrorsForUniform(errs[1..], property);
    }
  }

  lemma {:induction false} ErrorsForNone(errs: seq<FieldError>, property: string)
    requires forall e :: e in errs ==> e.property != property
    ensures ErrorsFor(errs, property) == []
  {
    if errs != [] {
      assert errs[0] in errs;
      assert forall e :: e in errs[1..] ==> e in errs;
      ErrorsForNone(errs[1..], property);
    }
  }

  /**
   * The two fields are checked independently: the errors reported for `name`
   * are exactly those of its own constraints, whatever `message` and any other
   * property hold, and likewise for `message`.
   */
  lemma FieldsCheckedIndependently(body: Body)
    ensures ErrorsFor(Errors(body), "name") == CheckField(NameRules, Lookup(body, "name"))
    ensures ErrorsFor(Errors(body), "message") == CheckField(MessageRules, Lookup(body, "message"))
  {
    var u := UnknownPropertyErrors(body);
    var n := CheckField(NameRules, Lookup(body, "name"));
    var m := CheckField(MessageRules, Lookup(body, "message"));
    OneFieldSelected(u, n, m, "name");
    OneFieldSelected(u, n, m, "message");
  }

  lemma OneFieldSelected(u: seq<FieldError>, n: seq<FieldError>, m: seq<FieldError>, property: string)
    requires property == "name" || property == "message"
    requires forall e :: e in u ==> !Whitelisted(e.property)
    requires forall e :: e in n ==> e.property == "name"
    requires forall e :: e in m ==> e.property == "message"
    ensures ErrorsFor(u + (n + m), property) == if property == "name" then n else m
  {
    ErrorsForAppend(u, n + m, property);
    ErrorsForAppend(n, m, property);
    ErrorsForNone(u, property);
    if property == "name" {
      ErrorsForUniform(n, property);
      ErrorsForNone(m, property);
    } else {
      ErrorsForNone(n, property);
      ErrorsForUniform(m, property);
    }
  }

  /** An input bad in both fields yields errors for both fields. */
  lemma BothFieldsReported(body: Body)
    requires !Acceptable(NameRules, Lookup(body, "name"))
    requires !Acceptable(MessageRules, Lookup(body, "message"))
    ensures Validate(body).Err?
    ensures exists e :: e in Validate(body).error && e.property == "name"
    ensures exists e :: e in Validate(body).error && e.property == "message"
  {
    FieldsCheckedIndependently(body);
    CheckFieldEmptyIff(NameRules, Lookup(body, "name"));
    CheckFieldEmptyIff(MessageRules, Lookup(body, "message"));
    var n := ErrorsFor(Errors(body), "name");
    var m := ErrorsFor(Errors(body), "message");
    assert n[0] in n && m[0] in m;
  }

  /** An empty `name` is reported as required, and only as required. */
  lemma EmptyNameRequired(body: Body)
    requires Lookup(body, "name") == Some(JString(""))
    ensures Validate(body).Err?
    ensures FieldError("name", IsNotEmpty, "Name is required") in Validate(body).error
    ensures ErrorsFor(Validate(body).error, "name") == [FieldError("name", IsNotEmpty, "Name is required")]
  {
    FieldsCheckedIndependently(body);
  }

  /** An empty `message` is reported as required, and only as required. */
  lemma EmptyMessageRequired(body: Body)
    requires Lookup(body, "message") == Some(JString(""))
    ensures Validate(body).Err?
    ensures FieldError("message", IsNotEmpty, "Message is required") in Validate(body).error
    ensures ErrorsFor(Validate(body).error, "message") == [FieldError("message", IsNotEmpty, "Message is required")]
  {
    FieldsCheckedIndependently(body);
  }

  /** A missing `name` (undefined) fails all three of its constraints. */
  lemma MissingNameReported(body: Body)
    requires forall i :: 0 <= i < |body| ==> body[i].0 != "name"
    ensures Validate(body).Err?
    ensures ErrorsFor(Validate(body).error, "name") ==
      [FieldError("name", IsNotEmpty, "Name is required"),
       FieldError("name", IsString, "Name must be a string"),
       FieldError("name", MaxLength(100), "Name must not exceed 100 characters")]
  {
    assert Lookup(body, "name") == None;
    var n := CheckField(NameRules, None);
    assert n == [FieldError("name", IsNotEmpty, "Name is required"),
                 FieldError("name", IsString, "Name must be a string"),
                 FieldError("name", MaxLength(100), "Name must not exceed 100 characters")];
    FieldsCheckedIndependently(body);
    assert n[0] in ErrorsFor(Errors(body), "name");
  }

  /** A non-string `name` or `message` is reported as not a string. */
  lemma NonStringRejected(body: Body, rules: FieldRules)
    requires rules == NameRules || rules == MessageRules
    requires Lookup(body, rules.property).Some? && !Lookup(body, rules.property).value.JString?
    ensures Validate(body).Err?
    ensures FieldError(rules.property, IsString, rules.notString) in Validate(body).error
  {
    FieldsCheckedIndependently(body);
    assert FieldError(rules.property, IsString, rules.notString) in CheckField(rules, Lookup(body, rules.property));
  }

  /** A `name` of 101 or more characters is reported as too long. */
  lemma LongNameRejected(body: Body, name: string)
    requires Lookup(body, "name") == Some(JString(name)) && |name| > 100
    ensures Validate(body).Err?
    ensures ErrorsFor(Validate(body).error, "name") ==
      [FieldError("name", MaxLength(100), "Name must not exceed 100 characters")]
  {
    FieldsCheckedIndependently(body);
  }

  /** A `message` of 501 or more characters is reported as too long. */
  lemma LongMessageRejected(body: Body, message: string)
    requires Lookup(body, "message") == Some(JString(message)) && |message| > 500
    ensures Validate(body).Err?
    ensures ErrorsFor(Validate(body).error, "message") ==
      [FieldError("message", MaxLength(500), "Message must not exceed 500 characters")]
  {
    FieldsCheckedIndependently(body);
  }

  /**
   * The bounds are inclusive and nothing is trimmed: a body holding exactly
   * `name` and `message`, each non-empty and at its bound or under it, is
   * accepted even when the values are only whitespace.
   */
  lemma BoundaryAndWhitespaceAccepted(name: string, message: string)
    requires name != "" && |name| <= 100 && message != "" && |message| <= 500
    ensures Validate([("name", JString(name)), ("message", JString(message))]) ==
      Ok(CreateCommentDto(name, message))
  {
    var body := [("name", JString(name)), ("message", JString(message))];
    assert Lookup(body, "name") == Some(JString(name));
    assert Lookup(body, "message") == Some(JString(message));
    ValidateAcceptsExactly(body);
  }
}

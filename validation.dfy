/** Request-body validation for the API's write paths: the string
    sanitiser, the per-field rules of the chat, lead, event and widget-config
    chains, and the middleware that turns collected errors into a 400 reply.

    A body field is `None` when the request omits it. A required field that
    is absent is read as the empty string, which is what the chains' `trim`
    turns `undefined` into. */
module Validation {
  import opened Common

  /** One entry of the collected validation errors. */
  datatype FieldError = FieldError(path: string, msg: string)

  /** One entry of the `details` array of a 400 reply. */
  datatype Detail = Detail(field: string, message: string)

  datatype Outcome =
    | Next
    | BadRequest(status: int, error: string, details: seq<Detail>)

  /** `validate`: pass the request on when nothing failed, otherwise answer
      400 with one detail per error, in the order the errors were found. */
  function Validate(errors: seq<FieldError>): (r: Outcome)
    ensures r.Next? <==> errors == []
    ensures r.BadRequest? ==> r.status == 400 && r.error == "Validation failed"
    ensures r.BadRequest? ==> |r.details| == |errors|
    ensures r.BadRequest? ==> forall i :: 0 <= i < |errors| ==>
              r.details[i].field == errors[i].path && r.details[i].message == errors[i].msg
  {
    if errors == [] then Next
    else BadRequest(400, "Validation failed",
                    seq(|errors|, i requires 0 <= i < |errors| => Detail(errors[i].path, errors[i].msg)))
  }

  predicate IsAngle(c: char)
  {
    c == '<' || c == '>'
  }

  /** `s.replace(/[<>]/g, "")`. */
  function RemoveAngles(s: string): (r: string)
    ensures |r| <= |s|
    ensures forall c :: c in r <==> c in s && !IsAngle(c)
    ensures (forall i :: 0 <= i < |s| ==> !IsAngle(s[i])) ==> r == s
  {
    if s == [] then []
    else if IsAngle(s[0]) then RemoveAngles(s[1..])
    else [s[0]] + RemoveAngles(s[1..])
  }

  /** The global replace works piece by piece: removing the brackets from
      a concatenation removes them from each part and keeps the parts in
      order, so every other character stays where it was. */
  lemma {:induction false} RemoveAnglesConcat(a: string, b: string)
    ensures RemoveAngles(a + b) == RemoveAngles(a) + RemoveAngles(b)
    decreases |a|
  {
    if a != [] {
      var ab := a + b;
      assert ab[0] == a[0] && ab[1..] == a[1..] + b;
      RemoveAnglesConcat(a[1..], b);
      var head := if IsAngle(a[0]) then [] else [a[0]];
      assert RemoveAngles(a) == head + RemoveAngles(a[1..]);
      assert RemoveAngles(ab) == head + RemoveAngles(ab[1..]);
    } else {
      assert a + b == b;
    }
  }

  const MaxSanitizedLength := 10000

  /** `sanitizeString`: trim, drop every `<` and `>`, keep at most 10000
      characters; a value that is not a string is returned as it is. */
  function SanitizeString(v: Json): (r: Json)
    ensures !v.JStr? ==> r == v
    ensures v.JStr? ==> r.JStr? && |r.s| <= MaxSanitizedLength
    ensures v.JStr? ==> '<' !in r.s && '>' !in r.s
    ensures v.JStr? ==> r.s <= RemoveAngles(Trim(v.s))
    ensures v.JStr? && |RemoveAngles(Trim(v.s))| <= MaxSanitizedLength ==> r.s == RemoveAngles(Trim(v.s))
    ensures v.JStr? && |RemoveAngles(Trim(v.s))| > MaxSanitizedLength ==> |r.s| == MaxSanitizedLength
  {
    match v
    case JStr(s) =>
      var cleaned := RemoveAngles(Trim(s));
      JStr(if |cleaned| <= MaxSanitizedLength then cleaned else cleaned[..MaxSanitizedLength])
    case _ => v
  }

  /** The text a string rule sees: the trimmed value, or the empty string
      for an absent field. */
  function Trimmed(v: Option<string>): string
  {
    match v
    case None => ""
    case Some(s) => Trim(s)
  }

  function Check(ok: bool, path: string, msg: string): (errors: seq<FieldError>)
    ensures errors == [] <==> ok
    ensures forall e :: e in errors ==> e.path == path
  {
    if ok then [] else [FieldError(path, msg)]
  }

  /** A required string field: `trim().notEmpty()` then a length bound. The
      two messages are separate validators, so an empty value fails both
      when the bound's minimum is 1; an `isLength` without a minimum has
      minimum 0. */
  function RequiredText(v: Option<string>, path: string, requiredMsg: string,
                        minLen: nat, maxLen: nat, lengthMsg: string): (errors: seq<FieldError>)
    ensures errors == [] <==> Trimmed(v) != "" && minLen <= |Trimmed(v)| <= maxLen
    ensures forall e :: e in errors ==> e.path == path
  {
    var t := Trimmed(v);
    Check(t != "", path, requiredMsg) + Check(minLen <= |t| <= maxLen, path, lengthMsg)
  }

  /** An optional string field with a maximum length after trimming. */
  function OptionalText(v: Option<string>, path: string, maxLen: nat, msg: string): (errors: seq<FieldError>)
    ensures errors == [] <==> (v.Some? ==> |Trim(v.value)| <= maxLen)
    ensures forall e :: e in errors ==> e.path == path
  {
    if v.None? then [] else Check(|Trim(v.value)| <= maxLen, path, msg)
  }

  function OptionalArray(v: Option<Json>, path: string, msg: string): (errors: seq<FieldError>)
    ensures errors == [] <==> (v.Some? ==> v.value.JArr?)
    ensures forall e :: e in errors ==> e.path == path
  {
    if v.None? then [] else Check(v.value.JArr?, path, msg)
  }

  function OptionalObject(v: Option<Json>, path: string, msg: string): (errors: seq<FieldError>)
    ensures errors == [] <==> (v.Some? ==> v.value.JObj?)
    ensures forall e :: e in errors ==> e.path == path
  {
    if v.None? then [] else Check(v.value.JObj?, path, msg)
  }

  // ---------------------------------------------------------------- chat

  datatype ChatBody = ChatBody(
    message: Option<string>,
    projectId: Option<string>,
    conversation: Option<Json>,
    microsite: Option<string>)

  predicate ChatRules(b: ChatBody)
  {
    && 1 <= |Trimmed(b.message)| <= 5000
    && 1 <= |Trimmed(b.projectId)| <= 100
    && (b.conversation.Some? ==> b.conversation.value.JArr?)
    && (b.microsite.Some? ==> |Trim(b.microsite.value)| <= 200)
  }

  /** The errors `validateChat` collects, chain by chain. */
  function ValidateChat(b: ChatBody): (errors: seq<FieldError>)
    ensures errors == [] <==> ChatRules(b)
  {
    RequiredText(b.message, "message", "Message is required",
                 1, 5000, "Message must be between 1 and 5000 characters")
    + RequiredText(b.projectId, "projectId", "projectId is required",
                   1, 100, "projectId must be between 1 and 100 characters")
    + OptionalArray(b.conversation, "conversation", "conversation must be an array")
    + OptionalText(b.microsite, "microsite", 200, "microsite must be less than 200 characters")
  }

  /** What a handler receives for a field whose chain trims it and then
      applies `sanitizeString` (the chat `message`, the config `agentName`). */
  function SanitizedField(message: string): (r: string)
    ensures '<' !in r && '>' !in r && |r| <= MaxSanitizedLength
  {
    SanitizeString(JStr(Trim(message))).s
  }

  /** A trimmed value of at most 10000 characters is sanitised without a
      cut. */
  lemma {:induction false} ShortFieldSanitized(value: string)
    requires |Trim(value)| <= MaxSanitizedLength
    ensures SanitizedField(value) == RemoveAngles(Trim(value))
  {
    var t := Trim(value);
    TrimOfTrimmed(t);
    assert |RemoveAngles(Trim(t))| <= MaxSanitizedLength;
  }

  /** For a message the chain accepts, the length cut never applies: the
      handler sees the trimmed message without its angle brackets. */
  lemma AcceptedMessageSanitized(b: ChatBody)
    requires ChatRules(b)
    ensures SanitizedField(b.message.value) == RemoveAngles(Trim(b.message.value))
  {
    ShortFieldSanitized(b.message.value);
  }

  /** An empty or blank message is reported twice, by the presence check
      and by the length check, before any other field. */
  lemma BlankMessageReportedTwice(b: ChatBody)
    requires Trimmed(b.message) == ""
    ensures |ValidateChat(b)| >= 2
    ensures ValidateChat(b)[0] == FieldError("message", "Message is required")
    ensures ValidateChat(b)[1] == FieldError("message", "Message must be between 1 and 5000 characters")
  {
  }

  // ---------------------------------------------------------------- lead

  /** The accepted values of `bhkType`. */
  const BhkTypes: seq<string> := [
    "1 Bhk", "1 BHK", "2 Bhk", "2 BHK", "3 Bhk", "3 BHK",
    "4 Bhk", "4 BHK", "Duplex", "Just Browsing", "Other", "Yet to decide"]

  /** A character of the class `[\d\s()-]`. */
  predicate IsPhoneChar(c: char)
  {
    IsDigit(c) || IsWhitespace(c) || c == '(' || c == ')' || c == '-'
  }

  predicate AllPhoneChars(s: string)
  {
    forall i :: 0 <= i < |s| ==> IsPhoneChar(s[i])
  }

  /** The pattern `^\+?[\d\s()-]+$`: an optional `+`, then at least one
      character of the class. */
  predicate MatchesPhonePattern(s: string)
  {
    || (|s| > 1 && s[0] == '+' && AllPhoneChars(s[1..]))
    || (|s| > 0 && AllPhoneChars(s))
  }

  datatype LeadBody = LeadBody(
    phone: Option<string>,
    bhkType: Option<string>,
    microsite: Option<string>,
    metadata: Option<Json>,
    conversation: Option<Json>)

  predicate PhoneRule(phone: Option<string>)
  {
    phone.Some? ==> 10 <= |Trim(phone.value)| <= 20 && MatchesPhonePattern(Trim(phone.value))
  }

  predicate LeadRules(b: LeadBody)
  {
    && PhoneRule(b.phone)
    && Trimmed(b.bhkType) in BhkTypes
    && 1 <= |Trimmed(b.microsite)| <= 200
    && (b.metadata.Some? ==> b.metadata.value.JObj?)
    && (b.conversation.Some? ==> b.conversation.value.JArr?)
  }

  const PhoneLengthMessage := "Phone must be between 10 and 20 characters"

  const PhonePatternMessage := "Phone must contain only digits, spaces, hyphens, parentheses, and optional +"

  function PhoneErrors(phone: Option<string>): (errors: seq<FieldError>)
    ensures errors == [] <==> PhoneRule(phone)
  {
    if phone.None? then []
    else
      var t := Trim(phone.value);
      Check(10 <= |t| <= 20, "phone", PhoneLengthMessage)
      + Check(MatchesPhonePattern(t), "phone", PhonePatternMessage)
  }

  lemma BhkTypesNonEmpty()
    ensures "" !in BhkTypes
  {
    forall k | 0 <= k < |BhkTypes| ensures BhkTypes[k] != "" {
      assert |BhkTypes[k]| > 0;
    }
  }

  function BhkTypeErrors(bhkType: Option<string>): (errors: seq<FieldError>)
    ensures errors == [] <==> Trimmed(bhkType) in BhkTypes
  {
    var bhk := Trimmed(bhkType);
    BhkTypesNonEmpty();
    Check(bhk != "", "bhkType", "bhkType is required")
    + Check(bhk in BhkTypes, "bhkType", "Invalid bhkType")
  }

  /** The errors `validateLead` collects, chain by chain. */
  function ValidateLead(b: LeadBody): (errors: seq<FieldError>)
    ensures errors == [] <==> LeadRules(b)
  {
    PhoneErrors(b.phone)
    + BhkTypeErrors(b.bhkType)
    + RequiredText(b.microsite, "microsite", "microsite is required",
                   0, 200, "microsite must be less than 200 characters")
    + OptionalObject(b.metadata, "metadata", "metadata must be an object")
    + OptionalArray(b.conversation, "conversation", "conversation must be an array")
  }

  /** A string matching the phone pattern is made of phone characters,
      except for a possible leading `+`. */
  lemma PhonePatternShape(t: string)
    requires MatchesPhonePattern(t)
    ensures forall i :: 0 <= i < |t| ==> IsPhoneChar(t[i]) || (i == 0 && t[i] == '+')
  {
    if !AllPhoneChars(t) {
      forall i | 1 <= i < |t| ensures IsPhoneChar(t[i]) {
        assert t[i] == t[1..][i - 1];
      }
    }
  }

  /** An accepted phone number is at most 20 characters of digits,
      whitespace, parentheses and hyphens, with at most one leading `+`. */
  lemma AcceptedPhoneShape(b: LeadBody)
    requires ValidateLead(b) == [] && b.phone.Some?
    ensures var t := Trim(b.phone.value);
            && 10 <= |t| <= 20
            && forall i :: 0 <= i < |t| ==> IsPhoneChar(t[i]) || (i == 0 && t[i] == '+')
  {
    assert PhoneRule(b.phone);
    PhonePatternShape(Trim(b.phone.value));
  }

  // ---------------------------------------------------------------- event

  datatype EventBody = EventBody(
    eventType: Option<string>,
    projectId: Option<string>,
    microsite: Option<string>,
    payload: Option<Json>)

  predicate EventRules(b: EventBody)
  {
    && 1 <= |Trimmed(b.eventType)| <= 50
    && 1 <= |Trimmed(b.projectId)| <= 100
    && (b.microsite.Some? ==> |Trim(b.microsite.value)| <= 200)
    && (b.payload.Some? ==> b.payload.value.JObj?)
  }

  /** The errors `validateEvent` collects, chain by chain. */
  function ValidateEvent(b: EventBody): (errors: seq<FieldError>)
    ensures errors == [] <==> EventRules(b)
  {
    RequiredText(b.eventType, "type", "type is required", 0, 50, "type must be less than 50 characters")
    + RequiredText(b.projectId, "projectId", "projectId is required",
                   0, 100, "projectId must be less than 100 characters")
    + OptionalText(b.microsite, "microsite", 200, "microsite must be less than 200 characters")
    + OptionalObject(b.payload, "payload", "payload must be an object")
  }

  // ---------------------------------------------------------------- widget config

  predicate IsHexDigit(c: char)
  {
    IsDigit(c) || ('a' <= c <= 'f') || ('A' <= c <= 'F')
  }

  /** The pattern `^#[0-9A-Fa-f]{6}$`. */
  predicate IsHexColor(s: string)
  {
    |s| == 7 && s[0] == '#' && forall i :: 1 <= i < 7 ==> IsHexDigit(s[i])
  }

  datatype WidgetConfigBody = WidgetConfigBody(
    agentName: Option<string>,
    primaryColor: Option<string>,
    propertyInfo: Option<Json>)

  predicate WidgetConfigRules(b: WidgetConfigBody)
  {
    && (b.agentName.Some? ==> |Trim(b.agentName.value)| <= 100)
    && (b.primaryColor.Some? ==> IsHexColor(Trim(b.primaryColor.value)))
    && (b.propertyInfo.Some? ==> b.propertyInfo.value.JObj?)
  }

  /** The errors `validateWidgetConfig` collects, chain by chain. */
  function ValidateWidgetConfig(b: WidgetConfigBody): (errors: seq<FieldError>)
    ensures errors == [] <==> WidgetConfigRules(b)
    ensures FieldError("primaryColor", "primaryColor must be a valid hex color") in errors <==>
              b.primaryColor.Some? && !IsHexColor(Trim(b.primaryColor.value))
  {
    OptionalText(b.agentName, "agentName", 100, "agentName must be less than 100 characters")
    + (if b.primaryColor.None? then []
       else Check(IsHexColor(Trim(b.primaryColor.value)), "primaryColor",
                  "primaryColor must be a valid hex color"))
    + OptionalObject(b.propertyInfo, "propertyInfo", "propertyInfo must be an object")
  }
}

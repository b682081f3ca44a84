/** The call form's controller: the three form fields, the per-field
    error messages and the loading flag, with the handlers the form's
    inputs and buttons call. */
module CallForm {
  import opened Strings
  import opened Wrappers
  import opened CommandExecutor

  /** The form's three fields. */
  datatype FormData = FormData(name: string, phoneNumber: string, botType: string)
  {
    function Get(f: Field): string
    {
      match f
      case Name => name
      case PhoneNumber => phoneNumber
      case BotType => botType
    }

    /** `{...prev, [f]: value}`. */
    function With(f: Field, value: string): FormData
    {
      match f
      case Name => this.(name := value)
      case PhoneNumber => this.(phoneNumber := value)
      case BotType => this.(botType := value)
    }
  }

  /** The three optional error messages; `None` is an absent or `undefined` key. */
  datatype FormErrors = FormErrors(name: Option<string>, phoneNumber: Option<string>, botType: Option<string>)
  {
    function Get(f: Field): Option<string>
    {
      match f
      case Name => name
      case PhoneNumber => phoneNumber
      case BotType => botType
    }

    /** `{...prev, [f]: undefined}`. */
    function Cleared(f: Field): FormErrors
    {
      match f
      case Name => this.(name := None)
      case PhoneNumber => this.(phoneNumber := None)
      case BotType => this.(botType := None)
    }
  }

  /** A key of the form: the `name` attribute of an input, or the bot type. */
  datatype Field = Name | PhoneNumber | BotType

  const EmptyForm: FormData := FormData("", "", "")
  const NoErrors: FormErrors := FormErrors(None, None, None)

  const NameRequired: string := "Name is required"
  const PhoneRequired: string := "Phone number is required"
  const PhoneInvalid: string := "Please enter a valid phone number"
  const BotTypeRequired: string := "Please select a voicebot"

  /** JavaScript truthiness of an optional string: present and non-empty. */
  predicate Truthy(v: Option<string>)
  {
    v.Some? && v.value != ""
  }

  /** A character of the class `[0-9\s\-()]`. */
  predicate IsPhoneChar(c: char)
  {
    '0' <= c <= '9' || IsJsWhitespace(c) || c == '-' || c == '(' || c == ')'
  }

  /** `[0-9\s\-()]{8,20}` matching all of `s`. */
  predicate PhoneRun(s: string)
  {
    8 <= |s| <= 20 && forall i :: 0 <= i < |s| ==> IsPhoneChar(s[i])
  }

  /** `/^\+?[0-9\s\-()]{8,20}$/.test(s)`: the optional plus sign is taken
      greedily. The regular expression also allows the alternative without
      the plus sign, which the contract shows is never needed, because the
      plus sign is not in the character class. */
  function MatchesPhonePattern(s: string): (r: bool)
    ensures r <==> (s != [] && s[0] == '+' && PhoneRun(s[1..])) || PhoneRun(s)
  {
    if s != [] && s[0] == '+' then PhoneRun(s[1..]) else PhoneRun(s)
  }

  /** The errors validation reports for a form, field by field: a blank
      name; a blank phone number, or else one that does not match the
      pattern; an empty bot type (any non-empty string passes, listed in
      the catalog or not). */
  function ExpectedErrors(d: FormData): FormErrors
  {
    FormErrors(
      if IsBlank(d.name) then Some(NameRequired) else None,
      if IsBlank(d.phoneNumber) then Some(PhoneRequired)
      else if !MatchesPhonePattern(d.phoneNumber) then Some(PhoneInvalid)
      else None,
      if d.botType == "" then Some(BotTypeRequired) else None)
  }

  /** Every error is one of the messages meant for its own field. */
  predicate KnownErrors(e: FormErrors)
  {
    (e.name == None || e.name == Some(NameRequired))
    && (e.phoneNumber == None || e.phoneNumber == Some(PhoneRequired) || e.phoneNumber == Some(PhoneInvalid))
    && (e.botType == None || e.botType == Some(BotTypeRequired))
  }

  /** What the executor does with a command: it returns its output, or it
      throws, either an `Error` carrying a message or some other value. */
  datatype ExecOutcome = Output(text: string) | ThrewError(message: string) | ThrewOther

  datatype ToastKind = SuccessToast | ErrorToast

  /** A notification shown to the user. */
  datatype Notice = Notice(kind: ToastKind, title: string, description: Option<string>)

  /** The name the success notification uses for the bot: the catalog's
      display name when it is non-empty, otherwise the bot type itself. */
  function SelectedBotName(botType: string): (r: string)
    ensures r != "" ==> r == botType || (botType in Catalog && r == Catalog[botType].agentName)
    ensures botType !in Catalog ==> r == botType
  {
    if botType in Catalog && Catalog[botType].agentName != "" then Catalog[botType].agentName else botType
  }

  /** For a bot type of the catalog the notification shows its display name. */
  lemma SelectedBotNameOfCatalog(botType: string)
    requires botType in Catalog
    ensures SelectedBotName(botType) == Catalog[botType].agentName
  {
    CatalogShape();
  }

  /** The notification for an executor's outcome on the form `d`. */
  function OutcomeNotice(d: FormData, outcome: ExecOutcome): Notice
  {
    match outcome
    case Output(text) =>
      Notice(SuccessToast,
        "Initiating call with " + SelectedBotName(d.botType) + " to " + d.phoneNumber,
        Some("Call initiated by " + d.name + ". Output: " + text))
    case ThrewError(message) => Notice(ErrorToast, "Failed to initiate call", Some(message))
    case ThrewOther => Notice(ErrorToast, "Failed to initiate call", Some("Unknown error occurred"))
  }

  const CommandFailedNotice: Notice := Notice(ErrorToast, "Failed to generate command for the selected bot", None)

  /** The state of the `useCallForm` hook. `loadingWrites` records every
      value handed to `setIsLoading`, and `executed` every command handed
      to the executor, in order. */
  class CallFormController {
    var formData: FormData
    var errors: FormErrors
    var isLoading: bool
    ghost var loadingWrites: seq<bool>
    ghost var executed: seq<string>

    /** Only the known messages ever appear among the errors. */
    ghost predicate Valid()
      reads this
    {
      KnownErrors(errors)
    }

    /** The hook's initial state. */
    constructor()
      ensures Valid()
      ensures formData == EmptyForm && errors == NoErrors && !isLoading
      ensures loadingWrites == [] && executed == []
    {
      formData := EmptyForm;
      errors := NoErrors;
      isLoading := false;
      loadingWrites := [];
      executed := [];
    }

    /** `validateForm`: builds the errors field by field, replaces the
        stored errors with them, and reports whether there are none. */
    method ValidateForm() returns (ok: bool)
      modifies this
      ensures Valid()
      ensures errors == ExpectedErrors(formData)
      ensures ok <==> errors == NoErrors
      ensures formData == old(formData) && isLoading == old(isLoading)
      ensures loadingWrites == old(loadingWrites) && executed == old(executed)
    {
      var d := formData;
      var newErrors := NoErrors;
      TrimEmptyIff(d.name);
      if Trim(d.name) == "" {
        newErrors := newErrors.(name := Some(NameRequired));
      }
      TrimEmptyIff(d.phoneNumber);
      if Trim(d.phoneNumber) == "" {
        newErrors := newErrors.(phoneNumber := Some(PhoneRequired));
      } else if !MatchesPhonePattern(d.phoneNumber) {
        newErrors := newErrors.(phoneNumber := Some(PhoneInvalid));
      }
      if d.botType == "" {
        newErrors := newErrors.(botType := Some(BotTypeRequired));
      }
      assert newErrors == ExpectedErrors(d);
      errors := newErrors;
      ok := newErrors.name.None? && newErrors.phoneNumber.None? && newErrors.botType.None?;
    }

    /** `handleChange` for the input named `field`: stores the value and
        clears that field's error if one is shown. */
    method HandleChange(field: Field, value: string)
      modifies this
      requires Valid()
      ensures Valid()
      ensures formData == old(formData).With(field, value)
      ensures errors == if Truthy(old(errors).Get(field)) then old(errors).Cleared(field) else old(errors)
      ensures isLoading == old(isLoading)
      ensures loadingWrites == old(loadingWrites) && executed == old(executed)
    {
      formData := formData.With(field, value);
      if Truthy(errors.Get(field)) {
        errors := errors.Cleared(field);
      }
    }

    /** `handleBotTypeChange`: the bot type select's own change handler. */
    method HandleBotTypeChange(value: string)
      modifies this
      requires Valid()
      ensures Valid()
      ensures formData == old(formData).(botType := value)
      ensures errors == if Truthy(old(errors).botType) then old(errors).(botType := None) else old(errors)
      ensures isLoading == old(isLoading)
      ensures loadingWrites == old(loadingWrites) && executed == old(executed)
    {
      formData := formData.(botType := value);
      if Truthy(errors.botType) {
        errors := errors.(botType := None);
      }
    }

    /** `handleClear`: empties the fields and the errors; the loading flag
        is left as it is. */
    method HandleClear()
      modifies this
      ensures Valid()
      ensures formData == EmptyForm && errors == NoErrors
      ensures isLoading == old(isLoading)
      ensures loadingWrites == old(loadingWrites) && executed == old(executed)
    {
      formData := EmptyForm;
      errors := NoErrors;
    }

    /** `setIsLoading`. */
    method SetIsLoading(value: bool)
      modifies this
      ensures isLoading == value && loadingWrites == old(loadingWrites) + [value]
      ensures formData == old(formData) && errors == old(errors) && executed == old(executed)
    {
      isLoading := value;
      loadingWrites := loadingWrites + [value];
    }

    /** The `try` block of `handleSubmit` and its `finally`, for the
        command built: an empty command gives an error notification
        without reaching the executor and lowers the loading flag before
        the `finally` block lowers it again; a non-empty one is executed,
        its outcome reported, and the flag lowered. */
    method RunCommand(command: string, execute: string -> ExecOutcome) returns (notice: Notice)
      modifies this
      ensures formData == old(formData) && errors == old(errors) && !isLoading
      ensures command == "" ==>
        loadingWrites == old(loadingWrites) + [false, false]
        && executed == old(executed)
        && notice == CommandFailedNotice
      ensures command != "" ==>
        loadingWrites == old(loadingWrites) + [false]
        && executed == old(executed) + [command]
        && notice == OutcomeNotice(formData, execute(command))
    {
      if command == "" {
        notice := CommandFailedNotice;
        SetIsLoading(false);
        SetIsLoading(false);
        return;
      }
      executed := executed + [command];
      var outcome := execute(command);
      notice := OutcomeNotice(formData, outcome);
      SetIsLoading(false);
    }

    /** `handleSubmit`, with the executor as a parameter. An invalid form
        stops after validation. Otherwise the loading flag is raised, the
        command is built by `executeCliCommand` as written (inherited
        property names included) and run, and the flag is lowered again on
        every path. The returned notice is the one shown, if any. */
    method HandleSubmit(execute: string -> ExecOutcome) returns (notice: Option<Notice>)
      modifies this
      ensures Valid()
      ensures formData == old(formData)
      ensures errors == ExpectedErrors(formData)
      ensures errors != NoErrors ==>
        notice == None && isLoading == old(isLoading)
        && loadingWrites == old(loadingWrites) && executed == old(executed)
      ensures errors == NoErrors ==>
        var command := ExecuteCliCommandAsWritten(formData.botType, formData.phoneNumber, formData.name);
        !isLoading
        && (command == "" ==>
              loadingWrites == old(loadingWrites) + [true, false, false]
              && executed == old(executed)
              && notice == Some(CommandFailedNotice))
        && (command != "" ==>
              loadingWrites == old(loadingWrites) + [true, false]
              && executed == old(executed) + [command]
              && notice == Some(OutcomeNotice(formData, execute(command))))
    {
      var ok := ValidateForm();
      if !ok {
        return None;
      }
      ghost var before := loadingWrites;
      SetIsLoading(true);
      var command := ExecuteCliCommandAsWritten(formData.botType, formData.phoneNumber, formData.name);
      var n := RunCommand(command, execute);
      notice := Some(n);
      RaisedThenLowered(before);
    }
  }

  /** The loading flag raised once and then lowered once or twice. */
  lemma RaisedThenLowered(writes: seq<bool>)
    ensures writes + [true] + [false] == writes + [true, false]
    ensures writes + [true] + [false, false] == writes + [true, false, false]
  {
  }

  /** The form is valid exactly when the name is not blank, the phone
      number is not blank and matches the pattern, and a bot type is set. */
  lemma ValidIff(d: FormData)
    ensures ExpectedErrors(d) == NoErrors
      <==> !IsBlank(d.name) && !IsBlank(d.phoneNumber) && MatchesPhonePattern(d.phoneNumber) && d.botType != ""
  {
  }

  /** Validation only produces the known messages, each for its own field. */
  lemma ExpectedErrorsKnown(d: FormData)
    ensures KnownErrors(ExpectedErrors(d))
  {
  }

  /** A phone number that passes validation has between 8 and 21
      characters, at most one of them a plus sign, and that one first. */
  lemma ValidPhoneShape(s: string)
    requires !IsBlank(s) && MatchesPhonePattern(s)
    ensures 8 <= |s| <= 21
    ensures forall i :: 0 < i < |s| ==> s[i] != '+'
  {
  }

  /** A phone number of eight to twenty whitespace characters matches the
      pattern, yet is reported as missing: the blank check comes first. */
  lemma BlankPhoneIsRequiredNotInvalid(s: string)
    requires 8 <= |s| <= 20 && forall i :: 0 <= i < |s| ==> s[i] == ' '
    ensures MatchesPhonePattern(s)
    ensures ExpectedErrors(FormData("Asha", s, "azure-based-voice-bot")).phoneNumber == Some(PhoneRequired)
  {
  }

  /** Setting a field changes that field and no other. */
  lemma WithSetsOnlyField(d: FormData, f: Field, value: string)
    ensures d.With(f, value).Get(f) == value
    ensures forall g :: g != f ==> d.With(f, value).Get(g) == d.Get(g)
  {
  }

  /** Clearing an error removes that error and no other. */
  lemma ClearedOnlyField(e: FormErrors, f: Field)
    ensures e.Cleared(f).Get(f) == None
    ensures forall g :: g != f ==> e.Cleared(f).Get(g) == e.Get(g)
    ensures KnownErrors(e) ==> KnownErrors(e.Cleared(f))
  {
  }
}

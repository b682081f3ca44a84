# Outbound call dialer: command builder, call form and execution gate

This project is a Dafny model of the logic in a small web application that
places outbound voice-bot calls. The application has three parts:

- The browser's **command builder** (`src/utils/commandExecutor.ts`) holds a
  fixed catalog of three bot types. Each type maps to an `lk dispatch create`
  invocation template and a display name. For one call it builds a command
  line: the template, a `--metadata` argument holding the JSON object
  `{"phone_number", "company_name", "candidate_name"}`, and fixed API
  credentials.
- The browser's **call form controller** (`src/hooks/useCallForm.ts`) holds
  the form fields, the per-field error messages and the loading flag.
  Its handlers validate the form, edit a field, clear the form, and submit.
  Submitting builds the command, hands it to an executor and reports the
  outcome as a notification.
- The backend's **`/execute` handler** (`server/app.py`) checks the posted
  command against a prefix allow-list, runs it, and picks the HTTP status and
  JSON reply.

Layout, one module per file:

- `Wrappers.dfy`: `Option`.
- `Strings.dfy`: prefixes, suffixes, ECMAScript whitespace,
  `String.prototype.trim`.
- `Json.dfy`: the string escaping of `JSON.stringify` (`QuoteJSONString`,
  section 25.5.2.2 of ECMA-262). It also holds a reference decoder for JSON
  strings and objects (section 7 of RFC 8259), with the round trips between
  the two.
- `CommandExecutor.dfy`: the catalog and `executeCliCommand`.
- `CallForm.dfy`: `useCallForm` as a class whose methods update its fields.
  The executor is a function parameter. Two ghost logs record every value
  handed to `setIsLoading` and every command handed to the executor.
- `App.dfy`: `is_command_allowed` and `execute_command` as pure functions.
  Their inputs are the decoded request body and the outcome of
  `subprocess.run`. Python's semantics for truth testing, `in`,
  subscripting and `str.startswith` on arbitrary JSON values are written out,
  including the exceptions they raise.
- `EndToEnd.dfy`: facts that join the two sides. The main one is that every
  command the builder produces for a catalog bot passes the backend's
  allow-list.

Three behaviours of the code that are easy to miss:

- Validation accepts any non-empty bot type, listed in the catalog or not.
  `CallForm.ExpectedErrors` models this, and `EndToEnd.ValidFormCommand`
  states what follows from it. Submission builds the command with
  `executeCliCommand` as written, so an inherited property name such as
  `toString` yields a non-empty command that reaches the executor (see
  "## Findings").
- On the empty-command path of `handleSubmit`, the loading flag is lowered
  twice: once explicitly and once in `finally`.
- The phone check uses the trimmed value for "required" but the untrimmed
  value for the pattern.

## Model

| member | source | states |
|---|---|---|
| CommandExecutor.ExecuteCliCommand | src/utils/commandExecutor.ts:29-33 | the command is empty exactly when the bot type is not a key of the catalog |
| CommandExecutor.CatalogShape | src/utils/commandExecutor.ts:11-24 | the catalog has exactly the keys `openai-multimodal-bot`, `openai-multimodal-hindi-bot`, `azure-based-voice-bot`; every template starts with `lk dispatch create`; every display name is non-empty |
| CommandExecutor.MetadataRoundTrip | src/utils/commandExecutor.ts:37-41 | the metadata JSON parses back to exactly three members, in order: `phone_number` with the phone argument, `company_name` with `Maxicus`, and `candidate_name` with the name argument |
| CommandExecutor.CommandForParts | src/utils/commandExecutor.ts:45 | a command line starts with the template followed by ` --metadata '` and ends with the credentials flags; the slice between them is the metadata |
| CommandExecutor.KnownBotCommand | src/utils/commandExecutor.ts:29-45 | for a known bot type the command is non-empty; it starts with the entry's template and ` --metadata '`; it ends with `' --api-key devkey --api-secret secret`; the part in between parses to the three metadata members |
| CommandExecutor.QuotePlain | src/utils/commandExecutor.ts:37-41 | a string without characters that need escaping is serialised between two double quotes, unchanged |
| CommandExecutor.ThreeMembers | src/utils/commandExecutor.ts:37-41 | a three-member object is serialised as `{`, the members joined by commas, `}` |
| CommandExecutor.QuotedPhoneKey | src/utils/commandExecutor.ts:38 | the key `phone_number` serialises as `"phone_number"` |
| CommandExecutor.QuotedCompanyKey | src/utils/commandExecutor.ts:39 | the key `company_name` serialises as `"company_name"` |
| CommandExecutor.QuotedNameKey | src/utils/commandExecutor.ts:40 | the key `candidate_name` serialises as `"candidate_name"` |
| CommandExecutor.QuotedPhoneValue | src/utils/commandExecutor.ts:38 | the phone number `+919876543210` serialises unchanged between quotes |
| CommandExecutor.QuotedCompanyValue | src/utils/commandExecutor.ts:39 | `Maxicus` serialises unchanged between quotes |
| CommandExecutor.QuotedNameValue | src/utils/commandExecutor.ts:40 | `Asha` serialises unchanged between quotes |
| CommandExecutor.AzureExample | src/utils/commandExecutor.ts:20-45 | (`azure-based-voice-bot`, `+919876543210`, `Asha`) gives the exact command line of the azure dispatch with that metadata and the credentials |
| CommandExecutor.ExecuteCliCommandAsWritten | src/utils/commandExecutor.ts:29-33 | the lookup as written: a non-catalog name gives `''` unless it is an inherited `Object.prototype` member; a catalog name gives the corrected command; an inherited name gives the command built on the template `undefined` |
| CommandExecutor.InheritedPropertyIsNotRejected | src/utils/commandExecutor.ts:29-45 | `toString` is not a catalog key, yet the as-written lookup returns a non-empty command starting with `undefined --metadata '` |
| CommandExecutor.InheritedNotInCatalog | src/utils/commandExecutor.ts:11-24 | no name inherited from `Object.prototype` is a key of the catalog |
| CommandExecutor.CorrectedRejectsInherited | src/utils/commandExecutor.ts:29-33 | the corrected lookup returns `''` for every inherited property name |
| Json.HexValue | src/utils/commandExecutor.ts:37-41 | a hexadecimal digit decodes to a value below 16 |
| Json.HexRoundTrip | src/utils/commandExecutor.ts:37-41 | the hexadecimal digit written for any value below 16 decodes back to that value |
| Json.EscapePlain | src/utils/commandExecutor.ts:37-41 | escaping leaves a string without quotes, backslashes or control characters unchanged |
| Json.EscapeCharIsPrintable | src/utils/commandExecutor.ts:37-41 | escaping one character produces no control character |
| Json.EscapeIsPrintable | src/utils/commandExecutor.ts:37-41 | an escaped string contains no control character, so the serialised metadata stays on one line |
| Json.HexQuad | src/utils/commandExecutor.ts:37-41 | a decoded `\u` quad is below 0x10000 |
| Json.Unescape | src/utils/commandExecutor.ts:37-41 | a decoded escape sequence consumes at least two characters and no more than are given |
| Json.DecodeString | src/utils/commandExecutor.ts:37-41 | decoding a string consumes at least its closing quote |
| Json.DecodeControlEscape | src/utils/commandExecutor.ts:37-41 | the `\u00XX` escape written for a control character decodes back to that character |
| Json.DecodeShortEscape | src/utils/commandExecutor.ts:37-41 | a plain character, or one with a two-character escape, decodes back to itself |
| Json.DecodeEscapeChar | src/utils/commandExecutor.ts:37-41 | the escape written for any one character decodes back to that character |
| Json.DecodeEscape | src/utils/commandExecutor.ts:37-41 | decoding an escaped string and its closing quote gives back the original string and the text after it |
| Json.ParseMember | src/utils/commandExecutor.ts:37-41 | parsing a member consumes input |
| Json.ParseMemberStep | src/utils/commandExecutor.ts:37-41 | a decodable key, a colon and a decodable value parse as one member |
| Json.DecodeMemberKey | src/utils/commandExecutor.ts:37-41 | the key of a serialised member decodes back to the original key |
| Json.DecodeMemberValue | src/utils/commandExecutor.ts:37-41 | the value of a serialised member decodes back to the original value |
| Json.ParseStringifyMember | src/utils/commandExecutor.ts:37-41 | a serialised member parses back to itself, leaving the text that follows |
| Json.ParseMembersStep | src/utils/commandExecutor.ts:37-41 | a member followed by `}` ends the list; a member followed by a comma and a parsable list joins that list |
| Json.ParseStringifyMembers | src/utils/commandExecutor.ts:37-41 | a non-empty serialised member list with its closing brace parses back to the same members, in order |
| Json.StringifyMemberHead | src/utils/commandExecutor.ts:37-41 | a serialised member starts with a double quote |
| Json.ParseStringifyObject | src/utils/commandExecutor.ts:37-41 | every serialised object of string members parses back to the same members, in order |
| Strings.TrimStart | src/hooks/useCallForm.ts:31-36 | what remains after removing leading whitespace is a suffix of the input |
| Strings.TrimEnd | src/hooks/useCallForm.ts:31-36 | what remains after removing trailing whitespace is a prefix of the input |
| Strings.TrimStartSpec | src/hooks/useCallForm.ts:31-36 | only whitespace is removed, and the result does not begin with whitespace |
| Strings.TrimEndSpec | src/hooks/useCallForm.ts:31-36 | only whitespace is removed, and the result does not end with whitespace |
| Strings.TrimEmptyIff | src/hooks/useCallForm.ts:31-36 | a trimmed string is empty exactly when every character of the input is whitespace |
| Strings.StartsWithAppend | server/app.py:69 | appending text keeps a prefix |
| Strings.StartsWithTrans | server/app.py:69 | a prefix of a prefix is a prefix |
| CallForm.MatchesPhonePattern | src/hooks/useCallForm.ts:35-38 | the pattern matches exactly an optional leading `+` followed by 8 to 20 characters, each a digit, whitespace, `-`, `(` or `)` |
| CallForm.SelectedBotName | src/hooks/useCallForm.ts:112 | the name shown is the catalog's display name or the bot type itself; for a type outside the catalog it is the bot type |
| CallForm.SelectedBotNameOfCatalog | src/hooks/useCallForm.ts:112 | for a catalog bot type the display name is shown |
| CallForm.CallFormController.constructor | src/hooks/useCallForm.ts:20-26 | the fields start empty, no error is set, and the form is not loading |
| CallForm.CallFormController.ValidateForm | src/hooks/useCallForm.ts:28-49 | the stored errors become exactly those of the field rules; the result is true exactly when no error is set; the fields and the loading flag are unchanged |
| CallForm.CallFormController.HandleChange | src/hooks/useCallForm.ts:51-64 | the named field takes the new value; that field's error is cleared only if it was set; nothing else changes |
| CallForm.CallFormController.HandleBotTypeChange | src/hooks/useCallForm.ts:66-79 | the bot type takes the new value; its error is cleared only if it was set; nothing else changes |
| CallForm.CallFormController.HandleClear | src/hooks/useCallForm.ts:130-138 | all three fields become empty and all errors are cleared, whatever the prior state; the loading flag is unchanged |
| CallForm.CallFormController.SetIsLoading | src/hooks/useCallForm.ts:25 | the loading flag takes the value, and the write is logged |
| CallForm.CallFormController.RunCommand | src/hooks/useCallForm.ts:100-127 | an empty command shows the "Failed to generate command" notice, is never executed, and lowers the flag twice; a non-empty one is executed once, its outcome is reported, and the flag is lowered |
| CallForm.CallFormController.HandleSubmit | src/hooks/useCallForm.ts:81-128 | the errors are recomputed and the fields are unchanged. An invalid form builds and executes nothing, shows no notice and leaves the loading flag alone. A valid form raises the flag, builds the command with the as-written builder, executes it exactly when it is non-empty and shows the matching notice; the log of flag writes is the raise followed by one lowering, or two on the empty-command path, so the flag is false on every exit |
| CallForm.ValidIff | src/hooks/useCallForm.ts:31-48 | a form is valid exactly when the name is not blank, the phone is not blank and matches the pattern, and a bot type is set |
| CallForm.ExpectedErrorsKnown | src/hooks/useCallForm.ts:31-44 | validation only sets each field's own messages, with the source's exact texts |
| CallForm.ValidPhoneShape | src/hooks/useCallForm.ts:35-40 | a phone number that passes has 8 to 21 characters, and a `+` can appear only first |
| CallForm.BlankPhoneIsRequiredNotInvalid | src/hooks/useCallForm.ts:36-40 | eight to twenty spaces match the pattern, yet the error is "Phone number is required", because the blank check comes first |
| CallForm.WithSetsOnlyField | src/hooks/useCallForm.ts:53-56 | setting a field changes that field and no other |
| CallForm.ClearedOnlyField | src/hooks/useCallForm.ts:59-62 | clearing an error removes that error and no other, and keeps only known messages |
| App.Contains | server/app.py:20 | `in` raises exactly for a value that is not a dict, list or string; for a dict it tests the keys |
| App.Subscript | server/app.py:23 | subscripting with a string gives a value exactly for a dict holding the key, and then the stored value |
| App.StartsWithMethod | server/app.py:69 | `startswith` raises exactly for a non-string, and otherwise tests the prefix |
| App.AnyPrefixSpec | server/app.py:69 | for a string, `any` over the prefixes is true exactly when one of them starts it; for a non-string it raises the missing-attribute error when at least one prefix is tested |
| App.AllowedIff | server/app.py:58-69 | a string command is allowed exactly when it starts with `lk dispatch create`; any other value raises the missing-`startswith` error |
| App.AppendKeepsAllowed | server/app.py:69 | an allowed command stays allowed whatever is appended |
| App.Screen | server/app.py:18-30 | a command is run only if the body is a dict whose `command` entry is that string |
| App.Finish | server/app.py:40-56 | a non-zero exit gives 500 with `output`, `error` and `status` `error`; a zero exit gives 200 with `output` and `status` `success`; an exception gives 500 with its message |
| App.MissingCommand | server/app.py:19-21 | a falsy body, or one without `command`, gets 400 `No command provided` whatever running would do |
| App.RefusedCommand | server/app.py:29-30 | a string command without the allowed prefix gets 403 `Command not allowed` and is not run |
| App.RunsOnlyAllowed | server/app.py:19-30 | a command runs exactly when the body is a dict whose `command` is a string with the allowed prefix |
| App.ReplyIgnoresRun | server/app.py:19-30 | a reply given before the run does not depend on what running would do |
| App.NonStringCommand | server/app.py:29-56 | a non-string `command` gets 500 with the `AttributeError` text |
| App.ListBodyIsServerError | server/app.py:20-56 | a list holding `"command"` passes the membership test but fails the subscript, which gives 500 |
| App.AllowedCommandRuns | server/app.py:29-52 | an allowed string command is run, and the reply depends on its outcome alone |
| EndToEnd.KnownBotCommandAllowed | server/app.py:65-69 | every command built for a catalog bot type passes `is_command_allowed` (the templates are at src/utils/commandExecutor.ts:13,17,21) |
| EndToEnd.KnownBotCommandRuns | server/app.py:19-52 | posting a command built for a catalog bot runs exactly that command, and the reply is the one for its outcome |
| EndToEnd.UndefinedCommandRefused | server/app.py:29-30 | a command starting with `undefined` fails the allow-list and gets 403 `Command not allowed` |
| EndToEnd.InheritedCommandRefused | src/utils/commandExecutor.ts:29-45 | for an inherited property name the as-written builder gives a non-empty command, which the backend refuses with 403 |
| EndToEnd.ValidFormCommand | src/hooks/useCallForm.ts:85-100 | for a form that passes validation, the as-written command is: for a catalog bot, non-empty and allowed, with the display name in the notice; for an inherited property name, non-empty and refused by the backend, with the bot type in the notice; for any other name, empty |

## Left out

- Strings: Dafny characters are Unicode scalar values, while JavaScript strings are UTF-16. Lone surrogates cannot be written, and `JSON.stringify`'s escaping of them is not modelled.
- Strings.IsJsWhitespace: JavaScript's `\s` and `trim` use a fixed set: the ECMAScript WhiteSpace and LineTerminator code points, with the Unicode `Zs` category as of Unicode 15. A later Unicode version could change it.
- The regular expression engine is not modelled; only the one phone pattern is written out.
- JSON: only the serialisation of an object whose values are strings is modelled, plus a decoder for that form. Numbers, nesting and whitespace tolerance are not modelled.
- Shell safety is not claimed. The metadata sits inside single quotes that the builder does not escape, so a name containing `'` breaks the quoting.
- `src/utils/execCommand.ts` (a simulated executor behind a timer) is not part of this model. The controller takes the executor as a function argument that yields an output or a thrown value.
- CallForm.CallFormController.HandleSubmit: the `await` is a plain call, so state changes made by other handlers while the call is pending are not modelled.
- React's `useState` is not modelled: batched updates, stale closures, and re-rendering. Each setter takes effect immediately in the model.
- CallForm.CallFormController.HandleChange: only the form's two input names are modelled (`name` and `phoneNumber`), plus `botType`, which `Field` also allows. An input with any other `name` attribute is not modelled.
- Notifications are returned as values; the toast library, its position option and its rendering are left out.
- Logging (`console.log`, `console.error`, `logger`) is left out; it has no effect on results.
- `e.preventDefault()` is left out; it concerns the browser event only.
- App: Flask routing, CORS, the port and `debug` settings, and the process launch with `shell=True` are left out. The outcome of `subprocess.run` is an input.
- App: `request.json` is an input, either a decoded value or the message of the exception raised while reading it. Content types and JSON parsing are not modelled.
- App: `jsonify` is modelled as a map from string keys to strings; the HTTP headers are left out.
- App.PyValue: JSON floats are modelled as reals; NaN, infinities and rounding are left out. They only affect truth testing.
- App: exception messages follow CPython 3.12 wording. Other versions word some of them differently.
- The presentational components are left out: the form layout, the inputs, the buttons and the page. The select offers exactly the catalog keys (src/components/form/BotTypeSelect.tsx:40), but the model does not assume this.
- CallForm.SelectedBotName: it promises no more than that the name is the display name or the bot type. The exact choice is given by `SelectedBotNameOfCatalog` for catalog entries.

## Findings

| source | as written | input that shows it | evidently intended | confidence | as-written member | corrected member |
|---|---|---|---|---|---|---|
| src/utils/commandExecutor.ts:29-33 | `botTypeCommandMap[botType]` is a plain property read on an object literal, so it also finds members inherited from `Object.prototype`. Those members are truthy, so the guard passes, and `botConfig.command` is `undefined` | bot type `toString`: the builder returns `undefined --metadata '{...}' --api-key devkey --api-secret secret` instead of `''` | every name outside the three catalog keys gives `''`, so the form shows "Failed to generate command" | not executed; the form's select only offers catalog keys, so only a crafted call reaches it | CommandExecutor.InheritedPropertyIsNotRejected | CommandExecutor.CorrectedRejectsInherited |

The catalog and command facts (`KnownBotCommand`, `EndToEnd.KnownBotCommandAllowed`) are stated for the corrected `CommandExecutor.ExecuteCliCommand`. The form controller calls the builder as written, as `handleSubmit` does (src/hooks/useCallForm.ts:94). The two builders agree on every catalog key, by the second ensures of `ExecuteCliCommandAsWritten`. `EndToEnd.ValidFormCommand` shows what the as-written builder means for a submitted form.

/** Facts that join the browser's command builder to the backend's
    allow-list: what the form can produce is what the backend runs. */
module EndToEnd {
  import opened Strings
  import opened CommandExecutor
  import opened CallForm
  import opened App

  /** Every command built for a catalog entry passes `is_command_allowed`. */
  lemma KnownBotCommandAllowed(botType: string, phoneNumber: string, name: string)
    requires botType in Catalog
    ensures IsCommandAllowed(PyStr(ExecuteCliCommand(botType, phoneNumber, name))) == Return(true)
  {
    var template := Catalog[botType].command;
    var r := ExecuteCliCommand(botType, phoneNumber, name);
    KnownBotCommand(botType, phoneNumber, name);
    CatalogShape();
    StartsWithAppend(template, DispatchCreate, MetadataFlag);
    StartsWithTrans(r, template + MetadataFlag, DispatchCreate);
    AllowedIff(PyStr(r));
  }

  /** Posting such a command as `{"command": ...}` reaches `subprocess.run`
      with exactly that command, and the reply is the one for its outcome. */
  lemma KnownBotCommandRuns(botType: string, phoneNumber: string, name: string, run: string -> RunOutcome)
    requires botType in Catalog
    ensures var c := ExecuteCliCommand(botType, phoneNumber, name);
      Screen(Json(PyDict(map["command" := PyStr(c)]))) == Run(c)
      && ExecuteCommand(Json(PyDict(map["command" := PyStr(c)])), run) == Finish(run(c))
  {
    var c := ExecuteCliCommand(botType, phoneNumber, name);
    KnownBotCommandAllowed(botType, phoneNumber, name);
    AllowedIff(PyStr(c));
    AllowedCommandRuns(map["command" := PyStr(c)], c, run);
  }

  /** A command starting with "undefined" is refused with a 403. */
  lemma UndefinedCommandRefused(c: string, run: string -> RunOutcome)
    requires StartsWith(c, "undefined")
    ensures IsCommandAllowed(PyStr(c)) == Return(false)
    ensures ExecuteCommand(Json(PyDict(map["command" := PyStr(c)])), run) == NotAllowed
  {
    assert c[0] == 'u';
    AllowedIff(PyStr(c));
    RefusedCommand(map["command" := PyStr(c)], c, run);
  }

  /** The command `executeCliCommand` as written builds for an inherited
      property name is non-empty, so the form hands it to the executor;
      it starts with "undefined", so the backend refuses it with a 403. */
  lemma InheritedCommandRefused(botType: string, phoneNumber: string, name: string, run: string -> RunOutcome)
    requires botType in InheritedProperties
    ensures var c := ExecuteCliCommandAsWritten(botType, phoneNumber, name);
      c != "" && IsCommandAllowed(PyStr(c)) == Return(false)
      && ExecuteCommand(Json(PyDict(map["command" := PyStr(c)])), run) == NotAllowed
  {
    var c := ExecuteCliCommandAsWritten(botType, phoneNumber, name);
    assert c == CommandFor("undefined", phoneNumber, name);
    CommandForParts("undefined", phoneNumber, name);
    StartsWithAppend("undefined", "undefined", MetadataFlag);
    StartsWithTrans(c, "undefined" + MetadataFlag, "undefined");
    UndefinedCommandRefused(c, run);
  }

  /** What submitting a valid form builds, by the kind of bot type
      (validation accepts any non-empty one). A catalog bot type gives a
      non-empty command the backend accepts, and the success notification
      names the bot by its display name. An inherited property name gives
      a non-empty command the backend refuses, and the notification shows
      the bot type itself. Any other name gives the empty command. */
  lemma ValidFormCommand(d: FormData)
    requires ExpectedErrors(d) == NoErrors
    ensures var c := ExecuteCliCommandAsWritten(d.botType, d.phoneNumber, d.name);
      (d.botType in Catalog ==>
        c != "" && IsCommandAllowed(PyStr(c)) == Return(true)
        && SelectedBotName(d.botType) == Catalog[d.botType].agentName)
      && (d.botType in InheritedProperties ==>
        c != "" && IsCommandAllowed(PyStr(c)) == Return(false)
        && SelectedBotName(d.botType) == d.botType)
      && (d.botType !in Catalog && d.botType !in InheritedProperties ==> c == "")
  {
    InheritedNotInCatalog();
    if d.botType in Catalog {
      KnownBotCommandAllowed(d.botType, d.phoneNumber, d.name);
      SelectedBotNameOfCatalog(d.botType);
    } else if d.botType in InheritedProperties {
      InheritedCommandRefused(d.botType, d.phoneNumber, d.name, _ => Failed(""));
    }
  }
}

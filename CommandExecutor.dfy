/** The command builder of the web client: a fixed catalog of voice-bot
    types and the construction of the dispatch command line for one call. */
module CommandExecutor {
  import opened Strings
  import opened Json
  import opened Wrappers

  /** One catalog entry: the invocation template and the name shown to users. */
  datatype BotTypeConfig = BotTypeConfig(command: string, agentName: string)

  /** The leading words of every invocation the catalog holds. */
  const DispatchCreate: string := "lk dispatch create"

  /** `botTypeCommandMap`. Each template is written as the dispatch-create
      words followed by the rest of the invocation; the strings are those
      of the source. */
  const Catalog: map<string, BotTypeConfig> := map[
    "openai-multimodal-bot" := BotTypeConfig(
      DispatchCreate + " --new-room --agent-name outbound-multimodel-caller",
      "OpenAI Multimodal Bot"),
    "openai-multimodal-hindi-bot" := BotTypeConfig(
      DispatchCreate + " --new-room --agent-name outbound-multimodel-hindi-caller",
      "OpenAI Multimodal Bot (Hindi)"),
    "azure-based-voice-bot" := BotTypeConfig(
      DispatchCreate + " --new-room --agent-name outbound-azure-caller",
      "Azure Based Voice Bot")
  ]

  /** The organisation name every call carries. */
  const CompanyName: string := "Maxicus"

  /** What follows the template, up to the opening quote of the metadata. */
  const MetadataFlag: string := " --metadata '"

  /** What follows the metadata: the closing quote and the fixed credentials. */
  const AuthFlags: string := "' --api-key devkey --api-secret secret"

  /** The members of the metadata object, in the order the object literal lists them. */
  function MetadataMembers(phoneNumber: string, name: string): seq<Member>
  {
    [Member("phone_number", phoneNumber),
     Member("company_name", CompanyName),
     Member("candidate_name", name)]
  }

  /** `JSON.stringify({phone_number, company_name, candidate_name})`. */
  function Metadata(phoneNumber: string, name: string): string
  {
    StringifyObject(MetadataMembers(phoneNumber, name))
  }

  /** The command line for one catalog entry. */
  function CommandFor(template: string, phoneNumber: string, name: string): string
  {
    template + MetadataFlag + Metadata(phoneNumber, name) + AuthFlags
  }

  /** `executeCliCommand`, with the catalog looked up among its own entries
      only: an unknown bot type gives the empty string, a known one its
      template with the metadata and the credentials appended. */
  function ExecuteCliCommand(botType: string, phoneNumber: string, name: string): (r: string)
    ensures r == "" <==> botType !in Catalog
  {
    if botType !in Catalog then "" else CommandFor(Catalog[botType].command, phoneNumber, name)
  }

  /** The catalog holds exactly the three bot types, each under a
      non-empty display name, and every template is a dispatch-create
      invocation. */
  lemma CatalogShape()
    ensures Catalog.Keys == {"openai-multimodal-bot", "openai-multimodal-hindi-bot", "azure-based-voice-bot"}
    ensures forall k :: k in Catalog ==> StartsWith(Catalog[k].command, DispatchCreate)
    ensures forall k :: k in Catalog ==> Catalog[k].agentName != ""
  {
    forall tail: string ensures StartsWith(DispatchCreate + tail, DispatchCreate) {
      assert (DispatchCreate + tail)[..|DispatchCreate|] == DispatchCreate;
    }
  }

  /** The metadata object reads back as exactly three members, in the order
      phone number, company name, candidate name, with the caller's strings
      as given and the fixed company name. */
  lemma MetadataRoundTrip(phoneNumber: string, name: string)
    ensures ParseObject(Metadata(phoneNumber, name)) == Some(MetadataMembers(phoneNumber, name))
    ensures var ms := ParseObject(Metadata(phoneNumber, name)).value;
      |ms| == 3
      && ms[0].key == "phone_number" && ms[0].value == phoneNumber
      && ms[1].key == "company_name" && ms[1].value == "Maxicus"
      && ms[2].key == "candidate_name" && ms[2].value == name
  {
    ParseStringifyObject(MetadataMembers(phoneNumber, name));
  }

  /** The three parts of a command line can be read off again: the
      template with the metadata flag at the front, the credentials at the
      end, the metadata in between. */
  lemma CommandForParts(template: string, phoneNumber: string, name: string)
    ensures var r := CommandFor(template, phoneNumber, name);
      var head := template + MetadataFlag;
      StartsWith(r, head) && EndsWith(r, AuthFlags)
      && |head| + |AuthFlags| <= |r|
      && r[|head|..|r| - |AuthFlags|] == Metadata(phoneNumber, name)
  {
    ThreeParts(template + MetadataFlag, Metadata(phoneNumber, name), AuthFlags);
  }

  /** A concatenation of three strings gives each of them back. */
  lemma ThreeParts(head: string, middle: string, tail: string)
    ensures var r := head + middle + tail;
      StartsWith(r, head) && EndsWith(r, tail)
      && |head| + |tail| <= |r| && r[|head|..|r| - |tail|] == middle
  {
    var r := head + middle + tail;
    assert r[..|head|] == head;
    assert r[|r| - |tail|..] == tail;
    assert r[|head|..|r| - |tail|] == middle;
  }

  /** For a known bot type the command is the entry's template, the
      metadata flag, a metadata argument that reads back as the three
      members, and the fixed credentials, in that order. */
  lemma KnownBotCommand(botType: string, phoneNumber: string, name: string)
    requires botType in Catalog
    ensures var r := ExecuteCliCommand(botType, phoneNumber, name);
      var head := Catalog[botType].command + MetadataFlag;
      r != ""
      && StartsWith(r, head)
      && EndsWith(r, AuthFlags)
      && |head| + |AuthFlags| <= |r|
      && ParseObject(r[|head|..|r| - |AuthFlags|]) == Some(MetadataMembers(phoneNumber, name))
  {
    CommandForParts(Catalog[botType].command, phoneNumber, name);
    MetadataRoundTrip(phoneNumber, name);
  }

  /** A non-empty string needing no escaping, quoted. */
  lemma QuotePlain(s: string, token: string)
    requires forall i :: 0 <= i < |s| ==> IsPlain(s[i])
    requires token == "\"" + s + "\""
    ensures Quote(s) == token
  {
    EscapePlain(s);
  }

  /** The three-member object as its written pieces. */
  lemma ThreeMembers(ms: seq<Member>)
    requires |ms| == 3
    ensures StringifyObject(ms)
      == "{" + (StringifyMember(ms[0]) + ("," + (StringifyMember(ms[1]) + ("," + (StringifyMember(ms[2]) + "}")))))
  {
    assert StringifyMembersClose(ms[2..]) == StringifyMember(ms[2]) + "}";
    assert StringifyMembersClose(ms[1..]) == StringifyMember(ms[1]) + ("," + StringifyMembersClose(ms[2..])) by {
      assert ms[1..][1..] == ms[2..];
    }
  }

  /** Concatenation regrouped: the nesting `CommandFor` builds, written flat. */
  lemma Flatten(t: string, f: string, a: string, k1: string, v1: string, k2: string, v2: string, k3: string, v3: string)
    ensures t + f + ("{" + ((k1 + ":" + v1) + ("," + ((k2 + ":" + v2) + ("," + ((k3 + ":" + v3) + "}")))))) + a
      == t + f + "{" + k1 + ":" + v1 + "," + k2 + ":" + v2 + "," + k3 + ":" + v3 + "}" + a
  {
    var m3 := k3 + ":" + v3 + "}";
    assert (k2 + ":" + v2) + ("," + ((k3 + ":" + v3) + "}")) == k2 + ":" + v2 + "," + m3;
    assert (k1 + ":" + v1) + ("," + (k2 + ":" + v2 + "," + m3)) == k1 + ":" + v1 + "," + k2 + ":" + v2 + "," + m3;
    var body := k1 + ":" + v1 + "," + k2 + ":" + v2 + "," + m3;
    assert t + f + ("{" + body) == t + f + "{" + body;
  }

  // The six strings of the worked example need no escaping; one lemma
  // each keeps every literal unfolding in a proof of its own.

  lemma QuotedPhoneKey()
    ensures Quote("phone_number") == "\"phone_number\""
  {
    QuotePlain("phone_number", "\"phone_number\"");
  }

  lemma QuotedCompanyKey()
    ensures Quote("company_name") == "\"company_name\""
  {
    QuotePlain("company_name", "\"company_name\"");
  }

  lemma QuotedNameKey()
    ensures Quote("candidate_name") == "\"candidate_name\""
  {
    QuotePlain("candidate_name", "\"candidate_name\"");
  }

  lemma QuotedPhoneValue()
    ensures Quote("+919876543210") == "\"+919876543210\""
  {
    QuotePlain("+919876543210", "\"+919876543210\"");
  }

  lemma QuotedCompanyValue()
    ensures Quote("Maxicus") == "\"Maxicus\""
  {
    QuotePlain("Maxicus", "\"Maxicus\"");
  }

  lemma QuotedNameValue()
    ensures Quote("Asha") == "\"Asha\""
  {
    QuotePlain("Asha", "\"Asha\"");
  }

  /** The worked example of a call to the Azure bot, written token by token. */
  lemma AzureExample()
    ensures ExecuteCliCommand("azure-based-voice-bot", "+919876543210", "Asha")
      == "lk dispatch create" + " --new-room --agent-name outbound-azure-caller"
       + " --metadata '"
       + "{" + "\"phone_number\"" + ":" + "\"+919876543210\""
       + "," + "\"company_name\"" + ":" + "\"Maxicus\""
       + "," + "\"candidate_name\"" + ":" + "\"Asha\"" + "}"
       + "' --api-key devkey --api-secret secret"
  {
    ThreeMembers(MetadataMembers("+919876543210", "Asha"));
    QuotedPhoneKey();
    QuotedCompanyKey();
    QuotedNameKey();
    QuotedPhoneValue();
    QuotedCompanyValue();
    QuotedNameValue();
    Flatten("lk dispatch create" + " --new-room --agent-name outbound-azure-caller", MetadataFlag, AuthFlags,
      "\"phone_number\"", "\"+919876543210\"", "\"company_name\"", "\"Maxicus\"",
      "\"candidate_name\"", "\"Asha\"");
  }

  // As written, `botTypeCommandMap[botType]` is an ordinary property read,
  // so it also finds the members every object inherits from
  // `Object.prototype`. Those are functions (and, for `__proto__`, the
  // prototype object), all truthy, so the unknown-type guard lets them
  // through, and `botConfig.command` is then `undefined`, which the
  // template literal writes as the text "undefined".

  /** The property names every plain object inherits from `Object.prototype`. */
  const InheritedProperties: set<string> := {
    "constructor", "hasOwnProperty", "isPrototypeOf", "propertyIsEnumerable",
    "toLocaleString", "toString", "valueOf", "__proto__",
    "__defineGetter__", "__defineSetter__", "__lookupGetter__", "__lookupSetter__"
  }

  /** No inherited property name is a catalog key: the longest of them
      has 20 characters, the shortest key 21. */
  lemma InheritedNotInCatalog()
    ensures forall k :: k in InheritedProperties ==> k !in Catalog
  {
    CatalogShape();
    assert forall k :: k in InheritedProperties ==> |k| <= 20;
    assert forall k :: k in Catalog ==> |k| >= 21;
  }

  /** `executeCliCommand` as written, with the prototype-chain lookup. */
  function ExecuteCliCommandAsWritten(botType: string, phoneNumber: string, name: string): (r: string)
    ensures botType !in Catalog && botType !in InheritedProperties ==> r == ""
    ensures botType in Catalog ==> r == ExecuteCliCommand(botType, phoneNumber, name)
    ensures botType in InheritedProperties ==> r == CommandFor("undefined", phoneNumber, name)
  {
    InheritedNotInCatalog();
    if botType in Catalog then CommandFor(Catalog[botType].command, phoneNumber, name)
    else if botType in InheritedProperties then CommandFor("undefined", phoneNumber, name)
    else ""
  }

  /** The bot type "toString" is not in the catalog, yet the as-written
      builder returns a non-empty command that starts with "undefined"
      instead of the empty string. */
  lemma InheritedPropertyIsNotRejected(phoneNumber: string, name: string)
    ensures "toString" !in Catalog
    ensures var r := ExecuteCliCommandAsWritten("toString", phoneNumber, name);
      r != "" && StartsWith(r, "undefined" + MetadataFlag)
  {
    assert "toString" !in Catalog;
    CommandForParts("undefined", phoneNumber, name);
  }

  /** The corrected builder rejects every name outside the catalog,
      inherited property names included. */
  lemma CorrectedRejectsInherited(botType: string, phoneNumber: string, name: string)
    requires botType in InheritedProperties
    ensures ExecuteCliCommand(botType, phoneNumber, name) == ""
  {
    InheritedNotInCatalog();
  }
}

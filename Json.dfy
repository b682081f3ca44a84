/** The part of `JSON.stringify` the command builder relies on: quoting a
    string value (the QuoteJSONString step of ECMA-262, which produces the
    string grammar of section 7 of RFC 8259) and serialising a flat object
    whose values are strings, together with a reference decoder for that
    output and the round trip between the two. */
module Json {
  import opened Wrappers

  /** One `"key":"value"` member of a flat object, in insertion order. */
  datatype Member = Member(key: string, value: string)

  /** The lower-case hexadecimal digit of `n`, as `UnicodeEscape` writes it. */
  function HexDigit(n: nat): (c: char)
    requires n < 16
  {
    "0123456789abcdef"[n]
  }

  /** The value of a hexadecimal digit in either case, as a JSON reader accepts it. */
  function HexValue(c: char): (r: Option<nat>)
    ensures r.Some? ==> r.value < 16
  {
    if '0' <= c <= '9' then Some(c as nat - '0' as nat)
    else if 'a' <= c <= 'f' then Some(c as nat - 'a' as nat + 10)
    else if 'A' <= c <= 'F' then Some(c as nat - 'A' as nat + 10)
    else None
  }

  lemma HexRoundTrip(n: nat)
    requires n < 16
    ensures HexValue(HexDigit(n)) == Some(n)
  {
  }

  /** The escape QuoteJSONString emits for one code point. Backspace, tab,
      line feed, form feed and carriage return get their short forms, the
      quotation mark and the reverse solidus are preceded by a reverse
      solidus, every other code point below U+0020 becomes `\u00XX`, and
      everything else is copied. */
  function EscapeChar(c: char): string
  {
    if c == '\U{8}' then "\\b"
    else if c == '\t' then "\\t"
    else if c == '\n' then "\\n"
    else if c == '\U{C}' then "\\f"
    else if c == '\r' then "\\r"
    else if c == '"' then "\\\""
    else if c == '\\' then "\\\\"
    else if c < ' ' then "\\u00" + [HexDigit(c as nat / 16), HexDigit(c as nat % 16)]
    else [c]
  }

  /** The characters between the quotation marks of QuoteJSONString(s). */
  function Escape(s: string): string
  {
    if s == [] then [] else EscapeChar(s[0]) + Escape(s[1..])
  }

  /** A character QuoteJSONString copies unchanged. */
  predicate IsPlain(c: char)
  {
    c >= ' ' && c != '"' && c != '\\'
  }

  /** A string without control characters, quotation marks or reverse
      solidi is its own escape. */
  lemma {:induction false} EscapePlain(s: string)
    requires forall i :: 0 <= i < |s| ==> IsPlain(s[i])
    ensures Escape(s) == s
  {
    if s != [] {
      EscapePlain(s[1..]);
      assert [s[0]] + s[1..] == s;
    }
  }

  /** QuoteJSONString(s). */
  function Quote(s: string): string
  {
    "\"" + Escape(s) + "\""
  }

  /** Escaping never emits a raw control character, and the only quotation
      marks it emits are escaped ones, so a quoted value is a JSON string. */
  lemma EscapeCharIsPrintable(c: char)
    ensures forall i :: 0 <= i < |EscapeChar(c)| ==> EscapeChar(c)[i] >= ' '
  {
  }

  lemma {:induction false} EscapeIsPrintable(s: string)
    ensures forall i :: 0 <= i < |Escape(s)| ==> Escape(s)[i] >= ' '
  {
    if s != [] {
      EscapeIsPrintable(s[1..]);
      EscapeCharIsPrintable(s[0]);
      var e, rest := EscapeChar(s[0]), Escape(s[1..]);
      assert Escape(s) == e + rest;
      forall i | 0 <= i < |e + rest| ensures (e + rest)[i] >= ' ' {
        if i >= |e| { assert (e + rest)[i] == rest[i - |e|]; }
      }
    }
  }

  /** A string value decoded by a JSON reader, and what follows its closing quote. */
  datatype Decoded = Decoded(value: string, rest: string)

  /** The value of four hexadecimal digits, most significant first. */
  function HexQuad(q: string): (r: Option<nat>)
    requires |q| == 4
    ensures r.Some? ==> r.value < 0x10000
  {
    if HexValue(q[0]).None? || HexValue(q[1]).None? || HexValue(q[2]).None? || HexValue(q[3]).None? then None
    else
      var a, b, c, d := HexValue(q[0]).value, HexValue(q[1]).value, HexValue(q[2]).value, HexValue(q[3]).value;
      Some(a * 0x1000 + b * 0x100 + c * 0x10 + d)
  }

  /** The character an escape sequence at the start of `s` stands for, and
      the escape's width. An unknown escape or a malformed `\u` escape is an
      error, and so is a `\u` escape naming a surrogate: the decoder does not
      pair surrogates. */
  function Unescape(s: string): (r: Option<(char, nat)>)
    requires |s| >= 2 && s[0] == '\\'
    ensures r.Some? ==> 2 <= r.value.1 <= |s|
  {
    var e := s[1];
    if e == '"' || e == '\\' || e == '/' then Some((e, 2))
    else if e == 'b' then Some(('\U{8}', 2))
    else if e == 't' then Some(('\t', 2))
    else if e == 'n' then Some(('\n', 2))
    else if e == 'f' then Some(('\U{C}', 2))
    else if e == 'r' then Some(('\r', 2))
    else if e == 'u' && |s| >= 6 then
      match HexQuad(s[2..6])
      case None => None
      case Some(v) => if 0xD800 <= v < 0xE000 then None else Some((v as char, 6))
    else None
  }

  /** Reads the characters of a JSON string token after its opening
      quotation mark, up to and including the closing one. A raw control
      character, a bad escape and a missing closing quote are errors. */
  function DecodeString(s: string): (r: Option<Decoded>)
    ensures r.Some? ==> |r.value.rest| < |s|
  {
    if s == [] then None
    else if s[0] == '"' then Some(Decoded([], s[1..]))
    else if s[0] < ' ' then None
    else
      var step: Option<(char, nat)> :=
        if s[0] != '\\' then Some((s[0], 1))
        else if |s| < 2 then None
        else Unescape(s);
      match step
      case None => None
      case Some((ch, width)) =>
        match DecodeString(s[width..])
        case None => None
        case Some(d) => Some(Decoded([ch] + d.value, d.rest))
  }

  /** Decoding a `\u00XX` escape of a control character gives that character back. */
  lemma DecodeControlEscape(c: char, tail: string)
    requires c < ' '
    requires DecodeString(tail).Some?
    ensures DecodeString("\\u00" + [HexDigit(c as nat / 16), HexDigit(c as nat % 16)] + tail)
      == Some(Decoded([c] + DecodeString(tail).value.value, DecodeString(tail).value.rest))
  {
    var hi, lo := c as nat / 16, c as nat % 16;
    var s := "\\u00" + [HexDigit(hi), HexDigit(lo)] + tail;
    HexRoundTrip(0);
    HexRoundTrip(hi);
    HexRoundTrip(lo);
    assert s[2..6] == ['0', '0', HexDigit(hi), HexDigit(lo)];
    assert HexQuad(s[2..6]) == Some(c as nat);
    assert Unescape(s) == Some((c, 6));
    assert s[6..] == tail;
  }

  /** Decoding a character that needs no escape, or one of the two-character escapes. */
  lemma DecodeShortEscape(c: char, tail: string)
    requires IsPlain(c) || c in ['\U{8}', '\t', '\n', '\U{C}', '\r', '"', '\\']
    requires DecodeString(tail).Some?
    ensures DecodeString(EscapeChar(c) + tail)
      == Some(Decoded([c] + DecodeString(tail).value.value, DecodeString(tail).value.rest))
  {
    var s := EscapeChar(c) + tail;
    if IsPlain(c) {
      assert s == [c] + tail;
      assert s[1..] == tail;
    } else {
      assert |EscapeChar(c)| == 2;
      assert s[2..] == tail;
    }
  }

  /** Decoding the escape of one character gives that character back. */
  lemma DecodeEscapeChar(c: char, tail: string)
    requires DecodeString(tail).Some?
    ensures DecodeString(EscapeChar(c) + tail)
      == Some(Decoded([c] + DecodeString(tail).value.value, DecodeString(tail).value.rest))
  {
    if IsPlain(c) || c in ['\U{8}', '\t', '\n', '\U{C}', '\r', '"', '\\'] {
      DecodeShortEscape(c, tail);
    } else {
      DecodeControlEscape(c, tail);
    }
  }

  /** Round trip: the reader recovers exactly the string the writer quoted,
      and stops right after the closing quotation mark. */
  lemma {:induction false} DecodeEscape(s: string, rest: string)
    ensures DecodeString(Escape(s) + "\"" + rest) == Some(Decoded(s, rest))
  {
    if s == [] {
      assert Escape(s) + "\"" + rest == "\"" + rest;
    } else {
      DecodeEscape(s[1..], rest);
      var tail := Escape(s[1..]) + "\"" + rest;
      assert Escape(s) + "\"" + rest == EscapeChar(s[0]) + tail;
      DecodeEscapeChar(s[0], tail);
      assert [s[0]] + s[1..] == s;
    }
  }

  /** One member as `JSON.stringify` writes it: `"key":"value"`. */
  function StringifyMember(m: Member): string
  {
    Quote(m.key) + ":" + Quote(m.value)
  }

  /** The members `ms`, separated by commas, and the closing brace. */
  function StringifyMembersClose(ms: seq<Member>): string
    requires ms != []
  {
    if |ms| == 1 then StringifyMember(ms[0]) + "}"
    else StringifyMember(ms[0]) + ("," + StringifyMembersClose(ms[1..]))
  }

  /** `JSON.stringify` of an object whose own properties, in insertion
      order, are the members `ms` and whose values are strings: `{}` when
      there are none, otherwise `{`, the members separated by `,`, and `}`.
      No whitespace is emitted, since no indentation is requested. */
  function StringifyObject(ms: seq<Member>): string
  {
    if ms == [] then "{}" else "{" + StringifyMembersClose(ms)
  }

  /** Reads one `"key":"value"` member at the start of `s`. */
  function ParseMember(s: string): (r: Option<(Member, string)>)
    ensures r.Some? ==> |r.value.1| < |s|
  {
    if s == [] || s[0] != '"' then None
    else match DecodeString(s[1..])
      case None => None
      case Some(Decoded(k, r1)) =>
        if |r1| < 2 || r1[0] != ':' || r1[1] != '"' then None
        else match DecodeString(r1[2..])
          case None => None
          case Some(Decoded(v, r2)) => Some((Member(k, v), r2))
  }

  /** Reads the members of a compact flat object after its opening brace,
      up to and including the closing brace, which must end the input. */
  function ParseMembers(s: string): Option<seq<Member>>
    decreases |s|
  {
    match ParseMember(s)
    case None => None
    case Some((m, r)) =>
      if r == "}" then Some([m])
      else if r != [] && r[0] == ',' then
        match ParseMembers(r[1..])
        case None => None
        case Some(tail) => Some([m] + tail)
      else None
  }

  /** A reader for the compact flat objects `StringifyObject` writes: `{`,
      members separated by `,`, `}`, nothing else. Anything else is refused. */
  function ParseObject(s: string): Option<seq<Member>>
  {
    if s == "{}" then Some([])
    else if s != [] && s[0] == '{' then ParseMembers(s[1..])
    else None
  }

  /** How `ParseMember` succeeds: a key token, a colon, a value token. */
  lemma ParseMemberStep(s: string, afterKey: string, k: string, v: string, rest: string)
    requires s != [] && s[0] == '"' && DecodeString(s[1..]) == Some(Decoded(k, afterKey))
    requires |afterKey| >= 2 && afterKey[0] == ':' && afterKey[1] == '"'
    requires DecodeString(afterKey[2..]) == Some(Decoded(v, rest))
    ensures ParseMember(s) == Some((Member(k, v), rest))
  {
  }

  /** What a written member holds after its key: the colon and the quoted value. */
  function AfterKey(m: Member, rest: string): string
  {
    ":" + Quote(m.value) + rest
  }

  /** A written member followed by `rest`, regrouped around the end of the key. */
  lemma MemberRegroup(ek: string, ev: string, rest: string)
    ensures "\"" + ek + "\"" + ":" + ("\"" + ev + "\"") + rest
      == "\"" + (ek + "\"" + (":" + ("\"" + ev + "\"") + rest))
  {
  }

  /** What follows an opening quotation mark. */
  lemma AfterOpenQuote(x: string)
    ensures ("\"" + x)[0] == '"' && ("\"" + x)[1..] == x
  {
  }

  lemma DecodeMemberKey(m: Member, rest: string)
    ensures var s := StringifyMember(m) + rest;
      s != [] && s[0] == '"' && DecodeString(s[1..]) == Some(Decoded(m.key, AfterKey(m, rest)))
  {
    var x := Escape(m.key) + "\"" + AfterKey(m, rest);
    assert StringifyMember(m) + rest == "\"" + x by {
      MemberRegroup(Escape(m.key), Escape(m.value), rest);
    }
    AfterOpenQuote(x);
    DecodeEscape(m.key, AfterKey(m, rest));
  }

  lemma DecodeMemberValue(m: Member, rest: string)
    ensures var a := AfterKey(m, rest);
      |a| >= 2 && a[0] == ':' && a[1] == '"' && DecodeString(a[2..]) == Some(Decoded(m.value, rest))
  {
    var a := AfterKey(m, rest);
    assert a[2..] == Escape(m.value) + "\"" + rest;
    DecodeEscape(m.value, rest);
  }

  /** The reader takes back one member the writer wrote, and nothing more. */
  lemma ParseStringifyMember(m: Member, rest: string)
    ensures ParseMember(StringifyMember(m) + rest) == Some((m, rest))
  {
    DecodeMemberKey(m, rest);
    DecodeMemberValue(m, rest);
    ParseMemberStep(StringifyMember(m) + rest, AfterKey(m, rest), m.key, m.value, rest);
  }

  /** How `ParseMembers` continues after one member: its two successful exits. */
  lemma ParseMembersStep(s: string, m: Member, r: string)
    requires ParseMember(s) == Some((m, r))
    ensures r == "}" ==> ParseMembers(s) == Some([m])
    ensures r != "}" && r != [] && r[0] == ',' && ParseMembers(r[1..]).Some? ==>
      ParseMembers(s) == Some([m] + ParseMembers(r[1..]).value)
  {
  }

  lemma {:induction false} ParseStringifyMembers(ms: seq<Member>)
    requires ms != []
    ensures ParseMembers(StringifyMembersClose(ms)) == Some(ms)
  {
    if |ms| == 1 {
      ParseStringifyMember(ms[0], "}");
      ParseMembersStep(StringifyMembersClose(ms), ms[0], "}");
      assert ms == [ms[0]];
    } else {
      var tail := StringifyMembersClose(ms[1..]);
      ParseStringifyMember(ms[0], "," + tail);
      assert ("," + tail)[1..] == tail;
      ParseStringifyMembers(ms[1..]);
      ParseMembersStep(StringifyMembersClose(ms), ms[0], "," + tail);
      HeadTail(ms);
    }
  }

  /** A non-empty sequence is its head followed by its tail. */
  lemma HeadTail<T>(xs: seq<T>)
    requires xs != []
    ensures [xs[0]] + xs[1..] == xs
  {
  }

  /** Every written member starts with the quotation mark of its key. */
  lemma StringifyMemberHead(m: Member, rest: string)
    ensures var s := StringifyMember(m) + rest; s != [] && s[0] == '"'
  {
    var q := Quote(m.key);
    assert q[0] == '"';
    assert StringifyMember(m)[0] == q[0];
  }

  /** Round trip for the whole object: reading back what `StringifyObject`
      wrote gives the same keys, in the same order, with the same values. */
  lemma ParseStringifyObject(ms: seq<Member>)
    ensures ParseObject(StringifyObject(ms)) == Some(ms)
  {
    if ms != [] {
      var body := StringifyMembersClose(ms);
      var s := "{" + body;
      assert body[0] == '"' by {
        if |ms| == 1 {
          StringifyMemberHead(ms[0], "}");
        } else {
          StringifyMemberHead(ms[0], "," + StringifyMembersClose(ms[1..]));
        }
      }
      assert s[1] == '"' && s != "{}";
      assert s[1..] == body;
      ParseStringifyMembers(ms);
    }
  }
}

/** The two question records (`MCQQuestion`, `FillBlankQuestion`), the
    `clean_question` normaliser both apply to their `question` field, and the
    parse of one model reply into either record. */
module QuestionSchemas {
  import opened Wrappers
  import opened PyStr

  /** A value as it arrives in the model's JSON for the `question` field,
      before normalisation. Floating-point numbers are not modelled. */
  datatype RawValue =
    | Text(s: string)
    | Integer(i: int)
    | Boolean(b: bool)
    | Null
    | List(items: seq<RawValue>)
    | Dict(entries: seq<(string, RawValue)>)

  function DigitChar(d: nat): (c: char)
    requires d < 10
    ensures '0' <= c <= '9'
  {
    ('0' as int + d) as char
  }

  /** Decimal digits of a natural number, as `str(n)` prints them. */
  function NatToString(n: nat): (r: string)
    ensures |r| > 0
    ensures forall k :: 0 <= k < |r| ==> '0' <= r[k] <= '9'
  {
    if n < 10 then [DigitChar(n)] else NatToString(n / 10) + [DigitChar(n % 10)]
  }

  function IntToString(i: int): string
  {
    if i < 0 then "-" + NatToString(-i) else NatToString(i)
  }

  function HexDigit(d: nat): (c: char)
    requires d < 16
  {
    if d < 10 then DigitChar(d) else ('a' as int + (d - 10)) as char
  }

  predicate IsHexDigit(c: char)
  {
    '0' <= c <= '9' || 'a' <= c <= 'f'
  }

  function HexValue(c: char): (d: nat)
    requires IsHexDigit(c)
    ensures d < 16
  {
    if c <= '9' then c as int - '0' as int else c as int - 'a' as int + 10
  }

  /** How `repr()` writes one character of a string it quotes with `quote`:
      the quote and the backslash get a backslash, tab, line feed and carriage
      return their short escapes, other ASCII control characters a `\x`
      escape with two lower-case hex digits, and everything else stays. */
  function EscapeChar(c: char, quote: char): (r: string)
    ensures 1 <= |r| <= 4
  {
    if c == quote || c == '\\' then ['\\', c]
    else if c == '\t' then "\\t"
    else if c == '\n' then "\\n"
    else if c == '\r' then "\\r"
    else if c as int < 32 || c as int == 127 then "\\x" + [HexDigit(c as int / 16), HexDigit(c as int % 16)]
    else [c]
  }

  function EscapeChars(s: string, quote: char): string
  {
    if |s| == 0 then "" else EscapeChar(s[0], quote) + EscapeChars(s[1..], quote)
  }

  /** Python's `repr()` of a string: single quotes, unless the text contains
      a single quote and no double quote, in which case double quotes. */
  function ReprString(s: string): (r: string)
    ensures |r| >= 2 && r[0] == r[|r| - 1]
    ensures r[0] == '"' || r[0] == '\''
  {
    var quote := if '\'' in s && '"' !in s then '"' else '\'';
    [quote] + EscapeChars(s, quote) + [quote]
  }

  /** Reads back the escapes `EscapeChar` writes. */
  function Unescape(s: string): string
    decreases |s|
  {
    if |s| == 0 then ""
    else if s[0] == '\\' && |s| >= 2 then
      if s[1] == 't' then "\t" + Unescape(s[2..])
      else if s[1] == 'n' then "\n" + Unescape(s[2..])
      else if s[1] == 'r' then "\r" + Unescape(s[2..])
      else if s[1] == 'x' && |s| >= 4 && IsHexDigit(s[2]) && IsHexDigit(s[3]) then
        [(HexValue(s[2]) * 16 + HexValue(s[3])) as char] + Unescape(s[4..])
      else [s[1]] + Unescape(s[2..])
    else [s[0]] + Unescape(s[1..])
  }

  lemma HexRoundTrip(d: nat)
    requires d < 16
    ensures IsHexDigit(HexDigit(d)) && HexValue(HexDigit(d)) == d
  {
  }

  /** Reading back one escaped character gives that character. */
  lemma {:induction false} UnescapeEscapeChar(c: char, quote: char, rest: string)
    requires quote == '\'' || quote == '"'
    ensures Unescape(EscapeChar(c, quote) + rest) == [c] + Unescape(rest)
  {
    var e := EscapeChar(c, quote);
    var t := e + rest;
    if c == quote || c == '\\' || c == '\t' || c == '\n' || c == '\r' {
      assert t[2..] == rest;
    } else if c as int < 32 || c as int == 127 {
      var n := c as int;
      HexRoundTrip(n / 16);
      HexRoundTrip(n % 16);
      assert t[4..] == rest;
      assert (n / 16) * 16 + n % 16 == n;
    } else {
      assert t[1..] == rest;
    }
  }

  /** `repr()`'s escaping loses nothing: reading it back gives the text. */
  lemma {:induction false} UnescapeEscapeChars(s: string, quote: char)
    requires quote == '\'' || quote == '"'
    ensures Unescape(EscapeChars(s, quote)) == s
  {
    if |s| > 0 {
      UnescapeEscapeChars(s[1..], quote);
      UnescapeEscapeChar(s[0], quote, EscapeChars(s[1..], quote));
      assert s == [s[0]] + s[1..];
    }
  }

  /** The text between the quotes `repr()` writes reads back to the string. */
  lemma ReprStringRoundTrip(s: string)
    ensures var r := ReprString(s);
            Unescape(r[1..|r| - 1]) == s
  {
    var quote := if '\'' in s && '"' !in s then '"' else '\'';
    var r := ReprString(s);
    assert r[1..|r| - 1] == EscapeChars(s, quote);
    UnescapeEscapeChars(s, quote);
  }

  /** Python's `repr()` of a JSON value. */
  function Repr(v: RawValue): string
    decreases v, 1
  {
    match v
    case Text(s) => ReprString(s)
    case Integer(i) => IntToString(i)
    case Boolean(b) => if b then "True" else "False"
    case Null => "None"
    case List(items) => "[" + ReprItems(items) + "]"
    case Dict(entries) => "{" + ReprEntries(entries) + "}"
  }

  function ReprItems(items: seq<RawValue>): string
    decreases items, 0
  {
    if |items| == 0 then ""
    else if |items| == 1 then Repr(items[0])
    else Repr(items[0]) + ", " + ReprItems(items[1..])
  }

  function ReprEntries(entries: seq<(string, RawValue)>): string
    decreases entries, 0
  {
    if |entries| == 0 then ""
    else
      var value := entries[0].1;
      assert value < entries[0];
      var entry := ReprString(entries[0].0) + ": " + Repr(value);
      if |entries| == 1 then entry else entry + ", " + ReprEntries(entries[1..])
  }

  /** Python's `str()`: a string is itself, anything else is its `repr()`. */
  function Str(v: RawValue): (r: string)
    ensures v.Text? ==> r == v.s
    ensures v.Dict? ==> |r| >= 2 && r[0] == '{' && r[|r| - 1] == '}'
  {
    match v
    case Text(s) => s
    case _ => Repr(v)
  }

  predicate HasKey(entries: seq<(string, RawValue)>, key: string)
  {
    exists k :: 0 <= k < |entries| && entries[k].0 == key
  }

  /** `d.get(key)` on a dict whose keys are distinct: the value bound to `key`. */
  function Lookup(entries: seq<(string, RawValue)>, key: string): (r: Option<RawValue>)
    ensures r.Some? <==> HasKey(entries, key)
    ensures r.Some? ==> exists k :: 0 <= k < |entries| && entries[k] == (key, r.value)
  {
    if |entries| == 0 then None
    else if entries[0].0 == key then Some(entries[0].1)
    else
      var rest := Lookup(entries[1..], key);
      assert forall k :: 1 <= k < |entries| ==> entries[k] == entries[1..][k - 1];
      rest
  }

  /** `clean_question`: a dict yields its `description` value (or its own
      string form when it has none); anything else yields `str(v)`. */
  function CleanQuestion(v: RawValue): (r: RawValue)
    ensures v.Dict? && HasKey(v.entries, "description") ==>
              exists k :: 0 <= k < |v.entries| && v.entries[k] == ("description", r)
    ensures v.Dict? && !HasKey(v.entries, "description") ==>
              r == Text(Str(v)) && |r.s| >= 2 && r.s[0] == '{' && r.s[|r.s| - 1] == '}'
    ensures !v.Dict? ==> r == Text(Str(v))
  {
    if v.Dict? then
      match Lookup(v.entries, "description")
      case Some(d) => d
      case None => Text(Str(v))
    else Text(Str(v))
  }

  /** The `question` field's text after `clean_question`; a cleaned value that
      is not a string fails the field's `str` validation. */
  function QuestionText(raw: RawValue): Option<string>
  {
    match CleanQuestion(raw)
    case Text(s) => Some(s)
    case _ => None
  }

  datatype MCQQuestion = MCQQuestion(question: string, options: seq<string>, correctAnswer: string)

  datatype FillBlankQuestion = FillBlankQuestion(question: string, answer: string)

  /** One reply of the model gateway, already reduced to the JSON shape it
      carried. `Unparseable` covers every gateway error and every reply the
      output parser cannot read. */
  datatype Reply =
    | Unparseable
    | MCQReply(question: RawValue, options: seq<string>, correctAnswer: string)
    | FillReply(question: RawValue, answer: string)

  /** The output parser bound to `MCQQuestion`. */
  function ParseMCQ(reply: Reply): (r: Option<MCQQuestion>)
    ensures r.Some? <==> reply.MCQReply? && QuestionText(reply.question).Some?
    ensures r.Some? ==>
              && r.value.options == reply.options
              && r.value.correctAnswer == reply.correctAnswer
              && Some(r.value.question) == QuestionText(reply.question)
  {
    match reply
    case MCQReply(q, options, answer) =>
      (match QuestionText(q)
       case Some(text) => Some(MCQQuestion(text, options, answer))
       case None => None)
    case _ => None
  }

  /** The output parser bound to `FillBlankQuestion`. */
  function ParseFill(reply: Reply): (r: Option<FillBlankQuestion>)
    ensures r.Some? <==> reply.FillReply? && QuestionText(reply.question).Some?
    ensures r.Some? ==>
              && r.value.answer == reply.answer
              && Some(r.value.question) == QuestionText(reply.question)
  {
    match reply
    case FillReply(q, answer) =>
      (match QuestionText(q)
       case Some(text) => Some(FillBlankQuestion(text, answer))
       case None => None)
    case _ => None
  }

  /** The structural rule `generate_mcq` enforces after parsing. */
  predicate ValidMCQ(q: MCQQuestion)
  {
    |q.options| == 4 && q.correctAnswer in q.options
  }

  /** The structural rule `generate_fill_blank` enforces after parsing. */
  predicate ValidFill(q: FillBlankQuestion)
  {
    Contains(q.question, "___")
  }

  /** Cleaning a plain string is the identity, so cleaning its own text
      output again changes nothing. */
  lemma CleanQuestionIdempotent(v: RawValue)
    ensures CleanQuestion(v).Text? ==> CleanQuestion(CleanQuestion(v)) == CleanQuestion(v)
  {
  }

  /** Both records apply the same rule to `question`: from the same raw value
      they either both reject or both keep the same text. */
  lemma ParsersShareNormalisation(raw: RawValue, options: seq<string>, correct: string, answer: string)
    ensures ParseMCQ(MCQReply(raw, options, correct)).Some? <==> ParseFill(FillReply(raw, answer)).Some?
    ensures ParseMCQ(MCQReply(raw, options, correct)).Some? ==>
              ParseMCQ(MCQReply(raw, options, correct)).value.question == ParseFill(FillReply(raw, answer)).value.question
  {
  }

  /** Re-parsing a reply whose `question` is the already cleaned text yields the same record. */
  lemma ReparseCleanText(reply: Reply)
    requires reply.MCQReply? && ParseMCQ(reply).Some?
    ensures ParseMCQ(MCQReply(Text(ParseMCQ(reply).value.question), reply.options, reply.correctAnswer)) == ParseMCQ(reply)
  {
  }
}

/** `MCServerCommands`: the administrative commands written to a server
    container's standard input, their text form (`to_string`) and the
    form Rust's derived `Debug` gives them, which error messages embed. */
module Commands {
  import opened Outcomes

  /** The closed set of commands; today only `OP(name)`. */
  datatype MCServerCommands = OP(name: string)

  /** `to_string`: the line written to the container's stdin. */
  function Text(c: MCServerCommands): (line: string)
    ensures |line| == |c.name| + 5
    ensures line[..4] == "/op " && line[4..|line| - 1] == c.name
    ensures line[|line| - 1] == '\n'
  {
    match c
    case OP(name) => "/op " + name + "\n"
  }

  /** Reads a stdin line back into the command it encodes. */
  function ParseLine(line: string): Option<MCServerCommands>
  {
    if 5 <= |line| && line[..4] == "/op " && line[|line| - 1] == '\n'
    then Some(OP(line[4..|line| - 1]))
    else None
  }

  /** The text of a command is read back as that same command. */
  lemma ParseText(c: MCServerCommands)
    ensures ParseLine(Text(c)) == Some(c)
  {
  }

  /** Number of occurrences of `x` in `s`. */
  function Occurrences(s: string, x: char): nat
  {
    if s == [] then 0
    else (if s[0] == x then 1 else 0) + Occurrences(s[1..], x)
  }

  lemma {:induction false} OccurrencesAppend(s: string, t: string, x: char)
    ensures Occurrences(s + t, x) == Occurrences(s, x) + Occurrences(t, x)
  {
    if s == [] {
      assert s + t == t;
    } else {
      assert (s + t)[1..] == s[1..] + t;
      OccurrencesAppend(s[1..], t, x);
    }
  }

  lemma {:induction false} OccurrencesAbsent(s: string, x: char)
    requires x !in s
    ensures Occurrences(s, x) == 0
  {
    if s != [] {
      assert s[0] in s;
      assert forall y :: y in s[1..] ==> y in s;
      OccurrencesAbsent(s[1..], x);
    }
  }

  /** A command whose name holds no line break is exactly one line: the
      only newline of its text is the terminating one. */
  lemma SingleLine(c: MCServerCommands)
    requires '\n' !in c.name
    ensures Occurrences(Text(c), '\n') == 1
  {
    OccurrencesAppend("/op " + c.name, "\n", '\n');
    OccurrencesAppend("/op ", c.name, '\n');
    OccurrencesAbsent(c.name, '\n');
  }

  /** The name is written verbatim, so a name holding a line break makes
      the command text span several console lines. */
  lemma MultiLine(c: MCServerCommands)
    requires '\n' in c.name
    ensures Occurrences(Text(c), '\n') >= 2
  {
    OccurrencesAppend("/op " + c.name, "\n", '\n');
    OccurrencesAppend("/op ", c.name, '\n');
    OccurrencesPresent(c.name, '\n');
  }

  lemma {:induction false} OccurrencesPresent(s: string, x: char)
    requires x in s
    ensures Occurrences(s, x) >= 1
  {
    if s[0] != x {
      assert x in s[1..] by {
        var i :| 0 <= i < |s| && s[i] == x;
        assert s[1..][i - 1] == x;
      }
      OccurrencesPresent(s[1..], x);
    }
  }

  // ---------------------------------------------------------------
  // Rust `Debug` formatting, as used by `{:?}` in error messages.
  // ---------------------------------------------------------------

  /** A control character Rust's `Debug` writes as `\u{..}`. */
  predicate IsHexEscaped(c: char)
  {
    (c as int < 32 && c !in "\0\t\n\r") || c as int == 127
  }

  function HexDigit(d: nat): (h: char)
    requires d < 16
  {
    "0123456789abcdef"[d]
  }

  /** The value of a lower-case hexadecimal digit. */
  function HexValue(h: char): Option<nat>
  {
    if '0' <= h <= '9' then Some(h as int - '0' as int)
    else if 'a' <= h <= 'f' then Some(h as int - 'a' as int + 10)
    else None
  }

  /** Lower-case hexadecimal without leading zeros, for a code below 256. */
  function Hex(n: nat): (h: string)
    requires n < 256
  {
    if n < 16 then [HexDigit(n)] else [HexDigit(n / 16), HexDigit(n % 16)]
  }

  /** One character of a string's `Debug` form (`char::escape_debug` with
      double quotes escaped and single quotes kept). */
  function EscapeChar(c: char): string
  {
    if c == '\0' then "\\0"
    else if c == '\t' then "\\t"
    else if c == '\r' then "\\r"
    else if c == '\n' then "\\n"
    else if c == '\\' then "\\\\"
    else if c == '"' then "\\\""
    else if IsHexEscaped(c) then "\\u{" + Hex(c as int) + "}"
    else [c]
  }

  /** The inside of a string's `Debug` form, between its quotes. */
  function Escape(s: string): string
  {
    if s == [] then [] else EscapeChar(s[0]) + Escape(s[1..])
  }

  /** The derived `Debug` form of a command: `OP("<name>")`. */
  function Debug(c: MCServerCommands): string
  {
    "OP(\"" + Escape(c.name) + "\")"
  }

  function Prepend(c: char, r: Option<(string, string)>): Option<(string, string)>
  {
    match r
    case None => None
    case Some((s, rest)) => Some(([c] + s, rest))
  }

  /** Reads the escaped inside of a quoted string up to its closing quote;
      gives the unescaped text and what follows the quote. */
  function ParseQuoted(t: string): Option<(string, string)>
    decreases |t|
  {
    if t == [] then None
    else if t[0] == '"' then Some(([], t[1..]))
    else if t[0] != '\\' then Prepend(t[0], ParseQuoted(t[1..]))
    else if |t| < 2 then None
    else if t[1] in "0trn\\\"" then
      var c := match t[1]
        case '0' => '\0'
        case 't' => '\t'
        case 'r' => '\r'
        case 'n' => '\n'
        case _ => t[1];
      Prepend(c, ParseQuoted(t[2..]))
    else if 5 <= |t| && t[1] == 'u' && t[2] == '{' && HexValue(t[3]).Some? && t[4] == '}' then
      Prepend(HexValue(t[3]).value as char, ParseQuoted(t[5..]))
    else if 6 <= |t| && t[1] == 'u' && t[2] == '{' && HexValue(t[3]).Some?
            && HexValue(t[4]).Some? && t[5] == '}' then
      Prepend((16 * HexValue(t[3]).value + HexValue(t[4]).value) as char, ParseQuoted(t[6..]))
    else None
  }

  /** Reading one escaped character consumes exactly its escape. */
  lemma ParseEscapeChar(c: char, tail: string)
    ensures ParseQuoted(EscapeChar(c) + tail) == Prepend(c, ParseQuoted(tail))
  {
  }

  /** The `Debug` escape of a string is read back exactly, and reading
      stops at the closing quote. */
  lemma {:induction false} ParseEscape(s: string, rest: string)
    ensures ParseQuoted(Escape(s) + "\"" + rest) == Some((s, rest))
  {
    if s == [] {
      assert Escape(s) + "\"" + rest == ['"'] + rest;
    } else {
      var tail := Escape(s[1..]) + "\"" + rest;
      assert Escape(s) + "\"" + rest == EscapeChar(s[0]) + tail;
      ParseEscapeChar(s[0], tail);
      ParseEscape(s[1..], rest);
      assert [s[0]] + s[1..] == s;
    }
  }
}

/** The text that the metadata functions of polarismesh_selector.h store: a JSON
    object whose values are strings (sections 2, 4 and 7 of RFC 8259), written
    without white space and read with the whole grammar of such objects. A
    character stands for one byte of a `std::string`. */
module Json {
  import opened Prelude

  type Entries = seq<(string, string)>

  // ---- Writing ----

  function HexDigit(n: nat): char
    requires n < 16
  {
    "0123456789ABCDEF"[n]
  }

  /** A quote, a backslash and the control characters are escaped, nothing else. */
  function EscapeChar(c: char): string {
    if c == '\"' || c == '\\' then ['\\', c]
    else if c == '\n' then "\\n"
    else if c == '\r' then "\\r"
    else if c == '\t' then "\\t"
    else if c as int == 8 then "\\b"
    else if c as int == 12 then "\\f"
    else if c < ' ' then "\\u00" + [HexDigit(c as int / 16), HexDigit(c as int % 16)]
    else [c]
  }

  function Escape(s: string): string {
    if s == "" then "" else EscapeChar(s[0]) + Escape(s[1..])
  }

  function WriteString(s: string): string {
    "\"" + (Escape(s) + "\"")
  }

  function WriteMember(m: (string, string)): string {
    WriteString(m.0) + (":" + WriteString(m.1))
  }

  /** The members that follow the first one, and the closing brace. */
  function WriteRest(entries: Entries): string {
    if entries == [] then "}"
    else "," + (WriteMember(entries[0]) + WriteRest(entries[1..]))
  }

  function WriteObject(entries: Entries): string {
    if entries == [] then "{}"
    else "{" + (WriteMember(entries[0]) + WriteRest(entries[1..]))
  }

  // ---- Reading ----

  function HexValue(c: char): Option<nat> {
    if '0' <= c <= '9' then Some(c as int - '0' as int)
    else if 'A' <= c <= 'F' then Some(c as int - 'A' as int + 10)
    else if 'a' <= c <= 'f' then Some(c as int - 'a' as int + 10)
    else None
  }

  function Hex4(t: string): (r: Option<nat>)
    ensures r.Some? ==> |t| >= 4 && r.value < 0x1_0000
  {
    if |t| < 4 then None else
    match (HexValue(t[0]), HexValue(t[1]), HexValue(t[2]), HexValue(t[3]))
    case (Some(a), Some(b), Some(c), Some(d)) =>
      if a < 16 && b < 16 && c < 16 && d < 16 then Some(((a * 16 + b) * 16 + c) * 16 + d) else None
    case _ => None
  }

  function Utf8(code: nat): string
    requires code < 0x11_0000
  {
    if code < 0x80 then [code as char]
    else if code < 0x800 then [(0xC0 + code / 64) as char, (0x80 + code % 64) as char]
    else if code < 0x1_0000 then
      [(0xE0 + code / 4096) as char, (0x80 + code / 64 % 64) as char, (0x80 + code % 64) as char]
    else
      [(0xF0 + code / 262144) as char, (0x80 + code / 4096 % 64) as char,
       (0x80 + code / 64 % 64) as char, (0x80 + code % 64) as char]
  }

  /** The escape sequence after a backslash: what it means and what follows. */
  function ReadEscape(t: string): (r: Option<(string, string)>)
    ensures r.Some? ==> |r.value.1| < |t|
  {
    if t == "" then None else
    var rest := t[1..];
    match t[0]
    case '\"' => Some(("\"", rest))
    case '\\' => Some(("\\", rest))
    case '/' => Some(("/", rest))
    case 'b' => Some(([8 as char], rest))
    case 'f' => Some(([12 as char], rest))
    case 'n' => Some(("\n", rest))
    case 'r' => Some(("\r", rest))
    case 't' => Some(("\t", rest))
    case 'u' =>
      if Hex4(rest).None? then None else
      var code := Hex4(rest).value;
      if code < 0xD800 || code > 0xDFFF then Some((Utf8(code), rest[4..])) else
      var low := rest[4..];
      if code > 0xDBFF || |low| < 6 || low[..2] != "\\u" || Hex4(low[2..]).None? then None else
      var code2 := Hex4(low[2..]).value;
      if code2 < 0xDC00 || code2 > 0xDFFF then None
      else Some((Utf8(0x1_0000 + (code - 0xD800) * 1024 + (code2 - 0xDC00)), low[6..]))
    case _ => None
  }

  function Prepend(c: string, r: Option<(string, string)>): Option<(string, string)> {
    if r.None? then None else Some((c + r.value.0, r.value.1))
  }

  /** The characters of a string up to its closing quote, and what follows it. */
  function ReadChars(t: string): (r: Option<(string, string)>)
    ensures r.Some? ==> |r.value.1| < |t|
    decreases |t|
  {
    if t == "" then None
    else if t[0] == '\"' then Some(("", t[1..]))
    else if t[0] == '\\' then
      match ReadEscape(t[1..])
      case None => None
      case Some((c, rest)) => Prepend(c, ReadChars(rest))
    else if t[0] < ' ' then None
    else Prepend([t[0]], ReadChars(t[1..]))
  }

  predicate White(c: char) {
    c in " \t\n\r"
  }

  function Skip(t: string): (r: string)
    ensures |r| <= |t|
  {
    if t != "" && White(t[0]) then Skip(t[1..]) else t
  }

  /** Skips white space and one given character. */
  function Expect(c: char, t: string): (r: Option<string>)
    ensures r.Some? ==> |r.value| < |t|
  {
    var u := Skip(t);
    if u != "" && u[0] == c then Some(u[1..]) else None
  }

  function ReadString(t: string): (r: Option<(string, string)>)
    ensures r.Some? ==> |r.value.1| < |t|
  {
    match Expect('\"', t)
    case None => None
    case Some(u) => ReadChars(u)
  }

  function ReadMember(t: string): (r: Option<((string, string), string)>)
    ensures r.Some? ==> |r.value.1| < |t|
  {
    match ReadString(t)
    case None => None
    case Some((name, t1)) =>
      match Expect(':', t1)
      case None => None
      case Some(t2) =>
        match ReadString(t2)
        case None => None
        case Some((value, t3)) => Some(((name, value), t3))
  }

  /** After a member: a closing brace, or a comma and more members. */
  function ReadRest(t: string): (r: Option<(Entries, string)>)
    decreases |t|
  {
    if Expect('}', t).Some? then Some(([], Expect('}', t).value)) else
    match Expect(',', t)
    case None => None
    case Some(t1) =>
      match ReadMember(t1)
      case None => None
      case Some((m, t2)) =>
        match ReadRest(t2)
        case None => None
        case Some((ms, t3)) => Some(([m] + ms, t3))
  }

  function ReadBody(t: string): Option<(Entries, string)> {
    if Expect('}', t).Some? then Some(([], Expect('}', t).value)) else
    match ReadMember(t)
    case None => None
    case Some((m, t1)) =>
      match ReadRest(t1)
      case None => None
      case Some((ms, t2)) => Some(([m] + ms, t2))
  }

  /** The members of a text that is exactly one object of strings. */
  function ReadObject(t: string): Option<Entries> {
    match Expect('{', t)
    case None => None
    case Some(t1) =>
      match ReadBody(t1)
      case None => None
      case Some((ms, t2)) => if Skip(t2) == "" then Some(ms) else None
  }

  // ---- Reading what was written ----

  lemma HexPair(n: nat, t: string)
    requires n < 32
    ensures Hex4(['0', '0', HexDigit(n / 16), HexDigit(n % 16)] + t) == Some(n)
  {
    var u := ['0', '0', HexDigit(n / 16), HexDigit(n % 16)] + t;
    assert u[0] == u[1] == '0';
    assert HexValue(HexDigit(n % 16)) == Some(n % 16);
    assert HexValue(HexDigit(n / 16)) == Some(n / 16);
  }

  lemma ReadEscapedControl(c: char, t: string)
    requires c < ' '
    ensures
      var digits := ['0', '0', HexDigit(c as int / 16), HexDigit(c as int % 16)];
      ReadChars("\\u" + digits + t) == Prepend([c], ReadChars(t))
  {
    var n := c as int;
    var digits := ['0', '0', HexDigit(n / 16), HexDigit(n % 16)];
    var w := "\\u" + digits + t;
    assert w[1..] == ['u'] + (digits + t);
    assert w[1..][1..] == digits + t && (digits + t)[4..] == t;
    HexPair(n, t);
    assert Utf8(n) == [c];
  }

  lemma ReadEscapedPair(c: char, t: string)
    requires |EscapeChar(c)| == 2
    ensures ReadChars(EscapeChar(c) + t) == Prepend([c], ReadChars(t))
  {
    var d := EscapeChar(c)[1];
    assert (EscapeChar(c) + t)[1..] == [d] + t && ([d] + t)[1..] == t;
    assert EscapeChar(c)[0] == '\\';
    assert ReadEscape([d] + t) == Some(([c], t));
  }

  lemma ReadEscapedChar(c: char, t: string)
    ensures ReadChars(EscapeChar(c) + t) == Prepend([c], ReadChars(t))
  {
    if |EscapeChar(c)| == 2 {
      ReadEscapedPair(c, t);
    } else if c < ' ' {
      ReadEscapedControl(c, t);
      assert EscapeChar(c) == "\\u" + ['0', '0', HexDigit(c as int / 16), HexDigit(c as int % 16)];
    } else {
      assert ([c] + t)[1..] == t;
    }
  }

  lemma ExpectHere(c: char, t: string)
    requires !White(c)
    ensures Expect(c, [c] + t) == Some(t)
  {
    var w := [c] + t;
    assert Skip(w) == w && w[1..] == t;
  }

  lemma ExpectElse(c: char, d: char, t: string)
    requires !White(d) && c != d
    ensures Expect(c, [d] + t) == None
  {
    var w := [d] + t;
    assert Skip(w) == w;
  }

  lemma {:induction false} ReadEscaped(s: string, t: string)
    ensures ReadChars(Escape(s) + ("\"" + t)) == Some((s, t))
  {
    if s == "" {
      assert Escape(s) + ("\"" + t) == "\"" + t;
    } else {
      assert Escape(s) + ("\"" + t) == EscapeChar(s[0]) + (Escape(s[1..]) + ("\"" + t));
      ReadEscapedChar(s[0], Escape(s[1..]) + ("\"" + t));
      ReadEscaped(s[1..], t);
      assert [s[0]] + s[1..] == s;
    }
  }

  lemma ReadWrittenString(s: string, t: string)
    ensures ReadString(WriteString(s) + t) == Some((s, t))
  {
    var inside := Escape(s) + ("\"" + t);
    assert WriteString(s) + t == ['\"'] + inside;
    ExpectHere('\"', inside);
    ReadEscaped(s, t);
  }

  lemma ReadWrittenMember(m: (string, string), t: string)
    ensures ReadMember(WriteMember(m) + t) == Some((m, t))
  {
    var value := WriteString(m.1) + t;
    assert WriteMember(m) + t == WriteString(m.0) + ([':'] + value);
    ReadWrittenString(m.0, [':'] + value);
    ExpectHere(':', value);
    ReadWrittenString(m.1, t);
  }

  lemma ReadRestMore(m: (string, string), t: string, ms: Entries)
    requires ReadRest(t) == Some((ms, ""))
    ensures ReadRest([','] + (WriteMember(m) + t)) == Some(([m] + ms, ""))
  {
    ExpectElse('}', ',', WriteMember(m) + t);
    ExpectHere(',', WriteMember(m) + t);
    ReadWrittenMember(m, t);
  }

  lemma {:induction false} ReadWrittenRest(entries: Entries)
    ensures ReadRest(WriteRest(entries)) == Some((entries, ""))
  {
    if entries == [] {
      assert WriteRest(entries) == ['}'] + "";
      ExpectHere('}', "");
    } else {
      ReadWrittenRest(entries[1..]);
      ReadRestMore(entries[0], WriteRest(entries[1..]), entries[1..]);
      assert WriteRest(entries) == [','] + (WriteMember(entries[0]) + WriteRest(entries[1..]));
      assert [entries[0]] + entries[1..] == entries;
    }
  }

  lemma ReadWrittenBody(entries: Entries)
    requires entries != []
    ensures ReadBody(WriteMember(entries[0]) + WriteRest(entries[1..])) == Some((entries, ""))
  {
    var more := WriteRest(entries[1..]);
    var body := WriteMember(entries[0]) + more;
    assert body == ['\"'] + body[1..];
    ExpectElse('}', '\"', body[1..]);
    ReadWrittenMember(entries[0], more);
    ReadWrittenRest(entries[1..]);
    assert [entries[0]] + entries[1..] == entries;
  }

  /** Every object of strings is read back as it was written, whatever bytes the
      names and values hold. */
  lemma ReadWrittenObject(entries: Entries)
    ensures ReadObject(WriteObject(entries)) == Some(entries)
  {
    var body := WriteObject(entries)[1..];
    assert WriteObject(entries) == ['{'] + body;
    ExpectHere('{', body);
    if entries == [] {
      assert body == ['}'] + "";
      ExpectHere('}', "");
    } else {
      assert body == WriteMember(entries[0]) + WriteRest(entries[1..]);
      ReadWrittenBody(entries);
    }
  }

  // ---- NUL bytes ----

  const NUL: char := 0 as char

  predicate NulFree(s: string) {
    NUL !in s
  }

  lemma {:induction false} EscapeIsNulFree(s: string)
    ensures NulFree(Escape(s))
  {
    if s != "" {
      var c := s[0];
      EscapeIsNulFree(s[1..]);
      assert NulFree(EscapeChar(c)) by {
        if c < ' ' {
          assert HexDigit(c as int / 16) >= '0' && HexDigit(c as int % 16) >= '0';
        }
      }
    }
  }

  lemma {:induction false} WriteRestIsNulFree(entries: Entries)
    ensures NulFree(WriteRest(entries))
  {
    if entries != [] {
      EscapeIsNulFree(entries[0].0);
      EscapeIsNulFree(entries[0].1);
      WriteRestIsNulFree(entries[1..]);
    }
  }

  lemma WriteObjectIsNulFree(entries: Entries)
    ensures NulFree(WriteObject(entries))
  {
    if entries != [] {
      EscapeIsNulFree(entries[0].0);
      EscapeIsNulFree(entries[0].1);
      WriteRestIsNulFree(entries[1..]);
    }
  }
}

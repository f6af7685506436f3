/** What the reader of Json accepts, apart from how it reads: the grammar of objects
    of strings (sections 2, 4 and 7 of RFC 8259), as all the ways to spell one. */
module JsonGrammar {
  import opened Prelude
  import opened Json

  // ---- UTF-8 (section 3 of RFC 3629) ----

  predicate Continues(c: char) {
    0x80 <= c as int < 0xC0
  }

  /** The code point that bytes stand for. */
  function Decode(b: string): Option<int> {
    if |b| == 1 && b[0] as int < 0x80 then
      Some(b[0] as int)
    else if |b| == 2 && 0xC0 <= b[0] as int < 0xE0 && Continues(b[1]) then
      Some((b[0] as int - 0xC0) * 0x40 + (b[1] as int - 0x80))
    else if |b| == 3 && 0xE0 <= b[0] as int < 0xF0 && Continues(b[1]) && Continues(b[2]) then
      Some((b[0] as int - 0xE0) * 0x1000 + (b[1] as int - 0x80) * 0x40 + (b[2] as int - 0x80))
    else if |b| == 4 && 0xF0 <= b[0] as int < 0xF8 && Continues(b[1]) && Continues(b[2]) && Continues(b[3]) then
      Some((b[0] as int - 0xF0) * 0x4_0000 + (b[1] as int - 0x80) * 0x1000
           + (b[2] as int - 0x80) * 0x40 + (b[3] as int - 0x80))
    else None
  }

  lemma Quotients(code: nat)
    ensures code == code / 64 * 64 + code % 64
    ensures code / 64 == code / 4096 * 64 + code / 64 % 64
    ensures code / 4096 == code / 262144 * 64 + code / 4096 % 64
  {
  }

  /** Escaped code points become their shortest UTF-8 bytes. */
  lemma Utf8IsStandard(code: nat)
    requires code < 0x11_0000
    ensures Decode(Utf8(code)) == Some(code)
    ensures |Utf8(code)| == if code < 0x80 then 1 else if code < 0x800 then 2 else if code < 0x1_0000 then 3 else 4
  {
    Quotients(code);
    var b := Utf8(code);
    if code >= 0x1_0000 {
      assert b[1] as int == 0x80 + code / 4096 % 64;
    }
  }

  // ---- Strings ----

  /** A hexadecimal digit and its case. */
  datatype Digit = Digit(value: nat, upper: bool)

  predicate IsHex(d: seq<Digit>) {
    |d| == 4 && forall i :: 0 <= i < 4 ==> d[i].value < 16
  }

  function DigitChar(d: Digit): char
    requires d.value < 16
  {
    if d.value < 10 then ('0' as int + d.value) as char
    else ((if d.upper then 'A' else 'a') as int + (d.value - 10)) as char
  }

  function HexText(d: seq<Digit>): string
    requires IsHex(d)
  {
    [DigitChar(d[0]), DigitChar(d[1]), DigitChar(d[2]), DigitChar(d[3])]
  }

  function HexCode(d: seq<Digit>): nat
    requires IsHex(d)
  {
    d[0].value * 4096 + d[1].value * 256 + d[2].value * 16 + d[3].value
  }

  /** One element of a string, as it may be spelled. */
  datatype Unit =
    | Raw(c: char)
    | Short(c: char)
    | Hex(d: seq<Digit>)
    | Pair(high: seq<Digit>, low: seq<Digit>)

  predicate Good(u: Unit) {
    match u
    case Raw(c) => c >= ' ' && c != '\"' && c != '\\'
    case Short(c) => c in "\"\\/bfnrt"
    case Hex(d) => IsHex(d) && !(0xD800 <= HexCode(d) <= 0xDFFF)
    case Pair(high, low) =>
      IsHex(high) && 0xD800 <= HexCode(high) <= 0xDBFF && IsHex(low) && 0xDC00 <= HexCode(low) <= 0xDFFF
  }

  /** The escape after its backslash, followed by `t`. */
  function AfterBackslash(u: Unit, t: string): string
    requires Good(u) && !u.Raw?
  {
    match u
    case Short(c) => [c] + t
    case Hex(d) => "u" + (HexText(d) + t)
    case Pair(high, low) => "u" + (HexText(high) + ("\\u" + (HexText(low) + t)))
  }

  /** The spelling of one element, followed by `t`. */
  function Spell(u: Unit, t: string): string
    requires Good(u)
  {
    if u.Raw? then [u.c] + t else "\\" + AfterBackslash(u, t)
  }

  function Meaning(u: Unit): string
    requires Good(u)
  {
    match u
    case Raw(c) => [c]
    case Short(c) =>
      if c == 'b' then [8 as char]
      else if c == 't' then [9 as char]
      else if c == 'n' then [10 as char]
      else if c == 'f' then [12 as char]
      else if c == 'r' then [13 as char]
      else [c]
    case Hex(d) => Utf8(HexCode(d))
    case Pair(high, low) => Utf8(0x1_0000 + (HexCode(high) - 0xD800) * 0x400 + (HexCode(low) - 0xDC00))
  }

  predicate AllGood(us: seq<Unit>) {
    forall i :: 0 <= i < |us| ==> Good(us[i])
  }

  /** The spelling of all elements and the closing quote, followed by `t`. */
  function SpellAll(us: seq<Unit>, t: string): string
    requires AllGood(us)
  {
    if us == [] then "\"" + t else Spell(us[0], SpellAll(us[1..], t))
  }

  function MeaningAll(us: seq<Unit>): string
    requires AllGood(us)
  {
    if us == [] then "" else Meaning(us[0]) + MeaningAll(us[1..])
  }

  lemma HexRead(d: seq<Digit>, t: string)
    requires IsHex(d)
    ensures Hex4(HexText(d) + t) == Some(HexCode(d)) && (HexText(d) + t)[4..] == t
  {
    var u := HexText(d) + t;
    assert forall i :: 0 <= i < 4 ==> HexValue(DigitChar(d[i])) == Some(d[i].value);
    assert u[0] == DigitChar(d[0]) && u[1] == DigitChar(d[1]) && u[2] == DigitChar(d[2]) && u[3] == DigitChar(d[3]);
  }

  lemma HexReadOnly(t: string) returns (d: seq<Digit>)
    requires Hex4(t).Some?
    ensures IsHex(d) && t == HexText(d) + t[4..] && HexCode(d) == Hex4(t).value
  {
    d := seq(4, i requires 0 <= i < 4 => Digit(if HexValue(t[i]).Some? then HexValue(t[i]).value else 0, t[i] < 'a'));
    assert forall i :: 0 <= i < 4 ==> HexValue(t[i]).Some? && d[i].value < 16 && DigitChar(d[i]) == t[i];
    assert t[..4] == HexText(d);
  }

  lemma ReadShort(c: char, t: string)
    requires Good(Short(c))
    ensures ReadEscape([c] + t) == Some((Meaning(Short(c)), t))
  {
    var w := [c] + t;
    assert w[0] == c && w[1..] == t;
  }

  lemma ReadHex(d: seq<Digit>, t: string)
    requires Good(Hex(d))
    ensures ReadEscape("u" + (HexText(d) + t)) == Some((Utf8(HexCode(d)), t))
  {
    var w := "u" + (HexText(d) + t);
    assert w[0] == 'u' && w[1..] == HexText(d) + t;
    HexRead(d, t);
  }

  lemma ReadPair(high: seq<Digit>, low: seq<Digit>, t: string)
    requires Good(Pair(high, low))
    ensures ReadEscape(AfterBackslash(Pair(high, low), t)) == Some((Meaning(Pair(high, low)), t))
  {
    var more := "\\u" + (HexText(low) + t);
    var w := "u" + (HexText(high) + more);
    assert w[0] == 'u' && w[1..] == HexText(high) + more;
    HexRead(high, more);
    HexRead(low, t);
    assert more[..2] == "\\u" && more[2..] == HexText(low) + t;
    assert more[6..] == (HexText(low) + t)[4..];
  }

  lemma ReadBackslash(e: string, c: string, t: string)
    requires ReadEscape(e) == Some((c, t))
    ensures ReadChars("\\" + e) == Prepend(c, ReadChars(t))
  {
    assert ("\\" + e)[1..] == e;
  }

  lemma ReadRaw(c: char, t: string)
    requires Good(Raw(c))
    ensures ReadChars([c] + t) == Prepend([c], ReadChars(t))
  {
    assert ([c] + t)[1..] == t;
  }

  lemma EscapeRead(u: Unit, t: string)
    requires Good(u) && !u.Raw?
    ensures ReadEscape(AfterBackslash(u, t)) == Some((Meaning(u), t))
  {
    match u
    case Short(c) => ReadShort(c, t);
    case Hex(d) => ReadHex(d, t);
    case Pair(high, low) => ReadPair(high, low, t);
  }

  lemma ReadUnit(u: Unit, t: string)
    requires Good(u)
    ensures ReadChars(Spell(u, t)) == Prepend(Meaning(u), ReadChars(t))
  {
    if u.Raw? {
      ReadRaw(u.c, t);
    } else {
      EscapeRead(u, t);
      ReadBackslash(AfterBackslash(u, t), Meaning(u), t);
    }
  }

  /** Every spelling of a string is read as what it means. */
  lemma {:induction false} ReadsEveryString(us: seq<Unit>, t: string)
    requires AllGood(us)
    ensures ReadChars(SpellAll(us, t)) == Some((MeaningAll(us), t))
  {
    if us == [] {
      assert ("\"" + t)[1..] == t;
    } else {
      ReadUnit(us[0], SpellAll(us[1..], t));
      ReadsEveryString(us[1..], t);
    }
  }

  lemma PairOnly(t: string, d: seq<Digit>, after: string) returns (u: Unit, rest: string)
    requires IsHex(d) && t == "u" + (HexText(d) + after) && 0xD800 <= HexCode(d) <= 0xDFFF && ReadEscape(t).Some?
    ensures Good(u) && !u.Raw? && t == AfterBackslash(u, rest)
  {
    HexRead(d, after);
    assert t[1..] == HexText(d) + after;
    var d2 := HexReadOnly(after[2..]);
    u, rest := Pair(d, d2), after[6..];
    assert after[2..][4..] == rest;
    assert after == "\\u" + (HexText(d2) + rest);
  }

  lemma EscapeOnly(t: string) returns (u: Unit, rest: string)
    requires ReadEscape(t).Some?
    ensures Good(u) && !u.Raw? && t == AfterBackslash(u, rest)
  {
    if t[0] == 'u' {
      var d := HexReadOnly(t[1..]);
      var after := t[1..][4..];
      assert t == "u" + (HexText(d) + after);
      if 0xD800 <= HexCode(d) <= 0xDFFF {
        u, rest := PairOnly(t, d, after);
      } else {
        u, rest := Hex(d), after;
      }
    } else {
      u, rest := Short(t[0]), t[1..];
      assert t == [t[0]] + rest;
    }
  }

  lemma UnitOnly(t: string) returns (u: Unit, rest: string)
    requires ReadChars(t).Some? && t[0] != '\"'
    ensures Good(u) && t == Spell(u, rest) && |rest| < |t|
  {
    if t[0] == '\\' {
      u, rest := EscapeOnly(t[1..]);
      assert t == "\\" + t[1..];
    } else {
      u, rest := Raw(t[0]), t[1..];
      assert t == [t[0]] + rest;
    }
  }

  /** And nothing else is read: what is read as a string is one of its spellings. */
  lemma {:induction false} ReadsOnlyStrings(t: string) returns (us: seq<Unit>)
    requires ReadChars(t).Some?
    ensures AllGood(us) && t == SpellAll(us, ReadChars(t).value.1) && ReadChars(t).value.0 == MeaningAll(us)
    decreases |t|
  {
    if t[0] == '\"' {
      us := [];
      assert t == "\"" + t[1..];
    } else {
      var u, rest := UnitOnly(t);
      ReadUnit(u, rest);
      var more := ReadsOnlyStrings(rest);
      us := [u] + more;
      assert us[1..] == more;
    }
  }

  // ---- Objects ----

  predicate Blank(w: string) {
    forall c :: c in w ==> c == ' ' || c == '\t' || c == '\n' || c == '\r'
  }

  /** A member with the white space before its name, colon and value. */
  datatype Member = Member(w0: string, name: seq<Unit>, w1: string, w2: string, value: seq<Unit>)

  predicate GoodMember(m: Member) {
    Blank(m.w0) && Blank(m.w1) && Blank(m.w2) && AllGood(m.name) && AllGood(m.value)
  }

  function SpellMember(m: Member, t: string): string
    requires GoodMember(m)
  {
    m.w0 + ("\"" + SpellAll(m.name, m.w1 + (":" + (m.w2 + ("\"" + SpellAll(m.value, t))))))
  }

  /** A further member, with the white space before its comma. */
  datatype Further = Further(w: string, member: Member)

  predicate AllFurther(ms: seq<Further>) {
    forall i :: 0 <= i < |ms| ==> Blank(ms[i].w) && GoodMember(ms[i].member)
  }

  function SpellFurther(ms: seq<Further>, w: string, t: string): string
    requires AllFurther(ms)
  {
    if ms == [] then w + ("}" + t)
    else ms[0].w + ("," + SpellMember(ms[0].member, SpellFurther(ms[1..], w, t)))
  }

  /** An object, with white space around its braces. */
  datatype Object =
    | Empty(w0: string, w1: string, w2: string)
    | Full(w0: string, first: Member, further: seq<Further>, w1: string, w2: string)

  predicate GoodObject(o: Object) {
    && Blank(o.w0) && Blank(o.w1) && Blank(o.w2)
    && (o.Full? ==> GoodMember(o.first) && AllFurther(o.further))
  }

  function SpellObject(o: Object): string
    requires GoodObject(o)
  {
    o.w0 + ("{" + match o
                  case Empty(_, w1, w2) => w1 + ("}" + w2)
                  case Full(_, first, further, w1, w2) => SpellMember(first, SpellFurther(further, w1, w2)))
  }

  function MemberMeaning(m: Member): (string, string)
    requires GoodMember(m)
  {
    (MeaningAll(m.name), MeaningAll(m.value))
  }

  function FurtherMeaning(ms: seq<Further>): Entries
    requires AllFurther(ms)
  {
    if ms == [] then [] else [MemberMeaning(ms[0].member)] + FurtherMeaning(ms[1..])
  }

  function ObjectMeaning(o: Object): Entries
    requires GoodObject(o)
  {
    if o.Empty? then [] else [MemberMeaning(o.first)] + FurtherMeaning(o.further)
  }

  lemma {:induction false} SkipsBlank(w: string, t: string)
    requires Blank(w) && (t == "" || !White(t[0]))
    ensures Skip(w + t) == t
  {
    if w == "" {
      assert w + t == t;
    } else {
      assert w[0] in w;
      assert (w + t)[1..] == w[1..] + t;
      assert forall c :: c in w[1..] ==> c in w;
      SkipsBlank(w[1..], t);
    }
  }

  lemma ExpectAfterBlank(c: char, w: string, d: char, t: string)
    requires Blank(w) && !White(d)
    ensures Expect(c, w + ([d] + t)) == if c == d then Some(t) else None
  {
    SkipsBlank(w, [d] + t);
    assert ([d] + t)[1..] == t;
  }

  lemma {:induction false} SkipsOnlyBlank(t: string) returns (w: string)
    ensures Blank(w) && t == w + Skip(t)
  {
    if t != "" && White(t[0]) {
      var more := SkipsOnlyBlank(t[1..]);
      w := [t[0]] + more;
      assert t == [t[0]] + t[1..];
    } else {
      w := "";
    }
  }

  lemma ExpectOnly(c: char, t: string) returns (w: string)
    requires Expect(c, t).Some?
    ensures Blank(w) && t == w + ([c] + Expect(c, t).value)
  {
    w := SkipsOnlyBlank(t);
    assert Skip(t) == [c] + Skip(t)[1..];
  }

  lemma ReadsEveryMember(m: Member, t: string)
    requires GoodMember(m)
    ensures ReadMember(SpellMember(m, t)) == Some((MemberMeaning(m), t))
  {
    var value := SpellAll(m.value, t);
    var colon := m.w1 + (":" + (m.w2 + ("\"" + value)));
    ExpectAfterBlank('\"', m.w0, '\"', SpellAll(m.name, colon));
    ReadsEveryString(m.name, colon);
    ExpectAfterBlank(':', m.w1, ':', m.w2 + ("\"" + value));
    ExpectAfterBlank('\"', m.w2, '\"', value);
    ReadsEveryString(m.value, t);
  }

  lemma {:induction false} ReadsEveryFurther(ms: seq<Further>, w: string, t: string)
    requires AllFurther(ms) && Blank(w)
    ensures ReadRest(SpellFurther(ms, w, t)) == Some((FurtherMeaning(ms), t))
  {
    if ms == [] {
      ExpectAfterBlank('}', w, '}', t);
    } else {
      var more := SpellFurther(ms[1..], w, t);
      var member := SpellMember(ms[0].member, more);
      ExpectAfterBlank('}', ms[0].w, ',', member);
      ExpectAfterBlank(',', ms[0].w, ',', member);
      ReadsEveryMember(ms[0].member, more);
      ReadsEveryFurther(ms[1..], w, t);
    }
  }

  lemma ReadsEveryBody(first: Member, further: seq<Further>, w1: string, t: string)
    requires GoodMember(first) && AllFurther(further) && Blank(w1)
    ensures
      ReadBody(SpellMember(first, SpellFurther(further, w1, t)))
      == Some(([MemberMeaning(first)] + FurtherMeaning(further), t))
  {
    var more := SpellFurther(further, w1, t);
    var body := SpellMember(first, more);
    assert body == first.w0 + ("\"" + body[|first.w0| + 1..]);
    ExpectAfterBlank('}', first.w0, '\"', body[|first.w0| + 1..]);
    ReadsEveryMember(first, more);
    ReadsEveryFurther(further, w1, t);
  }

  /** Every spelling of an object of strings, with any white space and any escapes, is
      read as what it means. */
  lemma ReadsEveryObject(o: Object)
    requires GoodObject(o)
    ensures ReadObject(SpellObject(o)) == Some(ObjectMeaning(o))
  {
    SkipsBlank(o.w2, "");
    assert o.w2 + "" == o.w2;
    if o.Empty? {
      ExpectAfterBlank('{', o.w0, '{', o.w1 + ("}" + o.w2));
      ExpectAfterBlank('}', o.w1, '}', o.w2);
    } else {
      ExpectAfterBlank('{', o.w0, '{', SpellMember(o.first, SpellFurther(o.further, o.w1, o.w2)));
      ReadsEveryBody(o.first, o.further, o.w1, o.w2);
    }
  }

  lemma ReadsOnlyMembers(t: string) returns (m: Member)
    requires ReadMember(t).Some?
    ensures GoodMember(m) && t == SpellMember(m, ReadMember(t).value.1) && ReadMember(t).value.0 == MemberMeaning(m)
  {
    var w0 := ExpectOnly('\"', t);
    var t1 := Expect('\"', t).value;
    var name := ReadsOnlyStrings(t1);
    var t2 := ReadChars(t1).value.1;
    var w1 := ExpectOnly(':', t2);
    var t3 := Expect(':', t2).value;
    var w2 := ExpectOnly('\"', t3);
    var value := ReadsOnlyStrings(Expect('\"', t3).value);
    m := Member(w0, name, w1, w2, value);
  }

  lemma {:induction false} ReadsOnlyFurther(t: string) returns (ms: seq<Further>, w: string)
    requires ReadRest(t).Some?
    ensures AllFurther(ms) && Blank(w)
    ensures t == SpellFurther(ms, w, ReadRest(t).value.1) && ReadRest(t).value.0 == FurtherMeaning(ms)
    decreases |t|
  {
    if Expect('}', t).Some? {
      ms := [];
      w := ExpectOnly('}', t);
    } else {
      var comma := ExpectOnly(',', t);
      var t1 := Expect(',', t).value;
      var m := ReadsOnlyMembers(t1);
      var more;
      more, w := ReadsOnlyFurther(ReadMember(t1).value.1);
      ms := [Further(comma, m)] + more;
      assert ms[1..] == more;
    }
  }

  /** And nothing else is read: a text that is read is one of the spellings of what it
      is read as; all other texts fail the library's assertion. */
  lemma ReadsOnlyObjects(t: string) returns (o: Object)
    requires ReadObject(t).Some?
    ensures GoodObject(o) && t == SpellObject(o) && ReadObject(t) == Some(ObjectMeaning(o))
  {
    var w0 := ExpectOnly('{', t);
    var t1 := Expect('{', t).value;
    var after := ReadBody(t1).value.1;
    var w2 := SkipsOnlyBlank(after);
    assert w2 + "" == w2;
    if Expect('}', t1).Some? {
      var w1 := ExpectOnly('}', t1);
      o := Empty(w0, w1, w2);
    } else {
      var first := ReadsOnlyMembers(t1);
      var further, w1 := ReadsOnlyFurther(ReadMember(t1).value.1);
      o := Full(w0, first, further, w1, w2);
    }
  }

  /** A text is read exactly if it spells an object of strings. */
  ghost predicate SpellsObject(t: string) {
    exists o: Object :: GoodObject(o) && t == SpellObject(o)
  }

  lemma ReadIffSpelled(t: string)
    ensures ReadObject(t).Some? <==> SpellsObject(t)
  {
    if ReadObject(t).Some? {
      var o := ReadsOnlyObjects(t);
    }
    if SpellsObject(t) {
      var o: Object :| GoodObject(o) && t == SpellObject(o);
      ReadsEveryObject(o);
    }
  }

  // ---- The writer's choice ----

  function ByCode(n: nat): Unit
    requires n < 256
  {
    Hex([Digit(0, true), Digit(0, true), Digit(n / 16, true), Digit(n % 16, true)])
  }

  /** How the library spells a character: as itself, by a letter, or by its code. */
  function Written(c: char): Unit {
    match c as int
    case 8 => Short('b')
    case 9 => Short('t')
    case 10 => Short('n')
    case 12 => Short('f')
    case 13 => Short('r')
    case 34 => Short('\"')
    case 92 => Short('\\')
    case n => if n >= 32 then Raw(c) else ByCode(n)
  }

  lemma CodeIsSpelling(n: nat, t: string)
    requires n < 32
    ensures Good(ByCode(n)) && Meaning(ByCode(n)) == [n as char]
    ensures "\\u00" + [HexDigit(n / 16), HexDigit(n % 16)] + t == Spell(ByCode(n), t)
  {
    assert HexDigit(n % 16) == DigitChar(Digit(n % 16, true));
    assert HexDigit(n / 16) == DigitChar(Digit(n / 16, true));
    var text := "\\u00" + [HexDigit(n / 16), HexDigit(n % 16)];
    assert text + t == "\\" + ("u" + (HexText(ByCode(n).d) + t));
  }

  lemma LetterIsSpelling(c: char, letter: char, t: string)
    requires Written(c) == Short(letter)
    ensures Good(Written(c)) && Meaning(Written(c)) == [c]
    ensures EscapeChar(c) + t == Spell(Written(c), t)
  {
    assert EscapeChar(c) == ['\\', letter];
    assert ['\\', letter] + t == "\\" + ([letter] + t);
  }

  lemma EscapesAreSpellings(c: char, t: string)
    ensures Good(Written(c)) && Meaning(Written(c)) == [c]
    ensures EscapeChar(c) + t == Spell(Written(c), t)
  {
    match Written(c)
    case Raw(_) => assert EscapeChar(c) == [c];
    case Short(letter) => LetterIsSpelling(c, letter, t);
    case _ => CodeIsSpelling(c as int, t);
  }
}

/** Compact JSON as the services write it: Go's string escaping (HTML escaping on), flat
    objects of strings, naturals and booleans, and a reader for exactly that format.
    The reader follows RFC 8259 section 7 for strings. */
module Json {
  datatype Option<+T> = None | Some(value: T)

  datatype Value = Str(s: string) | Num(n: nat) | Bool(b: bool)
  datatype Member = Member(key: string, value: Value)

  // ----- printing -----

  function Hex(n: nat): char
    requires n < 16
  {
    if n < 10 then '0' + (n as char) else 'a' + ((n - 10) as char)
  }

  function Unicode4(c: char): string
    requires c as int < 0x10000
  {
    var n := c as int;
    [Hex(n / 4096 % 16), Hex(n / 256 % 16), Hex(n / 16 % 16), Hex(n % 16)]
  }

  function Escape1(c: char): string {
    if c == '"' then "\\\""
    else if c == '\\' then "\\\\"
    else if c == '\U{8}' then "\\b"
    else if c == '\U{c}' then "\\f"
    else if c == '\n' then "\\n"
    else if c == '\r' then "\\r"
    else if c == '\t' then "\\t"
    else if c < ' ' || c == '<' || c == '>' || c == '&' || c == '\U{2028}' || c == '\U{2029}' then
      ['\\', 'u'] + Unicode4(c)
    else [c]
  }

  function Escape(s: string): string {
    if s == "" then "" else Escape1(s[0]) + Escape(s[1..])
  }

  function Quote(s: string): string {
    ['"'] + Escape(s) + ['"']
  }

  function Itoa(n: nat): string {
    if n < 10 then ['0' + (n as char)] else Itoa(n / 10) + ['0' + ((n % 10) as char)]
  }

  function PrintValue(v: Value): string {
    match v
    case Str(s) => Quote(s)
    case Num(n) => Itoa(n)
    case Bool(b) => if b then "true" else "false"
  }

  // The text of the members and the closing brace.
  function PrintMembers(ms: seq<Member>): string
    requires ms != []
  {
    Quote(ms[0].key) + [':'] + PrintValue(ms[0].value) +
    (if |ms| == 1 then ['}'] else [','] + PrintMembers(ms[1..]))
  }

  function PrintObject(ms: seq<Member>): string
    requires ms != []
  {
    ['{'] + PrintMembers(ms)
  }

  // ----- reading -----

  function HexValue(c: char): Option<nat> {
    if '0' <= c <= '9' then Some((c - '0') as nat)
    else if 'a' <= c <= 'f' then Some((c - 'a') as nat + 10)
    else if 'A' <= c <= 'F' then Some((c - 'A') as nat + 10)
    else None
  }

  // The scalar value written by four hexadecimal digits; surrogate halves are rejected.
  function Hex4(s: string): Option<char>
    requires |s| == 4
  {
    match (HexValue(s[0]), HexValue(s[1]), HexValue(s[2]), HexValue(s[3]))
    case (Some(a), Some(b), Some(c), Some(d)) =>
      var n := 4096 * a + 256 * b + 16 * c + d;
      if n < 0xD800 || 0xE000 <= n < 0x10000 then Some(n as char) else None
    case _ => None
  }

  function ShortEscape(c: char): Option<char> {
    if c == '"' || c == '\\' || c == '/' then Some(c)
    else if c == 'b' then Some('\U{8}')
    else if c == 'f' then Some('\U{c}')
    else if c == 'n' then Some('\n')
    else if c == 'r' then Some('\r')
    else if c == 't' then Some('\t')
    else None
  }

  function Prepend(c: char, r: Option<(string, string)>): Option<(string, string)> {
    match r
    case None => None
    case Some((text, rest)) => Some(([c] + text, rest))
  }

  // Reads a string body up to and including its closing quote: the text and what follows.
  function ReadString(s: string): (r: Option<(string, string)>)
    ensures r.Some? ==> |r.value.1| < |s|
  {
    if s == "" then None
    else if s[0] == '"' then Some(("", s[1..]))
    else if s[0] != '\\' then Prepend(s[0], ReadString(s[1..]))
    else if |s| >= 6 && s[1] == 'u' then
      match Hex4(s[2..6]) {
        case None => None
        case Some(c) => Prepend(c, ReadString(s[6..]))
      }
    else if |s| < 2 then None
    else
      match ShortEscape(s[1]) {
        case None => None
        case Some(c) => Prepend(c, ReadString(s[2..]))
      }
  }

  predicate Digit(c: char) {
    '0' <= c <= '9'
  }

  function ReadDigits(s: string, acc: nat): (r: (nat, string))
    ensures |r.1| <= |s|
  {
    if s == "" || !Digit(s[0]) then (acc, s)
    else ReadDigits(s[1..], 10 * acc + (s[0] - '0') as nat)
  }

  function ReadValue(s: string): (r: Option<(Value, string)>)
    ensures r.Some? ==> |r.value.1| < |s|
  {
    if s == "" then None
    else if s[0] == '"' then
      match ReadString(s[1..]) {
        case None => None
        case Some((text, rest)) => Some((Str(text), rest))
      }
    else if Digit(s[0]) then
      var (n, rest) := ReadDigits(s[1..], (s[0] - '0') as nat);
      Some((Num(n), rest))
    else if |s| >= 4 && s[..4] == "true" then Some((Bool(true), s[4..]))
    else if |s| >= 5 && s[..5] == "false" then Some((Bool(false), s[5..]))
    else None
  }

  function ReadMember(s: string): (r: Option<(Member, string)>)
    ensures r.Some? ==> |r.value.1| < |s|
  {
    if s == "" || s[0] != '"' then None
    else
      match ReadString(s[1..])
      case None => None
      case Some((key, colon)) =>
        if colon == "" || colon[0] != ':' then None
        else
          match ReadValue(colon[1..])
          case None => None
          case Some((v, rest)) => Some((Member(key, v), rest))
  }

  function ReadMembers(s: string): Option<seq<Member>>
    decreases |s|
  {
    match ReadMember(s)
    case None => None
    case Some((m, rest)) =>
      if rest == "}" then Some([m])
      else if rest == "" || rest[0] != ',' then None
      else
        match ReadMembers(rest[1..])
        case None => None
        case Some(ms) => Some([m] + ms)
  }

  function ReadObject(s: string): Option<seq<Member>> {
    if s == "" || s[0] != '{' then None else ReadMembers(s[1..])
  }

  // ----- round trip -----

  lemma HexRoundTrip(n: nat)
    requires n < 16
    ensures HexValue(Hex(n)) == Some(n)
  {
  }

  lemma HexDigits(n: nat)
    requires n < 0x10000
    ensures n == 4096 * (n / 4096 % 16) + 256 * (n / 256 % 16) + 16 * (n / 16 % 16) + n % 16
  {
    assert n / 256 == n / 16 / 16 && n / 4096 == n / 16 / 16 / 16;
  }

  lemma Unicode4RoundTrip(c: char)
    requires c as int < 0x10000
    ensures Hex4(Unicode4(c)) == Some(c)
  {
    var n := c as int;
    HexDigits(n);
    HexRoundTrip(n / 4096 % 16);
    HexRoundTrip(n / 256 % 16);
    HexRoundTrip(n / 16 % 16);
    HexRoundTrip(n % 16);
  }

  lemma ReadPlain(c: char, t: string)
    requires c != '"' && c != '\\'
    ensures ReadString([c] + t) == Prepend(c, ReadString(t))
  {
    assert ([c] + t)[1..] == t;
  }

  lemma ReadShort(e: string, c: char, t: string)
    requires |e| == 2 && e[0] == '\\' && e[1] != 'u' && ShortEscape(e[1]) == Some(c)
    ensures ReadString(e + t) == Prepend(c, ReadString(t))
  {
    assert (e + t)[2..] == t;
  }

  lemma ReadUnicode(c: char, t: string)
    requires c as int < 0x10000
    ensures ReadString(['\\', 'u'] + Unicode4(c) + t) == Prepend(c, ReadString(t))
  {
    var s := ['\\', 'u'] + Unicode4(c) + t;
    assert s[2..6] == Unicode4(c) && s[6..] == t;
    Unicode4RoundTrip(c);
  }

  lemma ReadEscape1(c: char, t: string)
    ensures ReadString(Escape1(c) + t) == Prepend(c, ReadString(t))
  {
    if |Escape1(c)| == 1 {
      ReadPlain(c, t);
    } else if |Escape1(c)| == 2 {
      ReadShort(Escape1(c), c, t);
    } else {
      ReadUnicode(c, t);
    }
  }

  // Every text survives quoting: the reader recovers it and stops right after its closing quote.
  lemma {:induction false} QuoteRoundTrip(s: string, rest: string)
    ensures ReadString(Escape(s) + ['"'] + rest) == Some((s, rest))
  {
    if s == "" {
      assert Escape(s) + ['"'] + rest == ['"'] + rest;
    } else {
      var tail := Escape(s[1..]) + ['"'] + rest;
      assert Escape(s) + ['"'] + rest == Escape1(s[0]) + tail;
      ReadEscape1(s[0], tail);
      QuoteRoundTrip(s[1..], rest);
      assert [s[0]] + s[1..] == s;
    }
  }

  lemma EscapeInjective(s: string, t: string)
    requires Escape(s) == Escape(t)
    ensures s == t
  {
    QuoteRoundTrip(s, "");
    QuoteRoundTrip(t, "");
  }

  lemma {:induction false} ReadItoa(n: nat, t: string)
    ensures ReadDigits(Itoa(n) + t, 0) == ReadDigits(t, n)
  {
    var d := '0' + ((n % 10) as char);
    assert ([d] + t)[1..] == t && (d - '0') as nat == n % 10;
    if n >= 10 {
      assert Itoa(n) + t == Itoa(n / 10) + ([d] + t);
      ReadItoa(n / 10, [d] + t);
    }
  }

  lemma {:induction false} ItoaDigits(n: nat)
    ensures Itoa(n) != "" && forall k :: 0 <= k < |Itoa(n)| ==> Digit(Itoa(n)[k])
  {
    if n >= 10 { ItoaDigits(n / 10); }
  }

  lemma NumberRoundTrip(n: nat, rest: string)
    requires rest != "" && !Digit(rest[0])
    ensures ReadValue(Itoa(n) + rest) == Some((Num(n), rest))
  {
    var s := Itoa(n) + rest;
    ItoaDigits(n);
    assert s[0] == Itoa(n)[0];
    ReadItoa(n, rest);
  }

  lemma BoolRoundTrip(b: bool, rest: string)
    ensures ReadValue(PrintValue(Bool(b)) + rest) == Some((Bool(b), rest))
  {
    var s := PrintValue(Bool(b)) + rest;
    if b {
      assert s[0] == 't' && s[..4] == "true" && s[4..] == rest;
    } else {
      assert s[0] == 'f' && s[..5] == "false" && s[5..] == rest && s[..4][0] == 'f';
    }
  }

  lemma ValueRoundTrip(v: Value, rest: string)
    requires rest != "" && !Digit(rest[0])
    ensures ReadValue(PrintValue(v) + rest) == Some((v, rest))
  {
    match v
    case Str(text) =>
      assert (Quote(text) + rest)[1..] == Escape(text) + ['"'] + rest;
      QuoteRoundTrip(text, rest);
    case Num(n) => NumberRoundTrip(n, rest);
    case Bool(b) => BoolRoundTrip(b, rest);
  }

  lemma ReadMemberParts(inner: string, key: string, vt: string, v: Value, rest: string)
    requires ReadString(inner) == Some((key, [':'] + vt + rest))
    requires ReadValue(vt + rest) == Some((v, rest))
    ensures ReadMember(['"'] + inner) == Some((Member(key, v), rest))
  {
    var colon := [':'] + vt + rest;
    var s := ['"'] + inner;
    assert s[1..] == inner;
    assert colon[1..] == vt + rest;
  }

  lemma Regroup(body: string, vt: string, rest: string)
    ensures ['"'] + body + ['"'] + [':'] + vt + rest == ['"'] + (body + ['"'] + ([':'] + vt + rest))
  {
  }

  lemma MemberRoundTrip(m: Member, rest: string)
    requires rest != "" && !Digit(rest[0])
    ensures ReadMember(Quote(m.key) + [':'] + PrintValue(m.value) + rest) == Some((m, rest))
  {
    QuoteRoundTrip(m.key, [':'] + PrintValue(m.value) + rest);
    ValueRoundTrip(m.value, rest);
    ReadMemberParts(Escape(m.key) + ['"'] + ([':'] + PrintValue(m.value) + rest), m.key, PrintValue(m.value), m.value,
                    rest);
    Regroup(Escape(m.key), PrintValue(m.value), rest);
  }

  lemma ReadLast(s: string, m: Member)
    requires ReadMember(s) == Some((m, "}"))
    ensures ReadMembers(s) == Some([m])
  {
  }

  lemma ReadNext(s: string, m: Member, later: string, ms: seq<Member>)
    requires ReadMember(s) == Some((m, [','] + later)) && ReadMembers(later) == Some(ms)
    ensures ReadMembers(s) == Some([m] + ms)
  {
    var rest := [','] + later;
    assert rest[0] == ',' && rest[1..] == later;
  }

  lemma {:induction false} MembersRoundTrip(ms: seq<Member>)
    requires ms != []
    ensures ReadMembers(PrintMembers(ms)) == Some(ms)
  {
    if |ms| == 1 {
      MemberRoundTrip(ms[0], "}");
      ReadLast(PrintMembers(ms), ms[0]);
      assert ms == [ms[0]];
    } else {
      var later := PrintMembers(ms[1..]);
      MemberRoundTrip(ms[0], [','] + later);
      MembersRoundTrip(ms[1..]);
      ReadNext(PrintMembers(ms), ms[0], later, ms[1..]);
      assert ms == [ms[0]] + ms[1..];
    }
  }

  // Reading back a printed object gives its members, in order, whatever texts they hold.
  lemma ObjectRoundTrip(ms: seq<Member>)
    requires ms != []
    ensures ReadObject(PrintObject(ms)) == Some(ms)
  {
    assert PrintObject(ms)[1..] == PrintMembers(ms);
    MembersRoundTrip(ms);
  }

  // ----- the encoder's table -----

  lemma EscapeOne(c: char)
    ensures Escape([c]) == Escape1(c)
  {
    assert [c][1..] == [];
  }

  predicate Special(c: char) {
    c < ' ' || c in ['"', '\\', '<', '>', '&', '\U{2028}', '\U{2029}']
  }

  lemma ShortEscapes()
    ensures Escape(['"']) == "\\\"" && Escape(['\\']) == "\\\\" && Escape(['\U{8}']) == "\\b"
    ensures Escape(['\U{c}']) == "\\f" && Escape(['\n']) == "\\n" && Escape(['\r']) == "\\r" && Escape(['\t']) == "\\t"
  {
    EscapeOne('"');
    EscapeOne('\\');
    EscapeOne('\U{8}');
    EscapeOne('\U{c}');
    EscapeOne('\n');
    EscapeOne('\r');
    EscapeOne('\t');
  }

  lemma HtmlEscapes()
    ensures Escape(['<']) == "\\u003c" && Escape(['>']) == "\\u003e" && Escape(['&']) == "\\u0026"
  {
    EscapeOne('<');
    EscapeOne('>');
    EscapeOne('&');
  }

  lemma HexEscapes()
    ensures Escape(['\U{2028}']) == "\\u2028" && Escape(['\U{2029}']) == "\\u2029"
    ensures Escape(['\0']) == "\\u0000" && Escape(['\U{1f}']) == "\\u001f"
  {
    EscapeOne('\U{2028}');
    EscapeOne('\U{2029}');
    EscapeOne('\0');
    EscapeOne('\U{1f}');
  }

  // The services' encoder, character by character: short escapes, hexadecimal ones for other control characters, for
  // the three that matter in HTML and for the two line separators, and everything else as it is.
  lemma EscapeTable(c: char)
    ensures !Special(c) ==> Escape([c]) == [c]
    ensures Escape(['"']) == "\\\"" && Escape(['\\']) == "\\\\" && Escape(['\U{8}']) == "\\b"
    ensures Escape(['\U{c}']) == "\\f" && Escape(['\n']) == "\\n" && Escape(['\r']) == "\\r" && Escape(['\t']) == "\\t"
    ensures Escape(['<']) == "\\u003c" && Escape(['>']) == "\\u003e" && Escape(['&']) == "\\u0026"
    ensures Escape(['\U{2028}']) == "\\u2028" && Escape(['\U{2029}']) == "\\u2029"
    ensures Escape(['\0']) == "\\u0000" && Escape(['\U{1f}']) == "\\u001f"
  {
    ShortEscapes();
    HtmlEscapes();
    HexEscapes();
    EscapeOne(c);
  }

  // ----- no raw line break -----

  predicate OneLine(s: string) {
    '\n' !in s && '\r' !in s
  }

  lemma {:induction false} EscapeOneLine(s: string)
    ensures OneLine(Escape(s))
  {
    if s != "" {
      EscapeOneLine(s[1..]);
      assert OneLine(Escape1(s[0]));
    }
  }

  lemma ValueOneLine(v: Value)
    ensures OneLine(PrintValue(v))
  {
    match v
    case Str(s) => EscapeOneLine(s);
    case Num(n) => ItoaDigits(n);
    case Bool(_) =>
  }

  lemma {:induction false} MembersOneLine(ms: seq<Member>)
    requires ms != []
    ensures OneLine(PrintMembers(ms))
  {
    EscapeOneLine(ms[0].key);
    ValueOneLine(ms[0].value);
    if |ms| > 1 { MembersOneLine(ms[1..]); }
  }
}

/** encoding/json as far as the payload fingerprint uses it: strings, lists of strings, booleans
    and an object with omitted fields (section 7 of RFC 8259 for the strings), and why no two
    payloads have one encoding. */
module Json {
  import opened Base
  import opened Tokens

  // ---- Strings ----------------------------------------------------------------------------------

  /** The characters Go writes as \uXXXX: controls without a short form, the three that matter
      to HTML, and the two line separators. */
  predicate ByCode(c: char) {
    (c < ' ' && c !in {'\n', '\r', '\t', '\U{0008}', '\U{000C}'}) || c in {'<', '>', '&', '\U{2028}', '\U{2029}'}
  }

  function ShortForm(c: char): Option<char> {
    if c == '"' then Some('"') else if c == '\\' then Some('\\')
    else if c == '\n' then Some('n') else if c == '\r' then Some('r') else if c == '\t' then Some('t')
    else if c == '\U{0008}' then Some('b') else if c == '\U{000C}' then Some('f') else None
  }

  function Escape(c: char): string {
    if ShortForm(c).Some? then ['\\', ShortForm(c).value]
    else if ByCode(c) then
      var v := c as int;
      ['\\', 'u', HexDigit(v / 4096), HexDigit(v / 256 % 16), HexDigit(v / 16 % 16), HexDigit(v % 16)]
    else [c]
  }

  /** The short escapes, by their text. */
  lemma ShortEscapes()
    ensures Escape('"') == "\\\"" && Escape('\\') == "\\\\"
    ensures Escape('\n') == "\\n" && Escape('\r') == "\\r" && Escape('\t') == "\\t"
    ensures Escape(8 as char) == "\\b" && Escape(12 as char) == "\\f"
  {
  }

  /** The characters that matter to HTML, and the two line separators. */
  lemma LongEscapes()
    ensures Escape('<') == "\\u003c" && Escape('>') == "\\u003e" && Escape('&') == "\\u0026"
    ensures Escape(0x2028 as char) == "\\u2028" && Escape(0x2029 as char) == "\\u2029"
  {
  }

  /** The other controls are written by their code; everything else stands for itself. */
  lemma OtherEscapes(c: char)
    ensures c as int < 32 && c as int !in {8, 9, 10, 12, 13} ==>
      Escape(c) == "\\u00" + [if c as int < 16 then '0' else '1', "0123456789abcdef"[c as int % 16]]
    ensures c as int >= 32 && c as int !in {0x22, 0x5C, 0x3C, 0x3E, 0x26, 0x2028, 0x2029} ==> Escape(c) == [c]
  {
    if c as int < 32 { HexLetters(c as int % 16); }
  }

  function Body(s: string): string {
    if s == "" then ['"'] else Escape(s[0]) + Body(s[1..])
  }

  function Quoted(s: string): string {
    ['"'] + Body(s)
  }

  // ---- Reading them back ------------------------------------------------------------------------

  function LongForm(c: char): Option<char> {
    if c == '"' then Some('"') else if c == '\\' then Some('\\')
    else if c == 'n' then Some('\n') else if c == 'r' then Some('\r') else if c == 't' then Some('\t')
    else if c == 'b' then Some('\U{0008}') else if c == 'f' then Some('\U{000C}') else None
  }

  function HexValue(c: char): Option<nat> {
    if '0' <= c <= '9' then Some((c - '0') as nat)
    else if 'a' <= c <= 'f' then Some((c - 'a') as nat + 10) else None
  }

  /** One character, escaped or not, and how much text it took. */
  function ReadChar(text: string): Option<(char, nat)> {
    if text == "" || text[0] == '"' then None
    else if text[0] != '\\' then Some((text[0], 1))
    else if |text| >= 2 && LongForm(text[1]).Some? then Some((LongForm(text[1]).value, 2))
    else if |text| < 6 || text[1] != 'u' then None
    else
      var a :- HexValue(text[2]);
      var b :- HexValue(text[3]);
      var c :- HexValue(text[4]);
      var d :- HexValue(text[5]);
      var v := a * 4096 + b * 256 + c * 16 + d;
      if v < 0xD800 then Some((v as char, 6)) else None
  }

  function ReadBody(text: string): Option<(string, string)> {
    if text == "" then None
    else if text[0] == '"' then Some(("", text[1..]))
    else match ReadChar(text)
      case None => None
      case Some((c, n)) =>
        if n == 0 || n > |text| then None else
        match ReadBody(text[n..])
        case None => None
        case Some((s, rest)) => Some(([c] + s, rest))
  }

  function ReadQuoted(text: string): Option<(string, string)> {
    if text == "" || text[0] != '"' then None else ReadBody(text[1..])
  }

  lemma HexReads(n: nat)
    requires n < 16
    ensures HexValue(HexDigit(n)) == Some(n)
  {
  }

  lemma Digits(v: nat)
    requires v < 65536
    ensures v / 4096 < 16 && v == v / 4096 * 4096 + v / 256 % 16 * 256 + v / 16 % 16 * 16 + v % 16
  {
    assert v / 256 == v / 4096 * 16 + v / 256 % 16;
    assert v / 16 == v / 256 * 16 + v / 16 % 16;
  }

  lemma ReadEscape(c: char, rest: string)
    ensures ReadChar(Escape(c) + rest) == Some((c, |Escape(c)|)) && Escape(c)[0] != '"'
    ensures |Escape(c)| > 0
  {
    if ShortForm(c).None? && ByCode(c) {
      var v := c as int;
      Digits(v);
      HexReads(v / 4096);
      HexReads(v / 256 % 16);
      HexReads(v / 16 % 16);
      HexReads(v % 16);
      hide HexDigit, HexValue;
    }
  }

  lemma {:induction false} ReadBodyBack(s: string, rest: string)
    ensures ReadBody(Body(s) + rest) == Some((s, rest))
  {
    if s == "" {
      assert (['"'] + rest)[1..] == rest;
    } else {
      var tail := Body(s[1..]) + rest;
      var text := Escape(s[0]) + tail;
      assert Body(s) + rest == text;
      ReadEscape(s[0], tail);
      ReadBodyBack(s[1..], rest);
      hide Escape, ReadChar, Body;
      assert text[|Escape(s[0])|..] == tail;
      assert text[0] == Escape(s[0])[0];
      assert [s[0]] + s[1..] == s;
    }
  }

  /** A quoted string is read back exactly, whatever follows it. */
  lemma ReadBack(s: string, rest: string)
    ensures ReadQuoted(Quoted(s) + rest) == Some((s, rest))
  {
    ReadBodyBack(s, rest);
    assert (Quoted(s) + rest)[1..] == Body(s) + rest;
  }

  lemma QuotedSplits(s: string, r: string, t: string, q: string)
    requires Quoted(s) + r == Quoted(t) + q
    ensures s == t && r == q
  {
    ReadBack(s, r);
    ReadBack(t, q);
  }

  /** Text without escapes is quoted as it stands. */
  lemma {:induction false} PlainQuoted(s: string)
    requires forall i :: 0 <= i < |s| ==> 'a' <= s[i] <= 'z' || s[i] == '_'
    ensures Quoted(s) == "\"" + s + "\""
  {
    PlainBody(s);
  }

  lemma {:induction false} PlainBody(s: string)
    requires forall i :: 0 <= i < |s| ==> 'a' <= s[i] <= 'z' || s[i] == '_'
    ensures Body(s) == s + "\""
  {
    if s != "" { PlainBody(s[1..]); }
  }

  // ---- Values -----------------------------------------------------------------------------------

  datatype Value = Text(text: string) | List(items: seq<string>) | Flag(flag: bool)

  /** What follows an item of a list. */
  function More(items: seq<string>): string {
    if items == [] then [']'] else [','] + (Quoted(items[0]) + More(items[1..]))
  }

  function Items(items: seq<string>): string {
    if items == [] then [']'] else Quoted(items[0]) + More(items[1..])
  }

  /** The items of a list, separated by commas. */
  lemma ItemsText(x: string, y: string, rest: seq<string>)
    ensures Items([]) == "]" && Items([x]) == Quoted(x) + "]"
    ensures Items([x, y] + rest) == Quoted(x) + ([','] + Items([y] + rest))
  {
    hide Quoted;
    assert [x][1..] == [] && ([x, y] + rest)[1..] == [y] + rest;
  }

  function Written(v: Value): string {
    match v
    case Text(t) => Quoted(t)
    case List(items) => ['['] + Items(items)
    case Flag(b) => if b then "true" else "false"
  }

  lemma Assoc(x: string, y: string, z: string)
    ensures (x + y) + z == x + (y + z)
  {
  }

  lemma Heads(c: char, x: string, d: char, y: string)
    requires [c] + x == [d] + y
    ensures c == d && x == y
  {
    assert ([c] + x)[0] == c && ([d] + y)[0] == d && ([c] + x)[1..] == x && ([d] + y)[1..] == y;
  }

  lemma MoreThen(a: seq<string>, r: string)
    ensures a == [] ==> More(a) + r == [']'] + r
    ensures a != [] ==> More(a) + r == [','] + (Quoted(a[0]) + (More(a[1..]) + r))
  {
    hide Quoted;
    if a != [] {
      Assoc([','], Quoted(a[0]) + More(a[1..]), r);
      Assoc(Quoted(a[0]), More(a[1..]), r);
    }
  }

  lemma {:induction false} MoreSplits(a: seq<string>, r: string, b: seq<string>, q: string)
    requires More(a) + r == More(b) + q
    ensures a == b && r == q
  {
    MoreThen(a, r);
    MoreThen(b, q);
    hide Quoted, More;
    var x := if a == [] then r else Quoted(a[0]) + (More(a[1..]) + r);
    var y := if b == [] then q else Quoted(b[0]) + (More(b[1..]) + q);
    Heads(if a == [] then ']' else ',', x, if b == [] then ']' else ',', y);
    if a != [] {
      QuotedSplits(a[0], More(a[1..]) + r, b[0], More(b[1..]) + q);
      MoreSplits(a[1..], r, b[1..], q);
      assert a == [a[0]] + a[1..] && b == [b[0]] + b[1..];
    }
  }

  lemma QuotedBegins(s: string, r: string)
    ensures Quoted(s) + r == ['"'] + (Body(s) + r)
  {
    hide Body;
  }

  lemma ItemsThen(a: seq<string>, r: string)
    ensures a == [] ==> Items(a) + r == [']'] + r
    ensures a != [] ==> Items(a) + r == Quoted(a[0]) + (More(a[1..]) + r) == ['"'] + (Body(a[0]) + (More(a[1..]) + r))
  {
    hide Quoted, Body, More;
    if a != [] {
      Assoc(Quoted(a[0]), More(a[1..]), r);
      QuotedBegins(a[0], More(a[1..]) + r);
    }
  }

  lemma ItemsSplit(a: seq<string>, r: string, b: seq<string>, q: string)
    requires Items(a) + r == Items(b) + q
    ensures a == b && r == q
  {
    ItemsThen(a, r);
    ItemsThen(b, q);
    hide Quoted, Body, More, Items;
    var x := if a == [] then r else Body(a[0]) + (More(a[1..]) + r);
    var y := if b == [] then q else Body(b[0]) + (More(b[1..]) + q);
    Heads(if a == [] then ']' else '"', x, if b == [] then ']' else '"', y);
    if a != [] {
      QuotedSplits(a[0], More(a[1..]) + r, b[0], More(b[1..]) + q);
      MoreSplits(a[1..], r, b[1..], q);
      assert a == [a[0]] + a[1..] && b == [b[0]] + b[1..];
    }
  }

  predicate SameKind(v: Value, w: Value) {
    v.Text? == w.Text? && v.List? == w.List? && v.Flag? == w.Flag?
  }

  lemma FlagsSplit(b: bool, r: string, c: bool, q: string)
    requires Written(Flag(b)) + r == Written(Flag(c)) + q
    ensures b == c && r == q
  {
    var x, y := Written(Flag(b)), Written(Flag(c));
    assert (x + r)[0] == (if b then 't' else 'f') && (y + q)[0] == (if c then 't' else 'f');
    assert (x + r)[|x|..] == r && (y + q)[|y|..] == q;
  }

  /** A value is delimited by its own text. */
  lemma WrittenSplits(v: Value, r: string, w: Value, q: string)
    requires SameKind(v, w) && Written(v) + r == Written(w) + q
    ensures v == w && r == q
  {
    hide Quoted, Items;
    match v
    case Text(t) => QuotedSplits(t, r, w.text, q);
    case List(items) =>
      Assoc(['['], Items(items), r);
      Assoc(['['], Items(w.items), q);
      Heads('[', Items(items) + r, '[', Items(w.items) + q);
      ItemsSplit(items, r, w.items, q);
    case Flag(b) =>
      hide Written;
      FlagsSplit(b, r, w.flag, q);
  }

  // ---- Objects ----------------------------------------------------------------------------------

  /** A struct field: its key, and its value unless omitempty leaves it out. */
  datatype Field = Field(key: string, value: Option<Value>)

  function Lead(first: bool): string {
    if first then "" else [',']
  }

  function Members(fields: seq<Field>, first: bool): string
    decreases fields, 0
  {
    if fields == [] then ['}']
    else if fields[0].value.None? then Members(fields[1..], first)
    else Present(first, fields[0], fields[1..])
  }

  /** A field that is not omitted, and what follows it. */
  function Present(first: bool, field: Field, rest: seq<Field>): string
    requires field.value.Some?
    decreases rest, 1
  {
    Lead(first) + (Quoted(field.key) + ([':'] + (Written(field.value.value) + Members(rest, false))))
  }

  function Object(fields: seq<Field>): string {
    ['{'] + Members(fields, true)
  }

  /** Two values of one struct type: the same keys in the same order, of the same types. */
  ghost predicate SameShape(a: seq<Field>, b: seq<Field>) {
    && |a| == |b|
    && forall i :: 0 <= i < |a| ==>
         a[i].key == b[i].key && (a[i].value.Some? && b[i].value.Some? ==> SameKind(a[i].value.value, b[i].value.value))
  }

  ghost predicate DistinctKeys(a: seq<Field>) {
    forall i, j :: 0 <= i < j < |a| ==> a[i].key != a[j].key
  }

  /** The members are those of the first field present, or there is none. */
  lemma {:induction false} FirstPresent(a: seq<Field>, first: bool) returns (i: nat)
    ensures i <= |a|
    ensures i == |a| ==> Members(a, first) == ['}']
    ensures i < |a| ==> a[i].value.Some? && Members(a, first) == Present(first, a[i], a[i + 1..])
  {
    hide Quoted, Written;
    if a == [] {
      i := 0;
    } else if a[0].value.Some? {
      i := 0;
    } else {
      var j := FirstPresent(a[1..], first);
      i := j + 1;
      assert j < |a[1..]| ==> a[1..][j + 1..] == a[j + 2..];
    }
  }

  lemma DropLead(first: bool, x: string, y: string)
    requires Lead(first) + x == Lead(first) + y
    ensures x == y
  {
    assert (Lead(first) + x)[|Lead(first)|..] == x && (Lead(first) + y)[|Lead(first)|..] == y;
  }

  lemma LeadBegins(first: bool, key: string, rest: string)
    ensures (Lead(first) + (Quoted(key) + rest))[0] in {'"', ','}
  {
    hide Body;
  }

  /** A present field cannot be mistaken for the members of an object without it. */
  lemma PresentDiffers(key: string, rest: string, b: seq<Field>, first: bool)
    requires forall i :: 0 <= i < |b| ==> b[i].key != key
    ensures Lead(first) + (Quoted(key) + rest) != Members(b, first)
  {
    var i := FirstPresent(b, first);
    LeadBegins(first, key, rest);
    hide Members, Body, Written, Quoted, Lead;
    if i < |b| && Lead(first) + (Quoted(key) + rest) == Members(b, first) {
      var r := [':'] + (Written(b[i].value.value) + Members(b[i + 1..], false));
      DropLead(first, Quoted(key) + rest, Quoted(b[i].key) + r);
      QuotedSplits(key, rest, b[i].key, r);
      assert false;
    }
  }

  lemma BothPresent(a: seq<Field>, b: seq<Field>, first: bool)
    requires a != [] && b != [] && a[0].value.Some? && b[0].value.Some? && a[0].key == b[0].key
    requires SameKind(a[0].value.value, b[0].value.value) && Members(a, first) == Members(b, first)
    ensures a[0] == b[0] && Members(a[1..], false) == Members(b[1..], false)
  {
    hide Written, Quoted, Lead;
    var x := Written(a[0].value.value) + Members(a[1..], false);
    var y := Written(b[0].value.value) + Members(b[1..], false);
    assert Members(a, first) == Lead(first) + (Quoted(a[0].key) + ([':'] + x));
    assert Members(b, first) == Lead(first) + (Quoted(b[0].key) + ([':'] + y));
    hide Members;
    DropLead(first, Quoted(a[0].key) + ([':'] + x), Quoted(b[0].key) + ([':'] + y));
    QuotedSplits(a[0].key, [':'] + x, b[0].key, [':'] + y);
    Heads(':', x, ':', y);
    WrittenSplits(a[0].value.value, Members(a[1..], false), b[0].value.value, Members(b[1..], false));
  }

  lemma OnePresent(a: seq<Field>, b: seq<Field>, first: bool)
    requires a != [] && b != [] && a[0].value.Some? && b[0].value.None? && a[0].key == b[0].key && DistinctKeys(b)
    ensures Members(a, first) != Members(b, first)
  {
    hide Written, Quoted, Lead;
    PresentDiffers(a[0].key, [':'] + (Written(a[0].value.value) + Members(a[1..], false)), b[1..], first);
  }

  lemma {:induction false} MembersInjective(a: seq<Field>, b: seq<Field>, first: bool)
    requires SameShape(a, b) && DistinctKeys(a) && Members(a, first) == Members(b, first)
    ensures a == b
  {
    hide Written, Quoted, Lead;
    if a != [] {
      assert SameShape(a[1..], b[1..]) && DistinctKeys(a[1..]) && DistinctKeys(b);
      if a[0].value.Some? && b[0].value.Some? {
        BothPresent(a, b, first);
        MembersInjective(a[1..], b[1..], false);
      } else if a[0].value.Some? {
        OnePresent(a, b, first);
      } else if b[0].value.Some? {
        OnePresent(b, a, first);
      } else {
        MembersInjective(a[1..], b[1..], first);
      }
      assert a == [a[0]] + a[1..] && b == [b[0]] + b[1..];
    }
  }

  /** Marshalling a struct loses nothing, omitted fields included. */
  lemma ObjectInjective(a: seq<Field>, b: seq<Field>)
    requires SameShape(a, b) && DistinctKeys(a) && Object(a) == Object(b)
    ensures a == b
  {
    Heads('{', Members(a, true), '{', Members(b, true));
    MembersInjective(a, b, true);
  }
}

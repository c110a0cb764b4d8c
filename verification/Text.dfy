/** The parts of Go's strings package that the services rely on. A Go string of valid UTF-8 is
    its sequence of Unicode scalar values; lengths are lengths in bytes. */
module Text {

  /** unicode.IsSpace. */
  predicate IsSpace(c: char) {
    c in {'\t', '\n', '\U{000B}', '\U{000C}', '\r', ' ', '\U{0085}', '\U{00A0}', '\U{1680}',
          '\U{2028}', '\U{2029}', '\U{202F}', '\U{205F}', '\U{3000}'}
    || '\U{2000}' <= c <= '\U{200A}'
  }

  /** The spaces, by code point: those of Latin-1, and Unicode's category Z beyond it. */
  lemma Spaces(c: char)
    ensures IsSpace(c) <==>
      || 9 <= c as int <= 13 || c as int in {0x20, 0x85, 0xA0, 0x1680}
      || 0x2000 <= c as int <= 0x200A || c as int in {0x2028, 0x2029, 0x202F, 0x205F, 0x3000}
  {
  }

  predicate AllSpace(s: string) {
    forall i :: 0 <= i < |s| ==> IsSpace(s[i])
  }

  function TrimLeft(s: string): string {
    if s != "" && IsSpace(s[0]) then TrimLeft(s[1..]) else s
  }

  function TrimRight(s: string): string {
    if s != "" && IsSpace(s[|s| - 1]) then TrimRight(s[..|s| - 1]) else s
  }

  /** strings.TrimSpace. */
  function Trim(s: string): string {
    TrimRight(TrimLeft(s))
  }

  predicate Trimmed(s: string) {
    s != "" ==> !IsSpace(s[0]) && !IsSpace(s[|s| - 1])
  }

  lemma {:induction false} TrimLeftSplits(s: string)
    ensures exists p :: AllSpace(p) && s == p + TrimLeft(s)
    ensures TrimLeft(s) != "" ==> !IsSpace(TrimLeft(s)[0])
  {
    if s != "" && IsSpace(s[0]) {
      TrimLeftSplits(s[1..]);
      var p :| AllSpace(p) && s[1..] == p + TrimLeft(s[1..]);
      assert s == ([s[0]] + p) + TrimLeft(s);
    } else {
      assert s == "" + TrimLeft(s);
    }
  }

  lemma {:induction false} TrimRightSplits(s: string)
    ensures exists q :: AllSpace(q) && s == TrimRight(s) + q
    ensures TrimRight(s) != "" ==> !IsSpace(TrimRight(s)[|TrimRight(s)| - 1])
  {
    if s != "" && IsSpace(s[|s| - 1]) {
      TrimRightSplits(s[..|s| - 1]);
      var q :| AllSpace(q) && s[..|s| - 1] == TrimRight(s[..|s| - 1]) + q;
      assert s == TrimRight(s) + (q + [s[|s| - 1]]);
    } else {
      assert s == TrimRight(s) + "";
    }
  }

  /** Trimming removes spaces only, from the ends only, and all of them. */
  lemma TrimSplits(s: string)
    ensures Trimmed(Trim(s))
    ensures exists p, q :: AllSpace(p) && AllSpace(q) && s == p + Trim(s) + q
  {
    TrimLeftSplits(s);
    var t := TrimLeft(s);
    TrimRightSplits(t);
    var p :| AllSpace(p) && s == p + t;
    var q :| AllSpace(q) && t == TrimRight(t) + q;
    assert s == p + Trim(s) + q;
    if Trim(s) != "" {
      assert Trim(s)[0] == t[0];
    }
  }

  lemma TrimFixed(s: string)
    requires Trimmed(s)
    ensures Trim(s) == s
  {
  }

  lemma {:induction false} TrimLeftPad(p: string, s: string)
    requires AllSpace(p)
    ensures TrimLeft(p + s) == TrimLeft(s)
  {
    if p == "" {
      assert p + s == s;
    } else {
      assert (p + s)[1..] == p[1..] + s;
      TrimLeftPad(p[1..], s);
    }
  }

  lemma {:induction false} TrimRightPad(s: string, q: string)
    requires AllSpace(q)
    ensures TrimRight(s + q) == TrimRight(s)
  {
    if q == "" {
      assert s + q == s;
    } else {
      assert (s + q)[..|s + q| - 1] == s + q[..|q| - 1];
      TrimRightPad(s, q[..|q| - 1]);
    }
  }

  /** Trim is determined by what it removes: the trimmed core of a padded string is the core. */
  lemma TrimPadded(p: string, s: string, q: string)
    requires AllSpace(p) && AllSpace(q) && Trimmed(s)
    ensures Trim(p + s + q) == s
  {
    assert p + s + q == p + (s + q);
    TrimLeftPad(p, s + q);
    if s == "" {
      assert s + q == q && q + "" == q;
      TrimLeftPad(q, "");
    } else {
      assert TrimLeft(s + q) == s + q;
      TrimRightPad(s, q);
    }
  }

  // ---- Case folding -----------------------------------------------------------------------------

  /** unicode.ToLower, one character at a time: all that is used of it. */
  ghost predicate IsLower(lower: char -> char) {
    && (forall c :: lower(lower(c)) == lower(c))
    && (forall c :: IsSpace(lower(c)) <==> IsSpace(c))
    && (forall c :: 'A' <= c <= 'Z' ==> lower(c) == c + ' ')
    && (forall c :: c < 'A' || 'Z' < c <= '\U{007F}' ==> lower(c) == c)
  }

  /** strings.ToLower. */
  function Lower(lower: char -> char, s: string): (r: string)
    ensures |r| == |s| && forall i :: 0 <= i < |s| ==> r[i] == lower(s[i])
  {
    seq(|s|, i requires 0 <= i < |s| => lower(s[i]))
  }

  lemma LowerTrimmed(lower: char -> char, s: string)
    requires IsLower(lower) && Trimmed(s)
    ensures Trimmed(Lower(lower, s)) && Lower(lower, Lower(lower, s)) == Lower(lower, s)
  {
  }

  // ---- Lengths and splitting --------------------------------------------------------------------

  function CharLength(c: char): nat {
    if c <= '\U{007F}' then 1 else if c <= '\U{07FF}' then 2 else if c <= '\U{FFFF}' then 3 else 4
  }

  /** len(s): bytes of the UTF-8 encoding. */
  function Length(s: string): nat {
    if s == "" then 0 else CharLength(s[0]) + Length(s[1..])
  }

  lemma {:induction false} AsciiLength(s: string)
    requires forall i :: 0 <= i < |s| ==> s[i] <= '\U{007F}'
    ensures Length(s) == |s|
  {
    if s != "" { AsciiLength(s[1..]); }
  }

  /** One character takes as many bytes as its code point needs in UTF-8. */
  lemma Lengths(c: char, s: string, t: string)
    ensures Length("") == 0 && Length([c]) ==
      if c as int < 0x80 then 1 else if c as int < 0x800 then 2 else if c as int < 0x10000 then 3 else 4
    ensures Length(s + t) == Length(s) + Length(t)
  {
    LengthAdds(s, t);
    assert [c][1..] == "";
  }

  lemma {:induction false} LengthAdds(s: string, t: string)
    ensures Length(s + t) == Length(s) + Length(t)
  {
    if s == "" {
      assert s + t == t;
    } else {
      assert (s + t)[1..] == s[1..] + t;
      LengthAdds(s[1..], t);
    }
  }

  /** strings.ContainsAny. */
  predicate ContainsAny(s: string, chars: set<char>) {
    exists i :: 0 <= i < |s| && s[i] in chars
  }

  /** strings.Split at a one-character separator. */
  function Split(s: string, sep: char): (parts: seq<string>)
    ensures parts != []
  {
    if s == "" then [""]
    else if s[0] == sep then [""] + Split(s[1..], sep)
    else var rest := Split(s[1..], sep); [[s[0]] + rest[0]] + rest[1..]
  }

  lemma {:induction false} SplitNone(s: string, sep: char)
    requires sep !in s
    ensures Split(s, sep) == [s]
  {
    if s != "" {
      SplitNone(s[1..], sep);
      assert [s[0]] + s[1..] == s;
    }
  }

  lemma {:induction false} SplitOnce(a: string, b: string, sep: char)
    requires sep !in a && sep !in b
    ensures Split(a + [sep] + b, sep) == [a, b]
  {
    var s := a + [sep] + b;
    if a == "" {
      assert s[1..] == b;
      SplitNone(b, sep);
    } else {
      assert s[1..] == a[1..] + [sep] + b;
      SplitOnce(a[1..], b, sep);
      assert [s[0]] + a[1..] == a && [a[1..], b][1..] == [b];
    }
  }

  lemma {:induction false} SplitJoins(s: string, sep: char)
    ensures |Split(s, sep)| == 2 ==> s == Split(s, sep)[0] + [sep] + Split(s, sep)[1]
    ensures |Split(s, sep)| == 1 ==> s == Split(s, sep)[0]
  {
    if s != "" { SplitJoins(s[1..], sep); }
  }
}

/** Protected tokens: how they are generated, named, validated and stored. */
module Tokens {
  import opened Base
  import opened Text

  // ---- Base64url without padding (section 5 of RFC 4648) ----------------------------------------

  function Letter(n: nat): char
    requires n < 64
  {
    if n < 26 then 'A' + n as char
    else if n < 52 then 'a' + (n - 26) as char
    else if n < 62 then '0' + (n - 52) as char
    else if n == 62 then '-' else '_'
  }

  function Sextet(c: char): Option<nat> {
    if 'A' <= c <= 'Z' then Some((c - 'A') as nat)
    else if 'a' <= c <= 'z' then Some((c - 'a') as nat + 26)
    else if '0' <= c <= '9' then Some((c - '0') as nat + 52)
    else if c == '-' then Some(62) else if c == '_' then Some(63) else None
  }

  lemma SextetLetter(n: nat)
    requires n < 64
    ensures Sextet(Letter(n)) == Some(n)
  {
  }

  predicate Urlsafe(c: char) {
    'A' <= c <= 'Z' || 'a' <= c <= 'z' || '0' <= c <= '9' || c == '-' || c == '_'
  }

  /** Table 2 of RFC 4648: the capitals, the small letters, the digits, and two more. */
  const CAPITALS := "ABCDEFGHIJKLMNOPQRSTUVWXYZ"
  const SMALL := "abcdefghijklmnopqrstuvwxyz"
  const DIGITS := "0123456789-_"

  function Alphabet(): string {
    CAPITALS + SMALL + DIGITS
  }

  lemma Letters(n: nat)
    requires n < 64
    ensures |Alphabet()| == 64 && Letter(n) == Alphabet()[n]
  {
    if n < 26 { Capitals(n); } else if n < 52 { SmallLetters(n - 26); } else { Digits(n - 52); }
  }

  lemma Capitals(n: nat)
    requires n < 26
    ensures CAPITALS[n] == 'A' + n as char
  {
  }

  lemma SmallLetters(n: nat)
    requires n < 26
    ensures SMALL[n] == 'a' + n as char
  {
  }

  lemma Digits(n: nat)
    requires n < 12
    ensures DIGITS[n] == if n < 10 then '0' + n as char else if n == 10 then '-' else '_'
  {
  }

  /** base64.RawURLEncoding.EncodeToString. */
  function Encode(b: Bytes): (s: string)
    ensures |s| == (|b| * 8 + 5) / 6
    ensures forall i :: 0 <= i < |s| ==> Urlsafe(s[i])
  {
    if |b| == 0 then ""
    else if |b| == 1 then [Letter(b[0] / 4), Letter(b[0] % 4 * 16)]
    else if |b| == 2 then [Letter(b[0] / 4), Letter(b[0] % 4 * 16 + b[1] / 16), Letter(b[1] % 16 * 4)]
    else [Letter(b[0] / 4), Letter(b[0] % 4 * 16 + b[1] / 16), Letter(b[1] % 16 * 4 + b[2] / 64), Letter(b[2] % 64)]
         + Encode(b[3..])
  }

  function Join(hi: nat, lo: nat): Byte {
    (hi + lo) % 256
  }

  /** The inverse, defined on whole sextets only as far as the round trip needs it. */
  function Decode(s: string): Option<Bytes> {
    if |s| == 0 then Some([]) else
    if |s| == 1 then None else
    var a :- Sextet(s[0]);
    var b :- Sextet(s[1]);
    var first := Join(a * 4, b / 16);
    if |s| == 2 then Some([first]) else
    var c :- Sextet(s[2]);
    var second := Join(b % 16 * 16, c / 4);
    if |s| == 3 then Some([first, second]) else
    var d :- Sextet(s[3]);
    var rest :- Decode(s[4..]);
    Some([first, second, Join(c % 4 * 64, d)] + rest)
  }

  lemma Halves16(a: nat, b: nat)
    requires b < 16
    ensures (a * 16 + b) / 16 == a && (a * 16 + b) % 16 == b
  {
  }

  lemma Halves4(a: nat, b: nat)
    requires b < 4
    ensures (a * 4 + b) / 4 == a && (a * 4 + b) % 4 == b
  {
  }

  lemma Whole(x: Byte)
    ensures x / 4 * 4 + x % 4 == x && x / 16 * 16 + x % 16 == x && x / 64 * 64 + x % 64 == x
    ensures x / 16 < 16 && x / 64 < 4
  {
  }

  /** Three bytes are recovered from the four sextets they are cut into. */
  lemma Block(x: Byte, y: Byte, z: Byte)
    ensures Join(x / 4 * 4, (x % 4 * 16 + y / 16) / 16) == x
    ensures Join((x % 4 * 16 + y / 16) % 16 * 16, (y % 16 * 4 + z / 64) / 4) == y
    ensures Join((y % 16 * 4 + z / 64) % 4 * 64, z % 64) == z
  {
    Whole(x);
    Whole(y);
    Whole(z);
    Halves16(x % 4, y / 16);
    Halves4(y % 16, z / 64);
    hide Join;
    Rejoined(x / 4 * 4, x % 4, x);
    Rejoined(y / 16 * 16, y % 16, y);
    Rejoined(z / 64 * 64, z % 64, z);
  }

  lemma Rejoined(hi: nat, lo: nat, b: Byte)
    requires hi + lo == b
    ensures Join(hi, lo) == b
  {
  }

  lemma DecodeBlock(x: Byte, y: Byte, z: Byte, rest: string)
    ensures Decode([Letter(x / 4), Letter(x % 4 * 16)]) == Some([x])
    ensures Decode([Letter(x / 4), Letter(x % 4 * 16 + y / 16), Letter(y % 16 * 4)]) == Some([x, y])
    ensures Decode([Letter(x / 4), Letter(x % 4 * 16 + y / 16), Letter(y % 16 * 4 + z / 64), Letter(z % 64)] + rest) ==
      if Decode(rest).None? then None else Some([x, y, z] + Decode(rest).value)
  {
    SextetLetter(x / 4);
    SextetLetter(x % 4 * 16);
    SextetLetter(x % 4 * 16 + y / 16);
    SextetLetter(y % 16 * 4);
    SextetLetter(y % 16 * 4 + z / 64);
    SextetLetter(z % 64);
    Block(x, y, z);
    Block(x, y, 0);
    Block(x, 0, 0);
    hide Letter, Sextet, Join;
    var all := [Letter(x / 4), Letter(x % 4 * 16 + y / 16), Letter(y % 16 * 4 + z / 64), Letter(z % 64)] + rest;
    assert all[4..] == rest;
  }

  /** Four letters write the bits of three bytes, most significant first; what remains at the end takes
      three letters for two bytes and two for one, with zeros for the bits that are missing. */
  lemma WritesThree(x: Byte, y: Byte, z: Byte, rest: Bytes) returns (p: nat, q: nat, r: nat, s: nat)
    ensures p < 64 && q < 64 && r < 64 && s < 64
    ensures (x as int) * 65536 + (y as int) * 256 + z as int == p * 262144 + q * 4096 + r * 64 + s
    ensures Encode([x, y, z] + rest) == [Alphabet()[p], Alphabet()[q], Alphabet()[r], Alphabet()[s]] + Encode(rest)
  {
    p, q, r, s := x / 4, x % 4 * 16 + y / 16, y % 16 * 4 + z / 64, z % 64;
    assert ([x, y, z] + rest)[3..] == rest;
    Letters(p);
    Letters(q);
    Letters(r);
    Letters(s);
    hide Letter, Alphabet;
  }

  lemma WritesTwo(x: Byte, y: Byte) returns (p: nat, q: nat, r: nat)
    ensures p < 64 && q < 64 && r < 64 && (x as int) * 1024 + (y as int) * 4 == p * 4096 + q * 64 + r
    ensures Encode([x, y]) == [Alphabet()[p], Alphabet()[q], Alphabet()[r]]
  {
    p, q, r := x / 4, x % 4 * 16 + y / 16, y % 16 * 4;
    Letters(p);
    Letters(q);
    Letters(r);
    hide Letter, Alphabet;
  }

  lemma WritesOne(x: Byte) returns (p: nat, q: nat)
    ensures p < 64 && q < 64 && (x as int) * 16 == p * 64 + q && Encode([x]) == [Alphabet()[p], Alphabet()[q]]
  {
    p, q := x / 4, x % 4 * 16;
    Letters(p);
    Letters(q);
    hide Letter, Alphabet;
  }

  lemma {:induction false} DecodeEncode(b: Bytes)
    ensures Decode(Encode(b)) == Some(b)
  {
    hide Letter, Sextet, Join, Decode;
    if |b| == 0 {
      assert b == [] && Decode("") == Some([]) by { DecodeNothing(); }
    } else if |b| == 1 {
      assert b == [b[0]];
      DecodeBlock(b[0], 0, 0, "");
    } else if |b| == 2 {
      assert b == [b[0], b[1]];
      DecodeBlock(b[0], b[1], 0, "");
    } else {
      DecodeEncode(b[3..]);
      DecodeBlock(b[0], b[1], b[2], Encode(b[3..]));
      assert b == [b[0], b[1], b[2]] + b[3..];
    }
  }

  lemma DecodeNothing()
    ensures Decode("") == Some([])
  {
  }

  const TOKEN_BYTES := 32
  const TOKEN_LENGTH := 43

  /** securetokens.Generate, given its random bytes. */
  function Generate(raw: Bytes): string {
    Encode(raw)
  }

  /** approvals.validateToken. It trims before it measures; its callers digest the untrimmed
      token. */
  predicate ValidToken(token: string) {
    Length(Trim(token)) == TOKEN_LENGTH && !ContainsAny(Trim(token), {'\r', '\n', ' '})
  }

  lemma GeneratedShape(raw: Bytes)
    requires |raw| == TOKEN_BYTES
    ensures var t := Generate(raw);
      |t| == TOKEN_LENGTH && Trimmed(t) && (forall i :: 0 <= i < |t| ==> Urlsafe(t[i]))
  {
  }

  lemma UrlsafeIsValid(t: string)
    requires |t| == TOKEN_LENGTH && Trimmed(t) && forall i :: 0 <= i < |t| ==> Urlsafe(t[i])
    ensures ValidToken(t)
  {
    TrimFixed(t);
    hide Trim, Trimmed, Length;
    AsciiLength(t);
  }

  lemma GenerateInjective(raw: Bytes, other: Bytes)
    ensures Generate(raw) == Generate(other) ==> raw == other
  {
    hide Encode, Decode;
    DecodeEncode(raw);
    DecodeEncode(other);
  }

  /** Every generated token passes validation, and different random bytes give different ones. */
  lemma GeneratedTokens(raw: Bytes, other: Bytes)
    requires |raw| == TOKEN_BYTES
    ensures ValidToken(Generate(raw))
    ensures Generate(raw) == Generate(other) ==> raw == other
  {
    GeneratedShape(raw);
    hide *;
    UrlsafeIsValid(Generate(raw));
    GenerateInjective(raw, other);
  }

  /** What trims to a given core is the core in surrounding space, and nothing else. */
  ghost predicate Pads(core: string, text: string) {
    exists p, q :: AllSpace(p) && AllSpace(q) && text == p + core + q
  }

  lemma TrimsTo(core: string, text: string)
    requires Trimmed(core)
    ensures Trim(text) == core <==> Pads(core, text)
  {
    hide Trim, Trimmed, AllSpace;
    if Trim(text) == core { TrimSplits(text); }
    if Pads(core, text) {
      var p, q :| AllSpace(p) && AllSpace(q) && text == p + core + q;
      TrimPadded(p, core, q);
    }
  }

  /** The core of a token that passes: trimmed, of the length of a generated token, on one line
      and without a blank. */
  predicate TokenCore(core: string) {
    Trimmed(core) && Length(core) == 43 && !ContainsAny(core, {'\r', '\n', ' '})
  }

  /** Exactly what validation lets through. */
  lemma ValidTokenIff(text: string)
    ensures ValidToken(text) <==> exists core :: TokenCore(core) && Pads(core, text)
  {
    hide Trim, Trimmed, Length, ContainsAny, Pads;
    if ValidToken(text) {
      TrimSplits(text);
      TrimsTo(Trim(text), text);
      assert TokenCore(Trim(text));
    }
    if core :| TokenCore(core) && Pads(core, text) { TrimsTo(core, text); }
  }

  /** Validation does not identify a token, because it measures the trimmed text and its callers
      digest the whole. The measured text is the digested one iff there is no outer space, and so
      for the digests of the two, unless they collide. */
  lemma MeasuredIsDigested(sha: string -> Digest, text: string)
    requires sha(Trim(text)) == sha(text) ==> Trim(text) == text
    ensures Trim(text) == text <==> Trimmed(text)
    ensures sha(Trim(text)) == sha(text) <==> Trimmed(text)
    ensures ValidToken(text) <==> ValidToken(Trim(text))
  {
    TrimSplits(text);
    hide Trim, AllSpace, Length, ContainsAny;
    if Trimmed(text) { TrimFixed(text); }
    TrimFixed(Trim(text));
  }

  /** The texts that pass as a generated token are its paddings, all of them; but only the token
      itself has its digest, unless two of them collide. */
  lemma PaddedTokenPasses(sha: string -> Digest, raw: Bytes, text: string)
    requires |raw| == TOKEN_BYTES && (sha(text) == sha(Generate(raw)) ==> text == Generate(raw))
    ensures ValidToken(text) && Trim(text) == Generate(raw) <==> Pads(Generate(raw), text)
    ensures Pads(Generate(raw), text) ==> (sha(text) == sha(Generate(raw)) <==> Trimmed(text))
  {
    GeneratedTokens(raw, raw);
    GeneratedShape(raw);
    hide Generate, Trim, Trimmed, Length, ContainsAny, Pads;
    TrimsTo(Generate(raw), text);
    if Trimmed(text) { TrimFixed(text); }
    TrimFixed(Generate(raw));
  }

  // ---- References -------------------------------------------------------------------------------

  function HexDigit(n: nat): char
    requires n < 16
  {
    if n < 10 then '0' + n as char else 'a' + (n - 10) as char
  }

  predicate IsHexDigit(c: char) {
    '0' <= c <= '9' || 'a' <= c <= 'f' || 'A' <= c <= 'F'
  }

  /** hex.EncodeToString. */
  function Hex(b: Bytes): (s: string)
    ensures |s| == 2 * |b|
    ensures forall i :: 0 <= i < |s| ==> IsHexDigit(s[i])
  {
    if b == [] then "" else [HexDigit(b[0] / 16), HexDigit(b[0] % 16)] + Hex(b[1..])
  }

  /** Two lower-case digits for each byte, the high one first. */
  lemma HexDigits(b: Byte, rest: Bytes)
    ensures Hex([b] + rest) == ["0123456789abcdef"[b / 16], "0123456789abcdef"[b % 16]] + Hex(rest)
    ensures Hex([]) == ""
  {
    assert ([b] + rest)[1..] == rest;
    HexLetters(b / 16);
    HexLetters(b % 16);
    hide HexDigit;
  }

  lemma HexLetters(n: nat)
    requires n < 16
    ensures HexDigit(n) == "0123456789abcdef"[n]
  {
  }

  lemma {:induction false} HexInjective(a: Bytes, b: Bytes)
    requires Hex(a) == Hex(b)
    ensures a == b
  {
    if a != [] && b != [] {
      assert Hex(a)[0] == Hex(b)[0] && Hex(a)[1] == Hex(b)[1];
      assert Hex(a)[2..] == Hex(a[1..]) && Hex(b)[2..] == Hex(b[1..]);
      HexInjective(a[1..], b[1..]);
      assert a == [a[0]] + a[1..] && b == [b[0]] + b[1..];
    } else {
      assert |Hex(a)| == |Hex(b)|;
    }
  }

  const REVIEW := "review"
  const SIGNUP := "signup"

  predicate ValidScope(scope: string) {
    scope == REVIEW || scope == SIGNUP
  }

  /** The reference Put returns. */
  function Ref(scope: string, digest: Digest): Reference {
    Reference(scope + ['/'] + Hex(digest.bytes))
  }

  /** FileStore.resolve: the path below the root, or None for a malformed reference. */
  function Resolve(r: Reference): Option<seq<string>> {
    var parts := Split(r.text, '/');
    if |parts| != 2 || !ValidScope(parts[0]) || Length(parts[1]) != 2 * DIGEST_LENGTH then None
    else if exists i :: 0 <= i < |parts[1]| && !IsHexDigit(parts[1][i]) then None
    else Some(parts)
  }

  lemma ScopeHasNoSlash(scope: string)
    requires ValidScope(scope)
    ensures '/' !in scope
  {
  }

  /** The two scopes of the services. */
  lemma Scopes(d: Digest)
    ensures Ref(REVIEW, d).text == "review/" + Hex(d.bytes) && Ref(SIGNUP, d).text == "signup/" + Hex(d.bytes)
    ensures forall scope :: ValidScope(scope) <==> scope == "review" || scope == "signup"
  {
    assert "review/" == "review" + ['/'] && "signup/" == "signup" + ['/'];
  }

  lemma RefSplits(scope: string, digest: Digest)
    requires ValidScope(scope)
    ensures Split(Ref(scope, digest).text, '/') == [scope, Hex(digest.bytes)]
  {
    ScopeHasNoSlash(scope);
    assert '/' !in Hex(digest.bytes);
    SplitOnce(scope, Hex(digest.bytes), '/');
  }

  /** A reference names one scope and one digest, and resolve takes it to the path Put wrote. */
  lemma RefInjective(scope: string, d: Digest, scope': string, d': Digest)
    requires ValidScope(scope) && ValidScope(scope') && Ref(scope, d) == Ref(scope', d')
    ensures scope == scope' && d == d'
  {
    RefSplits(scope, d);
    RefSplits(scope', d');
    HexInjective(d.bytes, d'.bytes);
  }

  lemma ResolveRef(scope: string, d: Digest)
    requires ValidScope(scope) && |d.bytes| == DIGEST_LENGTH
    ensures Resolve(Ref(scope, d)) == Some([scope, Hex(d.bytes)])
  {
    RefSplits(scope, d);
    AsciiLength(Hex(d.bytes));
  }

  /** A reference resolves iff it is a scope, a slash and 64 hexadecimal digits of either case. */
  lemma ResolveIff(r: Reference, scope: string, name: string)
    ensures Resolve(r) == Some([scope, name]) <==>
      && r.text == scope + "/" + name && (scope == "review" || scope == "signup") && |name| == 64
      && forall i :: 0 <= i < |name| ==> '0' <= name[i] <= '9' || 'a' <= name[i] <= 'f' || 'A' <= name[i] <= 'F'
    ensures Resolve(r).Some? ==> |Resolve(r).value| == 2
  {
    SplitJoins(r.text, '/');
    if forall i :: 0 <= i < |name| ==> IsHexDigit(name[i]) {
      AsciiLength(name);
      if scope == "review" || scope == "signup" { SplitOnce(scope, name, '/'); }
    }
  }

  /** Distinct well-formed references resolve to distinct paths. */
  lemma ResolveInjective(r: Reference, q: Reference)
    requires Resolve(r).Some? && Resolve(r) == Resolve(q)
    ensures r == q
  {
    SplitJoins(r.text, '/');
    SplitJoins(q.text, '/');
  }

  // ---- The stores -------------------------------------------------------------------------------

  datatype StoreError = InvalidInput | AlreadyExists | NotFound | Malformed | InvalidReference | FileSystem

  /** What the file system does to one call: an error on the way to the file, when it is found or
      found missing, or afterwards, because it is unsafe, unreadable, unwritable or undeletable. */
  datatype Disk = Works | FailsBefore | FailsAfter

  datatype Stored<+T> = Ok(value: T) | Err(error: StoreError)

  /** MemoryStore: a map under a mutex, each operation atomic. */
  class MemoryStore {
    var values: map<Reference, string>

    constructor ()
      ensures values == map[]
    {
      values := map[];
    }

    /** Insert if absent. */
    method Put(scope: string, digest: Digest, token: string) returns (r: Stored<Reference>)
      modifies this
      ensures r ==
        if !ValidScope(scope) || |digest.bytes| != DIGEST_LENGTH || token == "" then Err(InvalidInput)
        else if Ref(scope, digest) in old(values) then Err(AlreadyExists)
        else Ok(Ref(scope, digest))
      ensures values == if r.Ok? then old(values)[r.value := token] else old(values)
    {
      if !ValidScope(scope) || |digest.bytes| != DIGEST_LENGTH || token == "" {
        return Err(InvalidInput);
      }
      var reference := Ref(scope, digest);
      if reference in values {
        return Err(AlreadyExists);
      }
      values := values[reference := token];
      return Ok(reference);
    }

    method Read(reference: Reference) returns (r: Stored<string>)
      ensures r == if reference in values then Ok(values[reference]) else Err(NotFound)
    {
      if reference !in values {
        return Err(NotFound);
      }
      return Ok(values[reference]);
    }

    method Delete(reference: Reference)
      modifies this
      ensures values == old(values) - {reference}
    {
      values := values - {reference};
    }
  }

  /** FileStore: one file per token below the root, holding the token and a newline. */
  class FileStore {
    var files: map<seq<string>, string>

    constructor ()
      ensures files == map[]
    {
      files := map[];
    }

    /** Nothing is published unless every step succeeds. */
    method Put(scope: string, digest: Digest, token: string, disk: Disk) returns (r: Stored<Reference>)
      modifies this
      ensures ValidScope(scope) && |digest.bytes| == DIGEST_LENGTH ==> Resolve(Ref(scope, digest)).Some?
      ensures r ==
        if !ValidScope(scope) || |digest.bytes| != DIGEST_LENGTH || Trim(token) == "" then Err(InvalidInput)
        else if disk == FailsBefore then Err(FileSystem)
        else if Resolve(Ref(scope, digest)).value in old(files) then Err(AlreadyExists)
        else if disk == FailsAfter then Err(FileSystem)
        else Ok(Ref(scope, digest))
      ensures files == if r.Ok? then old(files)[Resolve(r.value).value := token + "\n"] else old(files)
    {
      if ValidScope(scope) && |digest.bytes| == DIGEST_LENGTH { ResolveRef(scope, digest); }
      if !ValidScope(scope) || |digest.bytes| != DIGEST_LENGTH || Trim(token) == "" {
        return Err(InvalidInput);
      }
      if disk == FailsBefore { return Err(FileSystem); }
      var destination := [scope, Hex(digest.bytes)];
      if destination in files {
        return Err(AlreadyExists);
      }
      if disk == FailsAfter { return Err(FileSystem); }
      files := files[destination := token + "\n"];
      return Ok(Ref(scope, digest));
    }

    method Read(reference: Reference, disk: Disk) returns (r: Stored<string>)
      ensures disk == Works ==> r == ReadFrom(files, reference)
      ensures disk != Works ==>
        r == Err(if Resolve(reference).None? then InvalidReference
                 else if disk == FailsAfter && Resolve(reference).value !in files then NotFound else FileSystem)
    {
      var path := Resolve(reference);
      if path.None? {
        return Err(InvalidReference);
      }
      if disk == FailsBefore { return Err(FileSystem); }
      if path.value !in files {
        return Err(NotFound);
      }
      if disk == FailsAfter { return Err(FileSystem); }
      return ParseFile(files[path.value]);
    }

    /** A missing file counts as deleted; any failure leaves the file. */
    method Delete(reference: Reference, disk: Disk) returns (ok: bool)
      modifies this
      ensures ok <==>
        && Resolve(reference).Some?
        && (disk == Works || (disk == FailsAfter && Resolve(reference).value !in old(files)))
      ensures files == if ok then old(files) - {Resolve(reference).value} else old(files)
    {
      var path := Resolve(reference);
      if path.None? || disk == FailsBefore {
        return false;
      }
      if path.value !in files {
        return true;
      }
      if disk == FailsAfter {
        return false;
      }
      files := files - {path.value};
      return true;
    }
  }

  /** One trailing newline is removed; an empty token or one with a line break is rejected. */
  function ParseFile(body: string): Stored<string> {
    var token := if body != "" && body[|body| - 1] == '\n' then body[..|body| - 1] else body;
    if token == "" || ContainsAny(token, {'\r', '\n'}) then Err(Malformed) else Ok(token)
  }

  /** A file holds a token iff it is the token, with or without one newline after it, and the token is
      neither empty nor has a line break. */
  lemma ParsesIff(body: string, token: string)
    ensures ParseFile(body) == Ok(token) <==>
      && (body == token || body == token + "\n")
      && token != "" && forall i :: 0 <= i < |token| ==> token[i] != '\r' && token[i] != '\n'
    ensures ParseFile(body).Err? ==> ParseFile(body).error == Malformed
  {
    assert (token + "\n")[..|token|] == token;
    if body != "" && body[|body| - 1] == '\n' { assert body == body[..|body| - 1] + "\n"; }
  }

  function ReadFrom(files: map<seq<string>, string>, reference: Reference): Stored<string> {
    var path := Resolve(reference);
    if path.None? then Err(InvalidReference)
    else if path.value !in files then Err(NotFound)
    else ParseFile(files[path.value])
  }

  /** What Put stores Read returns, exactly when the token has no line break: Put accepts such
      tokens, and Read then reports the file malformed. Other references are unaffected. */
  lemma PutThenRead(files: map<seq<string>, string>, scope: string, d: Digest, token: string, other: Reference)
    requires ValidScope(scope) && |d.bytes| == DIGEST_LENGTH && Trim(token) != ""
    ensures Resolve(Ref(scope, d)).Some?
    ensures var files' := files[Resolve(Ref(scope, d)).value := token + "\n"];
      && ReadFrom(files', Ref(scope, d)) == (if ContainsAny(token, {'\r', '\n'}) then Err(Malformed) else Ok(token))
      && (other != Ref(scope, d) ==> ReadFrom(files', other) == ReadFrom(files, other))
  {
    ResolveRef(scope, d);
    assert (token + "\n")[..|token|] == token;
    if Resolve(other) == Resolve(Ref(scope, d)) {
      ResolveInjective(other, Ref(scope, d));
    }
  }

  /** A generated token survives the file store. */
  lemma GeneratedRoundTrip(files: map<seq<string>, string>, scope: string, d: Digest, raw: Bytes)
    requires ValidScope(scope) && |d.bytes| == DIGEST_LENGTH && |raw| == TOKEN_BYTES
    ensures Resolve(Ref(scope, d)).Some?
    ensures ReadFrom(files[Resolve(Ref(scope, d)).value := Generate(raw) + "\n"], Ref(scope, d)) == Ok(Generate(raw))
  {
    GeneratedShape(raw);
    TrimFixed(Generate(raw));
    PutThenRead(files, scope, d, Generate(raw), Ref(scope, d));
  }
}

/** The payload fingerprint: a copy of the features is sorted in place, the submission is
    marshalled, the text is hashed. Two submissions have one payload exactly when all scalar
    fields and the multiset of features are equal. */
module Fingerprint {
  import opened Base
  import opened Schema
  import opened Tokens
  import opened Json

  // ---- Sorting strings --------------------------------------------------------------------------

  /** Go compares the bytes of two strings; UTF-8 orders them as their characters. */
  predicate AtMost(s: string, t: string) {
    s == "" || (t != "" && (s[0] < t[0] || (s[0] == t[0] && AtMost(s[1..], t[1..]))))
  }

  /** Lexicographic: one string begins the other, or the first characters that differ decide. */
  lemma {:induction false} AtMostIs(s: string, t: string)
    ensures AtMost(s, t) <==>
      s <= t || exists i :: 0 <= i < |s| && i < |t| && s[..i] == t[..i] && s[i] < t[i]
  {
    if s != "" && t != "" && s[0] == t[0] {
      AtMostIs(s[1..], t[1..]);
      assert s == [s[0]] + s[1..] && t == [t[0]] + t[1..];
      if i :| 0 <= i < |s[1..]| && i < |t[1..]| && s[1..][..i] == t[1..][..i] && s[1..][i] < t[1..][i] {
        assert s[..i + 1] == [s[0]] + s[1..][..i] == [t[0]] + t[1..][..i] == t[..i + 1];
        assert s[i + 1] < t[i + 1];
      }
      if i :| 0 <= i < |s| && i < |t| && s[..i] == t[..i] && s[i] < t[i] {
        assert i > 0;
        assert s[1..][..i - 1] == s[..i][1..] == t[..i][1..] == t[1..][..i - 1];
        assert s[1..][i - 1] < t[1..][i - 1];
      }
      assert s <= t <==> s[1..] <= t[1..];
    } else if s != "" && t != "" {
      if s[0] < t[0] { assert s[..0] == t[..0]; }
      forall i | 0 < i < |s| && i < |t| ensures s[..i] != t[..i] { assert s[..i][0] != t[..i][0]; }
    }
  }

  lemma {:induction false} AtMostAntisymmetric(s: string, t: string)
    requires AtMost(s, t) && AtMost(t, s)
    ensures s == t
  {
    if s != "" && t != "" {
      AtMostAntisymmetric(s[1..], t[1..]);
      assert s == [s[0]] + s[1..] && t == [t[0]] + t[1..];
    }
  }

  lemma {:induction false} AtMostTotal(s: string, t: string)
    ensures AtMost(s, t) || AtMost(t, s)
  {
    if s != "" && t != "" { AtMostTotal(s[1..], t[1..]); }
  }

  lemma {:induction false} AtMostTransitive(s: string, t: string, u: string)
    requires AtMost(s, t) && AtMost(t, u)
    ensures AtMost(s, u)
  {
    if s != "" && s[0] == t[0] == u[0] { AtMostTransitive(s[1..], t[1..], u[1..]); }
  }

  ghost predicate Ordered(a: seq<string>) {
    forall i, j :: 0 <= i < j < |a| ==> AtMost(a[i], a[j])
  }

  function Last<T>(a: seq<T>): T
    requires a != []
  {
    a[|a| - 1]
  }

  function Front<T>(a: seq<T>): seq<T>
    requires a != []
  {
    a[..|a| - 1]
  }

  function Insert(a: seq<string>, x: string): seq<string> {
    if a == [] || AtMost(Last(a), x) then a + [x] else Insert(Front(a), x) + [Last(a)]
  }

  function Sort(a: seq<string>): seq<string> {
    if a == [] then [] else Insert(Sort(Front(a)), Last(a))
  }

  lemma {:induction false} InsertKeeps(a: seq<string>, x: string)
    ensures multiset(Insert(a, x)) == multiset(a) + multiset{x}
  {
    if a != [] && !AtMost(Last(a), x) {
      InsertKeeps(Front(a), x);
      assert a == Front(a) + [Last(a)];
    }
  }

  lemma {:induction false} InsertOrders(a: seq<string>, x: string)
    requires Ordered(a)
    ensures Ordered(Insert(a, x))
  {
    if a == [] {
    } else if AtMost(Last(a), x) {
      forall i | 0 <= i < |a| ensures AtMost(a[i], x) {
        if i < |a| - 1 { AtMostTransitive(a[i], Last(a), x); }
      }
    } else {
      AtMostTotal(Last(a), x);
      InsertOrders(Front(a), x);
      InsertKeeps(Front(a), x);
      var b := Insert(Front(a), x);
      forall i | 0 <= i < |b| ensures AtMost(b[i], Last(a)) {
        assert b[i] in multiset(b);
        if b[i] != x {
          assert b[i] in Front(a);
          var k :| 0 <= k < |Front(a)| && Front(a)[k] == b[i];
          assert a[k] == b[i];
        }
      }
    }
  }

  lemma {:induction false} SortSorts(a: seq<string>)
    ensures Ordered(Sort(a)) && multiset(Sort(a)) == multiset(a)
  {
    if a != [] {
      SortSorts(Front(a));
      InsertOrders(Sort(Front(a)), Last(a));
      InsertKeeps(Sort(Front(a)), Last(a));
      assert a == Front(a) + [Last(a)];
    }
  }

  lemma LastIsGreatest(a: seq<string>, x: string)
    requires a != [] && Ordered(a) && x in multiset(a)
    ensures AtMost(x, Last(a))
  {
    var i :| 0 <= i < |a| && a[i] == x;
    AtMostReflexive(x);
  }

  lemma {:induction false} AtMostReflexive(s: string)
    ensures AtMost(s, s)
  {
    if s != "" { AtMostReflexive(s[1..]); }
  }

  lemma SameLast(a: seq<string>, b: seq<string>)
    requires Ordered(a) && Ordered(b) && multiset(a) == multiset(b) && a != [] && b != []
    ensures Last(a) == Last(b)
  {
    assert Last(a) in multiset(a) && Last(b) in multiset(b);
    hide Ordered, AtMost;
    LastIsGreatest(a, Last(b));
    LastIsGreatest(b, Last(a));
    AtMostAntisymmetric(Last(a), Last(b));
  }

  lemma FrontBag(a: seq<string>)
    requires a != []
    ensures multiset(Front(a)) == multiset(a) - multiset{Last(a)} && a == Front(a) + [Last(a)]
  {
    assert a == Front(a) + [Last(a)];
  }

  /** There is one ordered arrangement of a multiset, so it does not matter how it is found. */
  lemma {:induction false} OneOrder(a: seq<string>, b: seq<string>)
    requires Ordered(a) && Ordered(b) && multiset(a) == multiset(b)
    ensures a == b
    decreases |a|
  {
    if a == [] {
      assert |multiset(b)| == |b|;
    } else {
      assert |multiset(a)| == |a| && |multiset(b)| == |b|;
      SameLast(a, b);
      FrontBag(a);
      FrontBag(b);
      assert Ordered(Front(a)) && Ordered(Front(b));
      hide Ordered, AtMost;
      OneOrder(Front(a), Front(b));
    }
  }

  lemma SortCanonical(a: seq<string>, b: seq<string>)
    ensures Sort(a) == Sort(b) <==> multiset(a) == multiset(b)
  {
    SortSorts(a);
    SortSorts(b);
    if multiset(a) == multiset(b) { OneOrder(Sort(a), Sort(b)); }
  }

  lemma InsertEnd(a: seq<string>, x: string)
    requires a == [] || AtMost(Last(a), x)
    ensures Insert(a, x) == a + [x]
  {
  }

  lemma InsertBefore(a: seq<string>, j: nat, x: string)
    requires 0 < j <= |a| && !AtMost(a[j - 1], x)
    ensures Insert(a[..j], x) + a[j..] == Insert(a[..j - 1], x) + a[j - 1..]
  {
    assert Front(a[..j]) == a[..j - 1] && Last(a[..j]) == a[j - 1];
    assert [a[j - 1]] + a[j..] == a[j - 1..];
  }

  /** sort.Strings on a short slice: insertion sort, by swaps. */
  method SortStrings(a: array<string>)
    modifies a
    ensures a[..] == Sort(old(a[..]))
  {
    ghost var was := a[..];
    assert was[..0] == [] && a[..0] == [];
    for i := 0 to a.Length
      invariant a[..i] == Sort(was[..i]) && a[i..] == was[i..]
    {
      SortNext(a, i, was);
    }
    assert a[..a.Length] == a[..] && was[..a.Length] == was;
  }

  lemma SortStep(was: seq<string>, i: nat)
    requires i < |was|
    ensures Sort(was[..i + 1]) == Insert(Sort(was[..i]), was[i])
  {
    assert Front(was[..i + 1]) == was[..i] && Last(was[..i + 1]) == was[i];
  }

  /** What one round leaves, given where the element came to rest. */
  lemma Placed(sorted: seq<string>, b: seq<string>, i: nat, j: nat, x: string)
    requires j <= i == |sorted| < |b| && b[j] == x && b[..j] == sorted[..j] && b[j + 1..i + 1] == sorted[j..]
    requires j == 0 || AtMost(sorted[j - 1], x)
    requires Insert(sorted, x) == Insert(sorted[..j], x) + sorted[j..]
    ensures b[..i + 1] == Insert(sorted, x)
  {
    InsertEnd(sorted[..j], x);
    hide Insert, AtMost;
    assert b[..i + 1] == b[..j] + [b[j]] + b[j + 1..i + 1];
  }

  /** One round: the element at i moves left past the greater ones. */
  method SortNext(a: array<string>, i: nat, ghost was: seq<string>)
    requires i < a.Length && |was| == a.Length && a[..i] == Sort(was[..i]) && a[i..] == was[i..]
    modifies a
    ensures a[..i + 1] == Sort(was[..i + 1]) && a[i + 1..] == was[i + 1..]
  {
    hide Sort, Insert, AtMost;
    ghost var sorted := a[..i];
    var x := a[i];
    assert x == was[i] by { assert a[i..][0] == was[i..][0]; }
    ghost var rest := a[i + 1..];
    assert rest == was[i + 1..] by { assert a[i..][1..] == was[i..][1..]; }
    SortStep(was, i);
    var j := i;
    assert sorted[..i] == sorted && sorted[i..] == [];
    while j > 0 && !AtMost(a[j - 1], a[j])
      invariant 0 <= j <= i
      invariant a[j] == x && a[i + 1..] == rest
      invariant forall k :: 0 <= k < j ==> a[k] == sorted[k]
      invariant forall k :: j < k <= i ==> a[k] == sorted[k - 1]
      invariant Insert(sorted, x) == Insert(sorted[..j], x) + sorted[j..]
    {
      InsertBefore(sorted, j, x);
      a[j], a[j - 1] := a[j - 1], a[j];
      j := j - 1;
    }
    ghost var b := a[..];
    assert b[..j] == sorted[..j] && b[j + 1..i + 1] == sorted[j..];
    Placed(sorted, b, i, j, x);
    assert b[..i + 1] == a[..i + 1];
  }

  // ---- The payload ------------------------------------------------------------------------------

  function KindText(kind: Kind): string {
    match kind
    case Waitlist => "waitlist"
    case EarlyAccess => "early_access"
  }

  /** omitempty on a string. */
  function NonEmpty(key: string, s: string): Field {
    Field(key, if s == "" then None else Some(Text(s)))
  }

  function Fields(f: Form, features: seq<string>): seq<Field> {
    [ Field("submission_type", Some(Text(KindText(f.kind)))),
      Field("email", Some(Text(f.email))),
      NonEmpty("name", f.profile.name),
      NonEmpty("farm_name", f.profile.farmName),
      NonEmpty("farm_type", f.profile.farmType),
      NonEmpty("production_scale", f.profile.productionScale),
      NonEmpty("current_tracking_method", f.profile.currentTrackingMethod),
      Field("features_of_interest", if features == [] then None else Some(List(features))),
      Field("interested_in_testing",
        if f.profile.interested.None? then None else Some(Flag(f.profile.interested.value))),
      NonEmpty("message", f.profile.message),
      Field("source", Some(Text(f.profile.source))) ]
  }

  /** The text that is hashed. */
  function Payload(f: Form): string {
    Object(Fields(f, Sort(f.profile.features)))
  }

  /** Every scalar field is equal. The fingerprint itself is not part of the payload. */
  predicate SameScalars(f: Form, g: Form) {
    && f.kind == g.kind && f.email == g.email
    && f.profile.(features := []) == g.profile.(features := [])
  }

  lemma KeysDistinct(f: Form, features: seq<string>)
    ensures DistinctKeys(Fields(f, features))
  {
    var fields := Fields(f, features);
    var lengths := [15, 5, 4, 9, 9, 16, 23, 20, 21, 7, 6];
    assert forall i :: 0 <= i < 11 ==> |fields[i].key| == lengths[i];
    assert fields[3].key[5] == 'n' && fields[4].key[5] == 't';
  }

  lemma ShapesAgree(f: Form, a: seq<string>, g: Form, b: seq<string>)
    ensures SameShape(Fields(f, a), Fields(g, b))
  {
  }

  lemma FieldsInjective(f: Form, a: seq<string>, g: Form, b: seq<string>)
    ensures Fields(f, a) == Fields(g, b) <==> SameScalars(f, g) && a == b
  {
    var x, y := Fields(f, a), Fields(g, b);
    KindsDiffer();
    if x == y {
      assert x[0] == y[0] && x[1] == y[1] && x[2] == y[2] && x[3] == y[3] && x[4] == y[4] && x[5] == y[5];
      assert x[6] == y[6] && x[7] == y[7] && x[8] == y[8] && x[9] == y[9] && x[10] == y[10];
    }
  }

  lemma KindsDiffer()
    ensures KindText(Waitlist) != KindText(EarlyAccess)
  {
    assert |KindText(Waitlist)| == 8;
  }

  /** The fingerprint is canonical: payloads are equal exactly when all scalar fields are equal
      and the feature lists are equal as multisets. */
  lemma PayloadCanonical(f: Form, g: Form)
    ensures Payload(f) == Payload(g) <==>
      SameScalars(f, g) && multiset(f.profile.features) == multiset(g.profile.features)
  {
    var a, b := Sort(f.profile.features), Sort(g.profile.features);
    SortCanonical(f.profile.features, g.profile.features);
    FieldsInjective(f, a, g, b);
    KeysDistinct(f, a);
    ShapesAgree(f, a, g, b);
    hide Sort, Fields, Object, SameShape, DistinctKeys, SameScalars;
    if Payload(f) == Payload(g) { ObjectInjective(Fields(f, a), Fields(g, b)); }
  }

  /** One member of the object after the first, unless it is left out. */
  function Member(key: string, value: string, present: bool): string {
    if present then [','] + (Quoted(key) + ([':'] + value)) else ""
  }

  /** The payload, by its text: the keys in this order, empty optional fields left out, the features
      sorted. */
  lemma PayloadText(f: Form)
    ensures var p := f.profile;
      Payload(f) == ['{'] + (Quoted("submission_type") + ([':'] +
        (Quoted(if f.kind == EarlyAccess then "early_access" else "waitlist")
        + (Member("email", Quoted(f.email), true)
        + (Member("name", Quoted(p.name), p.name != "")
        + (Member("farm_name", Quoted(p.farmName), p.farmName != "")
        + (Member("farm_type", Quoted(p.farmType), p.farmType != "")
        + (Member("production_scale", Quoted(p.productionScale), p.productionScale != "")
        + LastMembers(p)))))))))
  {
    var p, features := f.profile, Sort(f.profile.features);
    var fields := Fields(f, features);
    FirstFields(f, features);
    LastText(f);
    hide Quoted, Sort, Member, Members, Fields, KindText, LastMembers;
    Opens(fields);
    Continues(fields, 1, Quoted(f.email));
    Continues(fields, 2, Quoted(p.name));
    Continues(fields, 3, Quoted(p.farmName));
    Continues(fields, 4, Quoted(p.farmType));
    Continues(fields, 5, Quoted(p.productionScale));
  }

  /** From the tracking method on. */
  function LastMembers(p: Profile): string {
    Member("current_tracking_method", Quoted(p.currentTrackingMethod), p.currentTrackingMethod != "")
    + (Member("features_of_interest", ['['] + Items(Sort(p.features)), p.features != [])
    + (Member("interested_in_testing", if p.interested == Some(true) then "true" else "false", p.interested.Some?)
    + (Member("message", Quoted(p.message), p.message != "")
    + (Member("source", Quoted(p.source), true) + ['}']))))
  }

  lemma FirstFields(f: Form, features: seq<string>)
    ensures var fields, p := Fields(f, features), f.profile;
      && |fields| == 11
      && fields[0] == Field("submission_type", Some(Text(if f.kind == EarlyAccess then "early_access" else "waitlist")))
      && fields[1] == Field("email", Some(Text(f.email)))
      && fields[2] == NonEmpty("name", p.name) && fields[3] == NonEmpty("farm_name", p.farmName)
      && fields[4] == NonEmpty("farm_type", p.farmType)
      && fields[5] == NonEmpty("production_scale", p.productionScale)
  {
  }

  lemma LastFields(f: Form, features: seq<string>)
    ensures var fields, p := Fields(f, features), f.profile;
      && |fields| == 11
      && fields[6] == NonEmpty("current_tracking_method", p.currentTrackingMethod)
      && fields[7] == Field("features_of_interest", if features == [] then None else Some(List(features)))
      && fields[8] == Field("interested_in_testing",
           if p.interested.None? then None else Some(Flag(p.interested.value)))
      && fields[9] == NonEmpty("message", p.message) && fields[10] == Field("source", Some(Text(p.source)))
  {
  }

  lemma SortedEmpty(a: seq<string>)
    ensures Sort(a) == [] <==> a == []
  {
    SortSorts(a);
    assert |multiset(Sort(a))| == |Sort(a)| && |multiset(a)| == |a|;
  }

  lemma LastText(f: Form)
    ensures Members(Fields(f, Sort(f.profile.features))[6..], false) == LastMembers(f.profile)
  {
    var p, features := f.profile, Sort(f.profile.features);
    var fields := Fields(f, features);
    LastFields(f, features);
    SortedEmpty(f.profile.features);
    hide Quoted, Items, Sort, Member, Members, Fields, Ordered;
    Continues(fields, 6, Quoted(p.currentTrackingMethod));
    Continues(fields, 7, ['['] + Items(features));
    Continues(fields, 8, if p.interested == Some(true) then "true" else "false");
    Continues(fields, 9, Quoted(p.message));
    Continues(fields, 10, Quoted(p.source));
    Closes(fields);
  }

  lemma Opens(fields: seq<Field>)
    requires fields != [] && fields[0].value.Some?
    ensures Object(fields) == ['{'] + (Quoted(fields[0].key) + ([':'] +
      (Written(fields[0].value.value) + Members(fields[1..], false))))
  {
    hide Quoted, Written;
    var rest := Quoted(fields[0].key) + ([':'] + (Written(fields[0].value.value) + Members(fields[1..], false)));
    assert Members(fields, true) == Present(true, fields[0], fields[1..]) == "" + rest == rest;
  }

  lemma Continues(fields: seq<Field>, i: nat, value: string)
    requires 0 < i < |fields| && (fields[i].value.Some? ==> value == Written(fields[i].value.value))
    ensures Members(fields[i..], false)
      == Member(fields[i].key, value, fields[i].value.Some?) + Members(fields[i + 1..], false)
  {
    hide Quoted, Written;
    var f, rest := fields[i], Members(fields[i + 1..], false);
    assert fields[i..][1..] == fields[i + 1..] && fields[i..][0] == f;
    if f.value.Some? {
      Assoc([','], Quoted(f.key) + ([':'] + value), rest);
      Assoc(Quoted(f.key), [':'] + value, rest);
      Assoc([':'], value, rest);
    }
  }

  lemma Closes(fields: seq<Field>)
    ensures Members(fields[|fields|..], false) == ['}']
  {
  }

  /** The stored fingerprint. */
  function FingerprintOf(sha: string -> Digest, f: Form): string {
    Hex(sha(Payload(f)).bytes)
  }

  /** Fingerprints identify payloads as far as the hash does. */
  lemma FingerprintCanonical(sha: string -> Digest, f: Form, g: Form)
    requires sha(Payload(f)) == sha(Payload(g)) ==> Payload(f) == Payload(g)
    ensures FingerprintOf(sha, f) == FingerprintOf(sha, g) <==>
      SameScalars(f, g) && multiset(f.profile.features) == multiset(g.profile.features)
  {
    PayloadCanonical(f, g);
    hide Payload, SameScalars;
    if FingerprintOf(sha, f) == FingerprintOf(sha, g) {
      HexInjective(sha(Payload(f)).bytes, sha(Payload(g)).bytes);
    }
  }

  /** buildPayloadFingerprint: sorts a copy, leaves the submission's own list alone. */
  method BuildFingerprint(sha: string -> Digest, f: Form) returns (fingerprint: string)
    ensures fingerprint == FingerprintOf(sha, f)
  {
    var features := new string[|f.profile.features|](i requires 0 <= i < |f.profile.features| => f.profile.features[i]);
    assert features[..] == f.profile.features;
    SortStrings(features);
    var body := Object(Fields(f, features[..]));
    fingerprint := Hex(sha(body).bytes);
  }
}

/** Normalisation of submissions and of the e-mail addresses of the grant API. */
module Normalization {
  import opened Base
  import opened Schema
  import opened Transactions
  import Tokens
  import opened Lifecycle
  import opened Runs
  import opened Text
  import opened Fingerprint

  datatype Input = Input(
    submissionType: string, email: string, name: string, farmName: string, farmType: string,
    productionScale: string, currentTrackingMethod: string, features: seq<string>,
    interested: Option<bool>, message: string, source: string, website: string)

  datatype Result<+T> = Ok(value: T) | Invalid(message: string)

  const MAX_EMAIL_LENGTH := 320
  const MAX_NAME_LENGTH := 120
  const MAX_FARM_NAME_LENGTH := 160
  const MAX_FARM_TYPE_LENGTH := 120
  const MAX_PRODUCTION_SCALE_LENGTH := 120
  const MAX_CURRENT_TRACKING_METHOD_LENGTH := 240
  const MAX_FEATURE_LENGTH := 80
  const MAX_FEATURE_COUNT := 20
  const MAX_MESSAGE_LENGTH := 2000
  const MAX_SOURCE_LENGTH := 80
  const DEFAULT_SOURCE := "marketing_site"

  /** What the services use from outside: the address that mail.ParseAddress finds in a text, if
      any; the case folding of one character; the hash. */
  datatype Env = Env(parse: string -> Option<string>, lower: char -> char, sha: string -> Digest)

  // ---- E-mail addresses -------------------------------------------------------------------------

  /** strings.Cut at a character. */
  function Cut(s: string, sep: char): Option<(string, string)> {
    if s == "" then None
    else if s[0] == sep then Some(("", s[1..]))
    else var rest :- Cut(s[1..], sep); Some(([s[0]] + rest.0, rest.1))
  }

  /** The text before the first separator, and the text after it. */
  lemma {:induction false} Cuts(s: string, sep: char, local: string, domain: string)
    ensures Cut(s, sep) == Some((local, domain)) <==> s == local + [sep] + domain && sep !in local
  {
    if s != "" && s[0] != sep {
      if local != "" {
        Cuts(s[1..], sep, local[1..], domain);
        assert s == [s[0]] + s[1..] && local == [local[0]] + local[1..];
        assert (local + [sep] + domain)[1..] == local[1..] + [sep] + domain;
      }
    } else if s != "" {
      assert s == "" + [sep] + s[1..];
      if s == local + [sep] + domain && local != "" { assert local[0] == s[0]; }
    }
  }

  predicate ValidEmail(env: Env, email: string) {
    && email != "" && Length(email) <= MAX_EMAIL_LENGTH && !ContainsAny(email, {' ', '\t', '\r', '\n'})
    && env.parse(email) == Some(email)
    && match Cut(email, '@')
       case None => false
       case Some((local, domain)) => local != "" && domain != "" && domain[0] != '.' && domain[|domain| - 1] != '.'
  }

  /** normalizeEmail of the grant API; None stands for its one error. */
  function NormalizeEmail(env: Env, value: string): Option<string> {
    var v := Lower(env.lower, Trim(value));
    if env.parse(v) != Some(v) || Length(v) > MAX_EMAIL_LENGTH then None else Some(v)
  }

  /** An address as submissions store it. */
  ghost predicate NormalEmail(env: Env, email: string) {
    Trimmed(email) && Lower(env.lower, email) == email && ValidEmail(env, email)
  }

  lemma {:induction false} UnfoldedTrim(env: Env, s: string)
    requires IsLower(env.lower)
    ensures Trimmed(Lower(env.lower, s)) <==> Trimmed(s)
  {
  }

  /** The grant API finds an address exactly by its variants in case and outer space: any such
      variant normalises to the address, and nothing else does. */
  lemma EmailReachable(env: Env, email: string, value: string)
    requires IsLower(env.lower) && NormalEmail(env, email)
    ensures NormalizeEmail(env, value) == Some(email) <==>
      exists p, core, q :: AllSpace(p) && AllSpace(q) && value == p + core + q && Lower(env.lower, core) == email
  {
    TrimSplits(value);
    hide Trim;
    if NormalizeEmail(env, value) == Some(email) {
      var p, q :| AllSpace(p) && AllSpace(q) && value == p + Trim(value) + q;
      assert Lower(env.lower, Trim(value)) == email;
    }
    if p, core, q :| AllSpace(p) && AllSpace(q) && value == p + core + q && Lower(env.lower, core) == email {
      UnfoldedTrim(env, core);
      TrimPadded(p, core, q);
    }
  }

  // ---- Features ---------------------------------------------------------------------------------

  /** The features that are kept, in their order. */
  function Kept(features: seq<string>): seq<string> {
    if features == [] then []
    else
      var f := Trim(features[|features| - 1]);
      Kept(features[..|features| - 1]) + if f == "" then [] else [f]
  }

  predicate TooLong(feature: string) {
    Length(Trim(feature)) > MAX_FEATURE_LENGTH
  }

  const TOO_MANY := "features_of_interest exceeds the maximum number of entries"
  const TOO_LONG := "features_of_interest contains a value that exceeds the maximum length"

  function FeaturesOf(features: seq<string>): Result<seq<string>> {
    if |features| > MAX_FEATURE_COUNT then Invalid(TOO_MANY)
    else if exists i :: 0 <= i < |features| && TooLong(features[i]) then Invalid(TOO_LONG)
    else Ok(Kept(features))
  }

  method NormalizeFeatures(features: seq<string>) returns (r: Result<seq<string>>)
    ensures r == FeaturesOf(features)
  {
    hide Trim, Length;
    EmptyIsShort();
    if |features| > MAX_FEATURE_COUNT {
      return Invalid(TOO_MANY);
    }
    var normalized: seq<string> := [];
    for i := 0 to |features|
      invariant normalized == Kept(features[..i])
      invariant forall k :: 0 <= k < i ==> !TooLong(features[k])
    {
      assert features[..i + 1][..i] == features[..i];
      var feature := Trim(features[i]);
      if feature == "" {
        continue;
      }
      if Length(feature) > MAX_FEATURE_LENGTH {
        assert TooLong(features[i]);
        return Invalid(TOO_LONG);
      }
      normalized := normalized + [feature];
    }
    assert features[..|features|] == features;
    return Ok(normalized);
  }

  lemma EmptyIsShort()
    ensures Length("") == 0
  {
  }

  predicate NormalFeature(f: string) {
    f != "" && Trimmed(f) && Length(f) <= MAX_FEATURE_LENGTH
  }

  lemma {:induction false} KeptNormal(features: seq<string>)
    requires forall i :: 0 <= i < |features| ==> !TooLong(features[i])
    ensures |Kept(features)| <= |features| && forall i :: 0 <= i < |Kept(features)| ==> NormalFeature(Kept(features)[i])
  {
    hide Trim, Length, Trimmed;
    if features != [] {
      KeptNormal(features[..|features| - 1]);
      TrimSplits(features[|features| - 1]);
    }
  }

  lemma {:induction false} KeptFixed(features: seq<string>)
    requires forall i :: 0 <= i < |features| ==> NormalFeature(features[i])
    ensures Kept(features) == features && forall i :: 0 <= i < |features| ==> !TooLong(features[i])
  {
    hide Trim, Length, Trimmed;
    if features != [] {
      var last := features[|features| - 1];
      KeptFixed(features[..|features| - 1]);
      TrimFixed(last);
      assert features == features[..|features| - 1] + [last];
      forall i | 0 <= i < |features| ensures !TooLong(features[i]) {
        TrimFixed(features[i]);
      }
    }
  }

  // ---- Whole submissions ------------------------------------------------------------------------

  function KindOf(text: string): Option<Kind> {
    if text == KindText(Waitlist) then Some(Waitlist)
    else if text == KindText(EarlyAccess) then Some(EarlyAccess) else None
  }

  function Exceeds(field: string): string {
    field + " exceeds the maximum length"
  }

  /** The first length check that fails, in the order the checks are made. */
  function LengthError(email: string, p: Profile): Option<string> {
    if Length(email) > MAX_EMAIL_LENGTH then Some(Exceeds("email"))
    else if Length(p.name) > MAX_NAME_LENGTH then Some(Exceeds("name"))
    else if Length(p.farmName) > MAX_FARM_NAME_LENGTH then Some(Exceeds("farm_name"))
    else if Length(p.farmType) > MAX_FARM_TYPE_LENGTH then Some(Exceeds("farm_type"))
    else if Length(p.productionScale) > MAX_PRODUCTION_SCALE_LENGTH then Some(Exceeds("production_scale"))
    else if Length(p.currentTrackingMethod) > MAX_CURRENT_TRACKING_METHOD_LENGTH
      then Some(Exceeds("current_tracking_method"))
    else if Length(p.message) > MAX_MESSAGE_LENGTH then Some(Exceeds("message"))
    else if Length(p.source) > MAX_SOURCE_LENGTH then Some(Exceeds("source"))
    else None
  }

  function ProfileOf(input: Input): Profile {
    Profile(Trim(input.name), Trim(input.farmName), Trim(input.farmType), Trim(input.productionScale),
      Trim(input.currentTrackingMethod), [], input.interested, Trim(input.message),
      if Trim(input.source) == "" then DEFAULT_SOURCE else Trim(input.source))
  }

  function Normalized(env: Env, input: Input): Result<Form> {
    var kind := KindOf(Trim(input.submissionType));
    var email := Lower(env.lower, Trim(input.email));
    var profile := ProfileOf(input);
    if kind.None? then Invalid("submission_type must be waitlist or early_access")
    else if !ValidEmail(env, email) then Invalid("email must be valid")
    else if Trim(input.website) != "" then Invalid("website honeypot must be empty")
    else if LengthError(email, profile).Some? then Invalid(LengthError(email, profile).value)
    else match FeaturesOf(input.features)
      case Invalid(m) => Invalid(m)
      case Ok(features) =>
        var form := Form(kind.value, email, profile.(features := features), "");
        Ok(form.(fingerprint := FingerprintOf(env.sha, form)))
  }

  /** The features kept are those of the parts, one by one. */
  lemma {:induction false} KeptParts(a: seq<string>, b: seq<string>, x: string)
    ensures Kept(a + b) == Kept(a) + Kept(b) && Kept([]) == []
    ensures Kept([x]) == if Trim(x) == "" then [] else [Trim(x)]
  {
    hide Trim;
    assert [x][..0] == [];
    if b == [] {
      assert a + b == a;
    } else {
      assert (a + b)[..|a + b| - 1] == a + b[..|b| - 1];
      KeptParts(a, b[..|b| - 1], x);
    }
  }

  /** What an address must look like, with the limit in bytes. */
  ghost predicate WellFormed(env: Env, email: string) {
    && Length(email) <= 320 && (forall i :: 0 <= i < |email| ==> email[i] !in {' ', '\t', '\r', '\n'})
    && env.parse(email) == Some(email)
    && exists local, domain :: email == local + ['@'] + domain && '@' !in local && Domain(domain) && local != ""
  }

  predicate Domain(domain: string) {
    domain != "" && domain[0] != '.' && domain[|domain| - 1] != '.'
  }

  lemma AddressIff(env: Env, email: string)
    ensures ValidEmail(env, email) <==> WellFormed(env, email)
    ensures WellFormed(env, email) ==> Length(email) <= 320
  {
    hide Length;
    if WellFormed(env, email) {
      var local, domain :| email == local + ['@'] + domain && '@' !in local && Domain(domain) && local != "";
      Cuts(email, '@', local, domain);
      assert email != "";
    }
    if ValidEmail(env, email) {
      var parts := Cut(email, '@').value;
      Cuts(email, '@', parts.0, parts.1);
      assert email == parts.0 + ['@'] + parts.1 && '@' !in parts.0 && Domain(parts.1) && parts.0 != "";
    }
  }

  /** The first of the optional fields that is too long names the message. Limits are in bytes. */
  lemma TooLongIs(input: Input)
    ensures var source := if Trim(input.source) == "" then "marketing_site" else Trim(input.source);
      var long := " exceeds the maximum length";
      LengthError("", ProfileOf(input)) ==
        if Length(Trim(input.name)) > 120 then Some("name" + long)
        else if Length(Trim(input.farmName)) > 160 then Some("farm_name" + long)
        else if Length(Trim(input.farmType)) > 120 then Some("farm_type" + long)
        else if Length(Trim(input.productionScale)) > 120 then Some("production_scale" + long)
        else if Length(Trim(input.currentTrackingMethod)) > 240 then Some("current_tracking_method" + long)
        else if Length(Trim(input.message)) > 2000 then Some("message" + long)
        else if Length(source) > 80 then Some("source" + long) else None
  {
    EmptyIsShort();
    LengthErrors("", ProfileOf(input));
    hide Trim, Length, LengthError;
  }

  /** The first check that fails names the message, and an input that fails none is accepted with these
      parts. */
  lemma NormalizedIs(env: Env, input: Input)
    ensures var email := Lower(env.lower, Trim(input.email));
      var source := if Trim(input.source) == "" then "marketing_site" else Trim(input.source);
      var r := Normalized(env, input);
      if Trim(input.submissionType) != "waitlist" && Trim(input.submissionType) != "early_access" then
        r == Invalid("submission_type must be waitlist or early_access")
      else if !WellFormed(env, email) then r == Invalid("email must be valid")
      else if Trim(input.website) != "" then r == Invalid("website honeypot must be empty")
      else if LengthError("", ProfileOf(input)).Some? then r == Invalid(LengthError("", ProfileOf(input)).value)
      else if |input.features| > 20 then r == Invalid("features_of_interest exceeds the maximum number of entries")
      else if exists i :: 0 <= i < |input.features| && Length(Trim(input.features[i])) > 80 then
        r == Invalid("features_of_interest contains a value that exceeds the maximum length")
      else
        r.Ok?
        && r.value == Form(if Trim(input.submissionType) == "waitlist" then Waitlist else EarlyAccess, email,
             Profile(Trim(input.name), Trim(input.farmName), Trim(input.farmType), Trim(input.productionScale),
               Trim(input.currentTrackingMethod), Kept(input.features), input.interested, Trim(input.message), source),
             r.value.fingerprint)
        && r.value.fingerprint == Tokens.Hex(env.sha(Payload(r.value)).bytes)
  {
    var email := Lower(env.lower, Trim(input.email));
    AddressIff(env, email);
    FeatureLimits(input.features);
    if WellFormed(env, email) { EmailShort(email, ProfileOf(input)); }
    hide LengthError, Trim, Length, ValidEmail, Lower, Kept, FeaturesOf, WellFormed, Payload;
    if Normalized(env, input).Ok? { PayloadIgnoresFingerprint(Normalized(env, input).value, ""); }
  }

  lemma EmailShort(email: string, p: Profile)
    requires Length(email) <= 320
    ensures LengthError(email, p) == LengthError("", p)
  {
    EmptyIsShort();
    hide Length;
  }

  lemma LengthErrors(email: string, p: Profile)
    requires Length(email) <= 320
    ensures var long := " exceeds the maximum length";
      LengthError(email, p) ==
        if Length(p.name) > 120 then Some("name" + long)
        else if Length(p.farmName) > 160 then Some("farm_name" + long)
        else if Length(p.farmType) > 120 then Some("farm_type" + long)
        else if Length(p.productionScale) > 120 then Some("production_scale" + long)
        else if Length(p.currentTrackingMethod) > 240 then Some("current_tracking_method" + long)
        else if Length(p.message) > 2000 then Some("message" + long)
        else if Length(p.source) > 80 then Some("source" + long) else None
  {
    hide Length;
  }

  lemma FeatureLimits(features: seq<string>)
    ensures FeaturesOf(features) ==
      if |features| > 20 then Invalid("features_of_interest exceeds the maximum number of entries")
      else if exists i :: 0 <= i < |features| && Length(Trim(features[i])) > 80 then
        Invalid("features_of_interest contains a value that exceeds the maximum length")
      else Ok(Kept(features))
  {
    hide Trim, Length, Kept;
    if i :| 0 <= i < |features| && Length(Trim(features[i])) > 80 { assert TooLong(features[i]); }
  }

  /** A form as the service stores it. */
  ghost predicate Normal(env: Env, f: Form) {
    && NormalEmail(env, f.email)
    && Trimmed(f.profile.name) && Trimmed(f.profile.farmName) && Trimmed(f.profile.farmType)
    && Trimmed(f.profile.productionScale) && Trimmed(f.profile.currentTrackingMethod)
    && Trimmed(f.profile.message) && Trimmed(f.profile.source) && f.profile.source != ""
    && LengthError(f.email, f.profile).None?
    && |f.profile.features| <= MAX_FEATURE_COUNT
    && (forall i :: 0 <= i < |f.profile.features| ==> NormalFeature(f.profile.features[i]))
    && f.fingerprint == FingerprintOf(env.sha, f)
  }

  method CheckLength(field: string, value: string, max: nat) returns (error: Option<string>)
    ensures error == if Length(value) > max then Some(Exceeds(field)) else None
  {
    return if Length(value) > max then Some(Exceeds(field)) else None;
  }

  /** Normalize: the checks in their order, each returning at once. */
  method Normalize(env: Env, input: Input) returns (r: Result<Form>)
    ensures r == Normalized(env, input)
  {
    hide Trim, Length, ValidEmail, Lower, FingerprintOf, FeaturesOf;
    var kind := KindOf(Trim(input.submissionType));
    if kind.None? { return Invalid("submission_type must be waitlist or early_access"); }
    var email := Lower(env.lower, Trim(input.email));
    if !ValidEmail(env, email) { return Invalid("email must be valid"); }
    var name, farmName, farmType := Trim(input.name), Trim(input.farmName), Trim(input.farmType);
    var productionScale, currentTrackingMethod := Trim(input.productionScale), Trim(input.currentTrackingMethod);
    var message, source, website := Trim(input.message), Trim(input.source), Trim(input.website);
    if website != "" { return Invalid("website honeypot must be empty"); }
    if source == "" { source := DEFAULT_SOURCE; }
    var error := CheckLength("email", email, MAX_EMAIL_LENGTH);
    if error.Some? { return Invalid(error.value); }
    error := CheckLength("name", name, MAX_NAME_LENGTH);
    if error.Some? { return Invalid(error.value); }
    error := CheckLength("farm_name", farmName, MAX_FARM_NAME_LENGTH);
    if error.Some? { return Invalid(error.value); }
    error := CheckLength("farm_type", farmType, MAX_FARM_TYPE_LENGTH);
    if error.Some? { return Invalid(error.value); }
    error := CheckLength("production_scale", productionScale, MAX_PRODUCTION_SCALE_LENGTH);
    if error.Some? { return Invalid(error.value); }
    error := CheckLength("current_tracking_method", currentTrackingMethod, MAX_CURRENT_TRACKING_METHOD_LENGTH);
    if error.Some? { return Invalid(error.value); }
    error := CheckLength("message", message, MAX_MESSAGE_LENGTH);
    if error.Some? { return Invalid(error.value); }
    error := CheckLength("source", source, MAX_SOURCE_LENGTH);
    if error.Some? { return Invalid(error.value); }
    var features := NormalizeFeatures(input.features);
    if features.Invalid? { return Invalid(features.message); }
    var form := Form(kind.value, email, Profile(name, farmName, farmType, productionScale,
      currentTrackingMethod, features.value, input.interested, message, source), "");
    var fingerprint := BuildFingerprint(env.sha, form);
    return Ok(form.(fingerprint := fingerprint));
  }

  lemma PayloadIgnoresFingerprint(f: Form, fingerprint: string)
    ensures Payload(f.(fingerprint := fingerprint)) == Payload(f)
  {
  }

  lemma ProfileTrimmed(input: Input)
    ensures var p := ProfileOf(input);
      && Trimmed(p.name) && Trimmed(p.farmName) && Trimmed(p.farmType) && Trimmed(p.productionScale)
      && Trimmed(p.currentTrackingMethod) && Trimmed(p.message) && Trimmed(p.source) && p.source != ""
  {
    TrimSplits(input.name);
    TrimSplits(input.farmName);
    TrimSplits(input.farmType);
    TrimSplits(input.productionScale);
    TrimSplits(input.currentTrackingMethod);
    TrimSplits(input.message);
    TrimSplits(input.source);
    assert Trimmed(DEFAULT_SOURCE);
    hide Trim, Trimmed;
  }

  /** The kind of an accepted form is what its text says. */
  lemma KindAccepted(env: Env, input: Input, f: Form)
    requires Normalized(env, input) == Ok(f)
    ensures f.kind == EarlyAccess <==> Trim(input.submissionType) == "early_access"
    ensures f.kind == Waitlist <==> Trim(input.submissionType) == "waitlist"
  {
    hide Trim, ValidEmail, Lower, FeaturesOf, LengthError, ProfileOf, Payload;
    assert "waitlist"[0] == 'w' && "early_access"[0] == 'e';
  }

  /** What acceptance means: every check passed, and the form is put together from the parts. */
  lemma Accepted(env: Env, input: Input, f: Form)
    ensures Normalized(env, input) == Ok(f) <==>
      && KindOf(Trim(input.submissionType)) == Some(f.kind)
      && f.email == Lower(env.lower, Trim(input.email)) && ValidEmail(env, f.email)
      && Trim(input.website) == ""
      && LengthError(f.email, f.profile).None?
      && FeaturesOf(input.features) == Ok(f.profile.features)
      && f.profile.(features := []) == ProfileOf(input)
      && f.fingerprint == FingerprintOf(env.sha, f)
  {
    LengthsIgnoreFeatures(f.email, f.profile);
    PayloadIgnoresFingerprint(f, "");
    assert ProfileOf(input).features == [];
    if Normalized(env, input) == Ok(f) { LengthsIgnoreFeatures(f.email, ProfileOf(input)); }
    hide Trim, Length, ValidEmail, Lower, FeaturesOf, LengthError, ProfileOf, KindOf, Payload;
    if KindOf(Trim(input.submissionType)) == Some(f.kind) && FeaturesOf(input.features) == Ok(f.profile.features)
      && f.profile.(features := []) == ProfileOf(input) {
      assert f.profile == ProfileOf(input).(features := f.profile.features);
    }
  }

  lemma LengthsIgnoreFeatures(email: string, p: Profile)
    ensures LengthError(email, p.(features := [])) == LengthError(email, p)
  {
  }

  lemma AcceptedFeatures(features: seq<string>, kept: seq<string>)
    requires FeaturesOf(features) == Ok(kept)
    ensures |kept| <= MAX_FEATURE_COUNT && forall i :: 0 <= i < |kept| ==> NormalFeature(kept[i])
  {
    hide Trim, Length, Trimmed, TooLong, NormalFeature;
    KeptNormal(features);
  }

  lemma AcceptedEmail(env: Env, email: string)
    requires IsLower(env.lower) && ValidEmail(env, Lower(env.lower, Trim(email)))
    ensures NormalEmail(env, Lower(env.lower, Trim(email)))
  {
    hide Trim, ValidEmail;
    TrimSplits(email);
    LowerTrimmed(env.lower, Trim(email));
  }

  /** Whatever is accepted is stored in normal form. */
  lemma NormalizedIsNormal(env: Env, input: Input)
    requires IsLower(env.lower)
    ensures Normalized(env, input).Ok? ==> Normal(env, Normalized(env, input).value)
  {
    hide Normalized, Trim, Trimmed, ValidEmail, Lower, NormalFeature, LengthError, FeaturesOf, ProfileOf,
      NormalEmail, Payload;
    if Normalized(env, input).Ok? {
      var f := Normalized(env, input).value;
      Accepted(env, input, f);
      ProfileTrimmed(input);
      AcceptedEmail(env, input.email);
      AcceptedFeatures(input.features, f.profile.features);
    }
  }

  /** A stored form submitted again as it stands. */
  function Resubmitted(f: Form): Input {
    var p := f.profile;
    Input(KindText(f.kind), f.email, p.name, p.farmName, p.farmType, p.productionScale,
      p.currentTrackingMethod, p.features, p.interested, p.message, p.source, "")
  }

  lemma KindFixed(kind: Kind)
    ensures KindOf(Trim(KindText(kind))) == Some(kind)
  {
    assert Trimmed(KindText(kind));
    TrimFixed(KindText(kind));
    KindsDiffer();
  }

  lemma ProfileFixed(f: Form)
    requires var p := f.profile;
      && Trimmed(p.name) && Trimmed(p.farmName) && Trimmed(p.farmType) && Trimmed(p.productionScale)
      && Trimmed(p.currentTrackingMethod) && Trimmed(p.message) && Trimmed(p.source) && p.source != ""
    ensures ProfileOf(Resubmitted(f)) == f.profile.(features := [])
  {
    var p := f.profile;
    TrimFixed(p.name);
    TrimFixed(p.farmName);
    TrimFixed(p.farmType);
    TrimFixed(p.productionScale);
    TrimFixed(p.currentTrackingMethod);
    TrimFixed(p.message);
    TrimFixed(p.source);
    hide Trim, Trimmed;
  }

  lemma FeaturesFixed(features: seq<string>)
    requires |features| <= MAX_FEATURE_COUNT && forall i :: 0 <= i < |features| ==> NormalFeature(features[i])
    ensures FeaturesOf(features) == Ok(features)
  {
    hide TooLong, NormalFeature;
    KeptFixed(features);
  }

  /** Normalisation is idempotent, and the normal forms are exactly its fixed points. */
  lemma NormalizeIdempotent(env: Env, f: Form)
    requires IsLower(env.lower)
    ensures Normalized(env, Resubmitted(f)) == Ok(f) <==> Normal(env, f)
  {
    hide Normalized, Trim, Trimmed, ValidEmail, Lower, NormalFeature, LengthError, FeaturesOf, ProfileOf, KindOf,
      Payload;
    NormalizedIsNormal(env, Resubmitted(f));
    if Normal(env, f) {
      KindFixed(f.kind);
      ProfileFixed(f);
      TrimFixed(f.email);
      assert Trimmed("") && Trim("") == "" by { Blanks(); }
      FeaturesFixed(f.profile.features);
      Accepted(env, Resubmitted(f), f);
    }
  }

  lemma Blanks()
    ensures Trimmed("") && Trim("") == ""
  {
  }

  /** A form in normal form breaks no CHECK constraint when it is inserted. */
  lemma NormalInserts(env: Env, f: Form, start: Time)
    requires Normal(env, f) && |env.sha(Payload(f)).bytes| == DIGEST_LENGTH
    ensures SubmissionCheck(NewSubmission(f, start))
  {
    assert f.email[0] != ' ' && f.profile.source[0] != ' ' by {
      hide ValidEmail;
      assert IsSpace(' ');
      EmailNotEmpty(env, f.email);
    }
    assert |f.fingerprint| == 64 && Tokens.IsHexDigit(f.fingerprint[0]);
    assert !Tokens.IsHexDigit(' ');
  }

  lemma EmailNotEmpty(env: Env, email: string)
    requires NormalEmail(env, email)
    ensures email != ""
  {
  }

  // ---- Addresses of grants, over whole runs -----------------------------------------------------

  ghost predicate NormalEmails(env: Env, db: Db) {
    forall id :: id in db.submissions ==> NormalEmail(env, db.submissions[id].form.email)
  }

  lemma OldOrCreated(db: Db, req: Request)
    requires Valid(db)
    ensures var db' := Exec(db, req).0;
      forall id :: id in db'.submissions ==>
        || (id in db.submissions && db'.submissions[id].form == db.submissions[id].form)
        || (req.Create? && db'.submissions[id].form == req.form)
  {
    hide Valid, Exec, Insertable, Storable, GrantMove;
    match req
    case Approve(review, c, now, start) => ApproveCases(db, review, c, now, start);
    case Decline(review, now) => DeclineCases(db, review, now);
    case Create(form, since, capability, id, start) => CreateCases(db, form, since, capability, id, start);
    case CloseReview(d, closing, now) => CloseReviewCases(db, d, closing, now);
    case _ => GrantCases(db, req);
  }

  lemma {:induction false} RunNormal(env: Env, db: Db, reqs: seq<Request>, i: nat)
    requires Valid(db) && NormalEmails(env, db) && i <= |reqs|
    requires forall k :: 0 <= k < |reqs| && reqs[k].Create? ==> NormalEmail(env, reqs[k].form.email)
    ensures NormalEmails(env, StateAt(db, reqs, i))
  {
    hide Valid, Exec, NormalEmail;
    if i > 0 {
      RunNormal(env, db, reqs, i - 1);
      RunValid(db, reqs, i - 1);
      OldOrCreated(StateAt(db, reqs, i - 1), reqs[i - 1]);
    }
  }

  /** If all submissions are stored normalised, a grant is selected by exactly those addresses
      that are variants of the applicant's address in case and outer space. */
  lemma GrantSelected(env: Env, db: Db, reqs: seq<Request>, i: nat, d: Digest, value: string)
    requires IsLower(env.lower) && Valid(db) && NormalEmails(env, db) && i <= |reqs|
    requires forall k :: 0 <= k < |reqs| && reqs[k].Create? ==> NormalEmail(env, reqs[k].form.email)
    requires d in StateAt(db, reqs, i).grants
    ensures var email := StateAt(db, reqs, i).grants[d].email;
      (NormalizeEmail(env, value).Some? && GrantFound(StateAt(db, reqs, i), d, NormalizeEmail(env, value).value)) <==>
      exists p, core, q :: AllSpace(p) && AllSpace(q) && value == p + core + q && Lower(env.lower, core) == email
  {
    RunNormal(env, db, reqs, i);
    RunValid(db, reqs, i);
    var s := StateAt(db, reqs, i);
    GrantEmail(env, s, d);
    hide Valid, StateAt, NormalEmail, NormalizeEmail, NormalEmails, Lower;
    EmailReachable(env, s.grants[d].email, value);
  }

  lemma GrantEmail(env: Env, db: Db, d: Digest)
    requires Valid(db) && NormalEmails(env, db) && d in db.grants
    ensures NormalEmail(env, db.grants[d].email)
  {
    hide SubmissionsOk, ReviewsOk, UniqueReviews, UniqueGrants, NormalEmail;
  }
}

/** Redaction of evidence payloads: a recursive redactor and the validator that checks its
    output, over JSON trees that may still hold tuples. */
module Redaction {
  import opened Prelude

  datatype Json =
    | Null
    | Bool(flag: bool)
    | Num(number: int)
    | Str(text: string)
    | Arr(items: seq<Json>)
    | Tup(entries: seq<Json>)
    | Obj(fields: seq<Field>)

  datatype Field = Field(key: string, value: Json)

  const REDACTED_SECRET: string := "[REDACTED_SECRET]"
  const REDACTED_MANAGER: string := "[REDACTED_MANAGER_DATA]"
  const REDACTED_LOG: string := "[REDACTED_UNRESTRICTED_LOG]"

  /** The sensitive key classes, and the two inline patterns with their substitutions. */
  datatype Rules = Rules(
    secret: string -> bool, manager: string -> bool, log: string -> bool,
    hasCredential: string -> bool, hasPhone: string -> bool,
    subCredential: string -> string, subPhone: string -> string)
  {
    predicate Leaks(s: string) { hasCredential(s) || hasPhone(s) }

    function Scrub(s: string): string { subPhone(subCredential(s)) }

    predicate Plain(key: string) { !secret(key) && !manager(key) && !log(key) }

    /** Substituting a pattern that does not occur changes nothing, and the markers are harmless. */
    ghost predicate Valid() {
      && (forall s :: !hasCredential(s) ==> subCredential(s) == s)
      && (forall s :: !hasPhone(s) ==> subPhone(s) == s)
      && !Leaks(REDACTED_SECRET) && !Leaks(REDACTED_MANAGER) && !Leaks(REDACTED_LOG)
    }
  }

  function Redact(r: Rules, v: Json): Json {
    match v
    case Obj(fields) =>
      Obj(seq(|fields|, i requires 0 <= i < |fields| => Field(fields[i].key, RedactField(r, fields[i]))))
    case Arr(items) => Arr(seq(|items|, i requires 0 <= i < |items| => Redact(r, items[i])))
    case Tup(entries) => Arr(seq(|entries|, i requires 0 <= i < |entries| => Redact(r, entries[i])))
    case Str(text) => Str(r.Scrub(text))
    case Null => v
    case Bool(_) => v
    case Num(_) => v
  }

  function RedactField(r: Rules, f: Field): Json {
    if r.secret(f.key) then Str(REDACTED_SECRET)
    else if r.manager(f.key) then Str(REDACTED_MANAGER)
    else if r.log(f.key) then Str(REDACTED_LOG)
    else Redact(r, f.value)
  }

  predicate Validate(r: Rules, v: Json) {
    match v
    case Obj(fields) => forall i :: 0 <= i < |fields| ==> ValidateField(r, fields[i])
    case Arr(items) => forall i :: 0 <= i < |items| ==> Validate(r, items[i])
    case Tup(entries) => forall i :: 0 <= i < |entries| ==> Validate(r, entries[i])
    case Str(text) => !r.Leaks(text)
    case Null => true
    case Bool(_) => true
    case Num(_) => true
  }

  /** Every class the key is in demands its own marker. */
  predicate ValidateField(r: Rules, f: Field) {
    && (r.secret(f.key) ==> f.value == Str(REDACTED_SECRET))
    && (r.manager(f.key) ==> f.value == Str(REDACTED_MANAGER))
    && (r.log(f.key) ==> f.value == Str(REDACTED_LOG))
    && Validate(r, f.value)
  }

  // ----- fixed points -----

  /** The tree with every tuple turned into a list, and nothing else changed. */
  ghost function Untuple(v: Json): Json {
    match v
    case Obj(fields) =>
      Obj(seq(|fields|, i requires 0 <= i < |fields| => Field(fields[i].key, Untuple(fields[i].value))))
    case Arr(items) => Arr(seq(|items|, i requires 0 <= i < |items| => Untuple(items[i])))
    case Tup(entries) => Arr(seq(|entries|, i requires 0 <= i < |entries| => Untuple(entries[i])))
    case _ => v
  }

  ghost predicate TupleFree(v: Json) {
    match v
    case Obj(fields) => forall i :: 0 <= i < |fields| ==> TupleFree(fields[i].value)
    case Arr(items) => forall i :: 0 <= i < |items| ==> TupleFree(items[i])
    case Tup(_) => false
    case _ => true
  }

  /** A tree the validator accepts loses nothing to the redactor but its tuples. */
  lemma {:induction false} ValidatedIsFixed(r: Rules, v: Json)
    requires r.Valid() && Validate(r, v)
    ensures Redact(r, v) == Untuple(v)
  {
    match v
    case Obj(fields) =>
      forall i | 0 <= i < |fields| ensures RedactField(r, fields[i]) == Untuple(fields[i].value) {
        assert ValidateField(r, fields[i]);
        ValidatedIsFixed(r, fields[i].value);
      }
    case Arr(items) =>
      forall i | 0 <= i < |items| ensures Redact(r, items[i]) == Untuple(items[i]) {
        ValidatedIsFixed(r, items[i]);
      }
    case Tup(entries) =>
      forall i | 0 <= i < |entries| ensures Redact(r, entries[i]) == Untuple(entries[i]) {
        ValidatedIsFixed(r, entries[i]);
      }
    case _ =>
  }

  lemma {:induction false} UntupleFixedIffTupleFree(v: Json)
    ensures Untuple(v) == v <==> TupleFree(v)
  {
    match v
    case Obj(fields) =>
      forall i | 0 <= i < |fields| ensures Untuple(fields[i].value) == fields[i].value <==> TupleFree(fields[i].value) {
        UntupleFixedIffTupleFree(fields[i].value);
      }
      var us := Untuple(v).fields;
      assert forall i :: 0 <= i < |fields| ==> us[i] == Field(fields[i].key, Untuple(fields[i].value));
      if TupleFree(v) { assert us == fields; }
    case Arr(items) =>
      forall i | 0 <= i < |items| ensures Untuple(items[i]) == items[i] <==> TupleFree(items[i]) {
        UntupleFixedIffTupleFree(items[i]);
      }
      var us := Untuple(v).items;
      assert forall i :: 0 <= i < |items| ==> us[i] == Untuple(items[i]);
      if TupleFree(v) { assert us == items; }
    case Tup(_) =>
    case _ =>
  }

  /** On validated trees the redactor is the identity exactly where there is no tuple. */
  lemma FixedIffTupleFree(r: Rules, v: Json)
    requires r.Valid() && Validate(r, v)
    ensures Redact(r, v) == v <==> TupleFree(v)
  {
    ValidatedIsFixed(r, v);
    UntupleFixedIffTupleFree(v);
  }

  lemma {:induction false} RedactedIsTupleFree(r: Rules, v: Json)
    ensures TupleFree(Redact(r, v))
  {
    match v
    case Obj(fields) =>
      forall i | 0 <= i < |fields| ensures TupleFree(RedactField(r, fields[i])) {
        RedactedIsTupleFree(r, fields[i].value);
      }
    case Arr(items) =>
      forall i | 0 <= i < |items| ensures TupleFree(Redact(r, items[i])) { RedactedIsTupleFree(r, items[i]); }
    case Tup(entries) =>
      forall i | 0 <= i < |entries| ensures TupleFree(Redact(r, entries[i])) { RedactedIsTupleFree(r, entries[i]); }
    case _ =>
  }

  /** Redacting what was redacted and then validated changes nothing. */
  lemma SecondRedactionIsIdle(r: Rules, v: Json)
    requires r.Valid() && Validate(r, Redact(r, v))
    ensures Redact(r, Redact(r, v)) == Redact(r, v)
  {
    RedactedIsTupleFree(r, v);
    FixedIffTupleFree(r, Redact(r, v));
  }

  // ----- when redaction passes validation -----

  /** The key is in at most one sensitive class. */
  predicate OneClass(r: Rules, key: string) {
    !(r.secret(key) && r.manager(key)) && !(r.secret(key) && r.log(key)) && !(r.manager(key) && r.log(key))
  }

  /** No visited key is in two classes, and no visited string still leaks once scrubbed. Values
      behind sensitive keys are not visited. */
  ghost predicate Redactable(r: Rules, v: Json) {
    match v
    case Obj(fields) => forall i :: 0 <= i < |fields| ==>
      OneClass(r, fields[i].key) && (r.Plain(fields[i].key) ==> Redactable(r, fields[i].value))
    case Arr(items) => forall i :: 0 <= i < |items| ==> Redactable(r, items[i])
    case Tup(entries) => forall i :: 0 <= i < |entries| ==> Redactable(r, entries[i])
    case Str(text) => !r.Leaks(r.Scrub(text))
    case _ => true
  }

  lemma FieldPassesIff(r: Rules, f: Field)
    requires r.Valid()
    requires Validate(r, Redact(r, f.value)) <==> Redactable(r, f.value)
    ensures ValidateField(r, Field(f.key, RedactField(r, f)))
       <==> OneClass(r, f.key) && (r.Plain(f.key) ==> Redactable(r, f.value))
  {
    assert REDACTED_SECRET[10] != REDACTED_MANAGER[10] && REDACTED_SECRET[10] != REDACTED_LOG[10]
        && REDACTED_MANAGER[10] != REDACTED_LOG[10];
  }

  /** Redaction is accepted by the validator exactly on redactable trees. */
  lemma {:induction false} RedactionPassesIff(r: Rules, v: Json)
    requires r.Valid()
    ensures Validate(r, Redact(r, v)) <==> Redactable(r, v)
  {
    match v
    case Obj(fields) =>
      forall i | 0 <= i < |fields|
        ensures ValidateField(r, Redact(r, v).fields[i])
           <==> OneClass(r, fields[i].key) && (r.Plain(fields[i].key) ==> Redactable(r, fields[i].value))
      {
        RedactionPassesIff(r, fields[i].value);
        FieldPassesIff(r, fields[i]);
      }
    case Arr(items) =>
      forall i | 0 <= i < |items| ensures Validate(r, Redact(r, v).items[i]) <==> Redactable(r, items[i]) {
        RedactionPassesIff(r, items[i]);
      }
    case Tup(entries) =>
      forall i | 0 <= i < |entries| ensures Validate(r, Redact(r, v).items[i]) <==> Redactable(r, entries[i]) {
        RedactionPassesIff(r, entries[i]);
      }
    case _ =>
  }

  // ----- reading fields -----

  /** The value of the first field with this key. */
  function Lookup(fields: seq<Field>, key: string): Option<Json> {
    if fields == [] then None
    else if fields[0].key == key then Some(fields[0].value)
    else Lookup(fields[1..], key)
  }

  function Get(v: Json, key: string): Option<Json> {
    if v.Obj? then Lookup(v.fields, key) else None
  }

  /** Redaction commutes with reading a key outside all sensitive classes. */
  lemma GetAfterRedact(r: Rules, v: Json, key: string)
    requires r.Plain(key) && v.Obj?
    ensures Get(Redact(r, v), key) == match Get(v, key) case None => None case Some(x) => Some(Redact(r, x))
  {
    LookupAfterRedact(r, v.fields, Redact(r, v).fields, key);
  }

  lemma {:induction false} LookupAfterRedact(r: Rules, a: seq<Field>, b: seq<Field>, key: string)
    requires r.Plain(key) && |a| == |b|
    requires forall i :: 0 <= i < |a| ==> b[i] == Field(a[i].key, RedactField(r, a[i]))
    ensures Lookup(b, key) == match Lookup(a, key) case None => None case Some(x) => Some(Redact(r, x))
  {
    if a != [] && a[0].key != key { LookupAfterRedact(r, a[1..], b[1..], key); }
  }

  // ----- the key classes themselves, on normalized keys -----

  predicate StartsWith(s: string, prefix: string) { |prefix| <= |s| && s[..|prefix|] == prefix }

  predicate EndsWith(s: string, suffix: string) { |suffix| <= |s| && s[|s| - |suffix|..] == suffix }

  function Compact(s: string): string { Filter((c: char) => c != '_', s) }

  predicate IsSecretKey(k: string) {
    k !in ["authorization_id", "authorization_manifest_digest", "authorization_binding_verified", "token_count"]
    && (k in ["api_key", "apikey", "authorization", "credential", "credentials", "password", "secret", "token"]
        || Compact(k) in ["apikey", "authtoken", "authorizationheader", "authorizationtoken", "clientsecret",
                          "credential", "credentials", "password", "refreshtoken", "secret"]
        || StartsWith(k, "authorization_header") || StartsWith(k, "authorization_secret")
        || StartsWith(k, "authorization_token")
        || EndsWith(k, "_api_key") || EndsWith(k, "_password") || EndsWith(k, "_secret") || EndsWith(k, "_token"))
  }

  predicate IsManagerKey(k: string) {
    k in ["private_manager", "private_manager_data", "manager_private_data"]
    || StartsWith(k, "private_manager_") || StartsWith(k, "manager_private_")
    || Compact(k) in ["managercontact", "manageremail", "managermobile", "managername", "managerphone",
                      "managerwhatsapp"]
  }

  predicate IsLogKey(k: string) {
    Compact(k) in ["fulllog", "fulllogs", "productionlog", "productionlogs", "rawlog", "rawlogs",
                   "unrestrictedlog", "unrestrictedlogs"]
    || k in ["logs", "raw_log", "raw_logs", "production_log", "production_logs", "unrestricted_log",
             "unrestricted_logs"]
    || EndsWith(k, "_raw_log") || EndsWith(k, "_raw_logs")
    || EndsWith(k, "_production_log") || EndsWith(k, "_production_logs")
  }

  /** The rules with the program's own key classes, for a given key normalization. */
  function ProgramRules(r: Rules, normal: string -> string): Rules {
    r.(secret := (k: string) => IsSecretKey(normal(k)), manager := (k: string) => IsManagerKey(normal(k)),
       log := (k: string) => IsLogKey(normal(k)))
  }

  lemma SecretAndManager()
    ensures IsSecretKey("private_manager_token") && IsManagerKey("private_manager_token")
  {
    var k := "private_manager_token";
    assert |k| == 21;
    assert k[15..] == "_token";
    assert k[..16] == "private_manager_";
    assert k !in ["authorization_id", "authorization_manifest_digest", "authorization_binding_verified",
                  "token_count"]
    by {
      assert |"authorization_id"| == 16 && |"authorization_manifest_digest"| == 29;
      assert |"authorization_binding_verified"| == 30 && |"token_count"| == 11;
    }
  }

  /** The key stands somewhere the redactor and the validator look: not behind a sensitive key. */
  ghost predicate Visits(r: Rules, v: Json, key: string) {
    match v
    case Obj(fields) =>
      exists i :: 0 <= i < |fields| && VisitsField(r, fields[i], key)
    case Arr(items) => exists i :: 0 <= i < |items| && Visits(r, items[i], key)
    case Tup(entries) => exists i :: 0 <= i < |entries| && Visits(r, entries[i], key)
    case _ => false
  }

  ghost predicate VisitsField(r: Rules, f: Field, key: string) {
    f.key == key || (r.Plain(f.key) && Visits(r, f.value, key))
  }

  lemma {:induction false} DoubleKeyIsNotRedactable(r: Rules, v: Json, key: string)
    requires Visits(r, v, key) && !OneClass(r, key)
    ensures !Redactable(r, v)
  {
    match v
    case Obj(fields) =>
      var i :| 0 <= i < |fields| && VisitsField(r, fields[i], key);
      if fields[i].key != key { DoubleKeyIsNotRedactable(r, fields[i].value, key); }
    case Arr(items) =>
      var i :| 0 <= i < |items| && Visits(r, items[i], key);
      DoubleKeyIsNotRedactable(r, items[i], key);
    case Tup(entries) =>
      var i :| 0 <= i < |entries| && Visits(r, entries[i], key);
      DoubleKeyIsNotRedactable(r, entries[i], key);
    case _ =>
  }

  /** Under the program's own classes no payload with the key private_manager_token at any visited
      place, at any depth, can be redacted into something the validator accepts. */
  lemma DoublyClassifiedKeyIsRefused(base: Rules, normal: string -> string, v: Json)
    requires base.Valid() && normal("private_manager_token") == "private_manager_token"
    requires Visits(ProgramRules(base, normal), v, "private_manager_token")
    ensures var r := ProgramRules(base, normal); !Validate(r, Redact(r, v))
  {
    SecretAndManager();
    ProgramRulesRefuse(base, normal, "private_manager_token", v);
  }

  lemma ProgramRulesRefuse(base: Rules, normal: string -> string, k: string, v: Json)
    requires base.Valid() && normal(k) == k && IsSecretKey(k) && IsManagerKey(k)
    requires Visits(ProgramRules(base, normal), v, k)
    ensures var r := ProgramRules(base, normal); r.Valid() && !OneClass(r, k) && !Validate(r, Redact(r, v))
  {
    var r := ProgramRules(base, normal);
    assert r.secret(k) && r.manager(k);
    assert r.Valid();
    TwoClassesAreRefused(r, k, v);
  }

  lemma TwoClassesAreRefused(r: Rules, k: string, v: Json)
    requires r.Valid() && !OneClass(r, k) && Visits(r, v, k)
    ensures !Validate(r, Redact(r, v))
  {
    DoubleKeyIsNotRedactable(r, v, k);
    RedactionPassesIff(r, v);
  }

  /** Behind a sensitive key nothing is visited: any value there is replaced and passes. */
  lemma HiddenValuePasses(r: Rules, k: string, v: Json)
    requires r.Valid() && r.secret(k) && OneClass(r, k)
    ensures Validate(r, Redact(r, Obj([Field(k, v)])))
  {
    RedactionPassesIff(r, Obj([Field(k, v)]));
  }

  lemma {:induction false} CompactShrinks(s: string)
    ensures |Compact(s)| <= |s|
  {
    if s != [] { CompactShrinks(s[1..]); }
  }

  lemma TokenIsOnlySecret()
    ensures IsSecretKey("token") && !IsManagerKey("token") && !IsLogKey("token")
  {
    TokenIsSecret();
    FiveLettersNoManager("token");
    FiveLettersNoLog("token");
  }

  lemma TokenIsSecret()
    ensures IsSecretKey("token")
  {
    assert |"token"| == 5;
    assert "token" == ["api_key", "apikey", "authorization", "credential", "credentials", "password", "secret",
                       "token"][7];
  }

  lemma FiveLettersNoManager(k: string)
    requires |k| == 5
    ensures !IsManagerKey(k)
  {
    CompactShrinks(k);
  }

  lemma FiveLettersNoLog(k: string)
    requires |k| == 5
    ensures !IsLogKey(k)
  {
    CompactShrinks(k);
  }

  /** So the doubly classified key is stored without complaint behind a redacted one. */
  lemma HiddenDoubleKeyPasses(base: Rules, normal: string -> string, v: Json)
    requires base.Valid() && normal("token") == "token"
    ensures var r := ProgramRules(base, normal);
            Validate(r, Redact(r, Obj([Field("token", Obj([Field("private_manager_token", v)]))])))
  {
    TokenIsOnlySecret();
    ProgramRulesHide(base, normal, "token", Obj([Field("private_manager_token", v)]));
  }

  lemma ProgramRulesHide(base: Rules, normal: string -> string, k: string, v: Json)
    requires base.Valid() && normal(k) == k && IsSecretKey(k) && !IsManagerKey(k) && !IsLogKey(k)
    ensures var r := ProgramRules(base, normal); Validate(r, Redact(r, Obj([Field(k, v)])))
  {
    var r := ProgramRules(base, normal);
    assert r.secret(k) && !r.manager(k) && !r.log(k);
    assert r.Valid();
    HiddenValuePasses(r, k, v);
  }
}

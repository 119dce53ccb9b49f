/** `CreatePatientDto`: the class-validator constraints on a patient body, evaluated as a table of property rules.
    The ISO-8601 date, e-mail and URL tests are parameters. */
module PatientValidation {
  import opened Wrappers
  import opened Text
  import opened JsonValues

  /** The format tests class-validator delegates to `validator.js`. */
  datatype Formats = Formats(isIsoDate: string -> bool, isEmail: string -> bool, isUrl: string -> bool)

  /** One decorator. */
  datatype Check =
    | IsString
    | MaxLength(max: nat)
    | IsDateString
    | IsEnum(values: seq<string>)
    | IsArray
    | IsStringEach
    | IsEmail

  /** The decorators on one property; `optional` is `@IsOptional()`. */
  datatype Rule = Rule(property: string, optional: bool, checks: seq<Check>)

  datatype Violation = Violation(property: string, check: Check)

  const SEXES: seq<string> := ["male", "female", "other", "unknown"]
  const BLOOD_GROUPS: seq<string> := ["A+", "A-", "B+", "B-", "AB+", "AB-", "O+", "O-"]
  const MARITAL_STATUSES: seq<string> := ["single", "married", "divorced", "widowed", "other"]

  const CREATE_PATIENT_RULES: seq<Rule> := [
    Rule("firstName", false, [IsString, MaxLength(50)]),
    Rule("lastName", false, [IsString, MaxLength(50)]),
    Rule("middleName", true, [IsString, MaxLength(50)]),
    Rule("dateOfBirth", false, [IsDateString]),
    Rule("sex", false, [IsEnum(SEXES)]),
    Rule("genderIdentity", true, [IsString]),
    Rule("bloodGroup", true, [IsEnum(BLOOD_GROUPS)]),
    Rule("knownAllergies", true, [IsArray, IsStringEach]),
    Rule("primaryLanguage", true, [IsString]),
    Rule("nationality", true, [IsString]),
    Rule("ethnicity", true, [IsString]),
    Rule("maritalStatus", true, [IsEnum(MARITAL_STATUSES)]),
    Rule("phone", true, [IsString, MaxLength(20)]),
    Rule("email", true, [IsEmail]),
    Rule("address", true, []),
    Rule("patientPhotoUrl", true, [IsString]),
    Rule("nationalId", true, [IsString, MaxLength(50)]),
    Rule("nationalIdType", true, [IsString])
  ]

  /** Whether one decorator accepts the value; `{ each: true }` tests the
      elements of an array and the value itself otherwise. */
  predicate Passes(c: Check, v: Json, f: Formats) {
    match c
    case IsString => v.Str?
    case MaxLength(max) => v.Str? && |v.s| <= max
    case IsDateString => v.Str? && f.isIsoDate(v.s)
    case IsEnum(values) => v.Str? && v.s in values
    case IsArray => v.Arr?
    case IsStringEach => if v.Arr? then forall i :: 0 <= i < |v.items| ==> v.items[i].Str? else v.Str?
    case IsEmail => v.Str? && f.isEmail(v.s)
  }

  /** `null` or `undefined` */
  predicate Absent(v: Json) {
    v.Undefined? || v.Null?
  }

  /** `@IsOptional()` skips every check when the value is absent. */
  predicate Skips(r: Rule, v: Json) {
    r.optional && Absent(v)
  }

  /** Every decorator that rejects its property. */
  function Violations(rules: seq<Rule>, dto: seq<Field>, f: Formats): set<Violation> {
    set i, j | 0 <= i < |rules| && 0 <= j < |rules[i].checks|
               && !Skips(rules[i], Lookup(dto, rules[i].property))
               && !Passes(rules[i].checks[j], Lookup(dto, rules[i].property), f)
      :: Violation(rules[i].property, rules[i].checks[j])
  }

  /** A body is accepted when no decorator rejects it. */
  predicate Accepted(rules: seq<Rule>, dto: seq<Field>, f: Formats) {
    Violations(rules, dto, f) == {}
  }

  /** One property's decorators all accept its value, or it is optional and absent. */
  predicate RuleHolds(r: Rule, dto: seq<Field>, f: Formats) {
    var v := Lookup(dto, r.property);
    Skips(r, v) || forall j :: 0 <= j < |r.checks| ==> Passes(r.checks[j], v, f)
  }

  /** A body is accepted exactly when every property's rule holds. */
  lemma AcceptedIffRulesHold(rules: seq<Rule>, dto: seq<Field>, f: Formats)
    ensures Accepted(rules, dto, f) <==> forall i :: 0 <= i < |rules| ==> RuleHolds(rules[i], dto, f)
  {
    if Accepted(rules, dto, f) {
      forall i | 0 <= i < |rules|
        ensures RuleHolds(rules[i], dto, f)
      {
        var v := Lookup(dto, rules[i].property);
        forall j | 0 <= j < |rules[i].checks| && !Skips(rules[i], v)
          ensures Passes(rules[i].checks[j], v, f)
        {
          assert Violation(rules[i].property, rules[i].checks[j]) !in Violations(rules, dto, f);
        }
      }
    } else {
      var x :| x in Violations(rules, dto, f);
      var i, j :| 0 <= i < |rules| && 0 <= j < |rules[i].checks|
               && !Skips(rules[i], Lookup(dto, rules[i].property))
               && !Passes(rules[i].checks[j], Lookup(dto, rules[i].property), f);
      assert !RuleHolds(rules[i], dto, f);
    }
  }

  /** The checks of one property, one after the other. */
  predicate AllPass(cs: seq<Check>, v: Json, f: Formats) {
    cs == [] || (Passes(cs[0], v, f) && AllPass(cs[1..], v, f))
  }

  lemma {:induction false} AllPassIff(cs: seq<Check>, v: Json, f: Formats)
    ensures AllPass(cs, v, f) <==> forall j :: 0 <= j < |cs| ==> Passes(cs[j], v, f)
  {
    if cs != [] {
      AllPassIff(cs[1..], v, f);
      assert forall j :: 1 <= j < |cs| ==> cs[j] == cs[1..][j - 1];
    }
  }

  /** What the table demands of the names. */
  lemma RowMeaningsNames(dto: seq<Field>, f: Formats)
    ensures RuleHolds(CREATE_PATIENT_RULES[0], dto, f) <==> (var v := Lookup(dto, "firstName"); v.Str? && |v.s| <= 50)
    ensures RuleHolds(CREATE_PATIENT_RULES[1], dto, f) <==> (var v := Lookup(dto, "lastName"); v.Str? && |v.s| <= 50)
    ensures RuleHolds(CREATE_PATIENT_RULES[2], dto, f) <==> (var v := Lookup(dto, "middleName"); Absent(v) || (v.Str? && |v.s| <= 50))
  {
    AllPassIff(CREATE_PATIENT_RULES[0].checks, Lookup(dto, CREATE_PATIENT_RULES[0].property), f);
    AllPassIff(CREATE_PATIENT_RULES[1].checks, Lookup(dto, CREATE_PATIENT_RULES[1].property), f);
    AllPassIff(CREATE_PATIENT_RULES[2].checks, Lookup(dto, CREATE_PATIENT_RULES[2].property), f);
  }

  /** What the table demands of the birth date, sex and gender identity. */
  lemma RowMeaningsBirth(dto: seq<Field>, f: Formats)
    ensures RuleHolds(CREATE_PATIENT_RULES[3], dto, f) <==> (var v := Lookup(dto, "dateOfBirth"); v.Str? && f.isIsoDate(v.s))
    ensures RuleHolds(CREATE_PATIENT_RULES[4], dto, f) <==> (var v := Lookup(dto, "sex"); v.Str? && v.s in SEXES)
    ensures RuleHolds(CREATE_PATIENT_RULES[5], dto, f) <==> (var v := Lookup(dto, "genderIdentity"); Absent(v) || v.Str?)
  {
    AllPassIff(CREATE_PATIENT_RULES[3].checks, Lookup(dto, CREATE_PATIENT_RULES[3].property), f);
    AllPassIff(CREATE_PATIENT_RULES[4].checks, Lookup(dto, CREATE_PATIENT_RULES[4].property), f);
    AllPassIff(CREATE_PATIENT_RULES[5].checks, Lookup(dto, CREATE_PATIENT_RULES[5].property), f);
  }

  /** What the table demands of the blood group, allergies and primary language. */
  lemma RowMeaningsMedical(dto: seq<Field>, f: Formats)
    ensures RuleHolds(CREATE_PATIENT_RULES[6], dto, f) <==> (var v := Lookup(dto, "bloodGroup"); Absent(v) || (v.Str? && v.s in BLOOD_GROUPS))
    ensures RuleHolds(CREATE_PATIENT_RULES[7], dto, f) <==> (var v := Lookup(dto, "knownAllergies"); Absent(v) || (v.Arr? && forall i :: 0 <= i < |v.items| ==> v.items[i].Str?))
    ensures RuleHolds(CREATE_PATIENT_RULES[8], dto, f) <==> (var v := Lookup(dto, "primaryLanguage"); Absent(v) || v.Str?)
  {
    AllPassIff(CREATE_PATIENT_RULES[6].checks, Lookup(dto, CREATE_PATIENT_RULES[6].property), f);
    AllPassIff(CREATE_PATIENT_RULES[7].checks, Lookup(dto, CREATE_PATIENT_RULES[7].property), f);
    AllPassIff(CREATE_PATIENT_RULES[8].checks, Lookup(dto, CREATE_PATIENT_RULES[8].property), f);
  }

  /** What the table demands of the nationality, ethnicity and marital status. */
  lemma RowMeaningsOrigin(dto: seq<Field>, f: Formats)
    ensures RuleHolds(CREATE_PATIENT_RULES[9], dto, f) <==> (var v := Lookup(dto, "nationality"); Absent(v) || v.Str?)
    ensures RuleHolds(CREATE_PATIENT_RULES[10], dto, f) <==> (var v := Lookup(dto, "ethnicity"); Absent(v) || v.Str?)
    ensures RuleHolds(CREATE_PATIENT_RULES[11], dto, f) <==> (var v := Lookup(dto, "maritalStatus"); Absent(v) || (v.Str? && v.s in MARITAL_STATUSES))
  {
    AllPassIff(CREATE_PATIENT_RULES[9].checks, Lookup(dto, CREATE_PATIENT_RULES[9].property), f);
    AllPassIff(CREATE_PATIENT_RULES[10].checks, Lookup(dto, CREATE_PATIENT_RULES[10].property), f);
    AllPassIff(CREATE_PATIENT_RULES[11].checks, Lookup(dto, CREATE_PATIENT_RULES[11].property), f);
  }

  /** What the table demands of the phone, e-mail and address. */
  lemma RowMeaningsContact(dto: seq<Field>, f: Formats)
    ensures RuleHolds(CREATE_PATIENT_RULES[12], dto, f) <==> (var v := Lookup(dto, "phone"); Absent(v) || (v.Str? && |v.s| <= 20))
    ensures RuleHolds(CREATE_PATIENT_RULES[13], dto, f) <==> (var v := Lookup(dto, "email"); Absent(v) || (v.Str? && f.isEmail(v.s)))
    ensures RuleHolds(CREATE_PATIENT_RULES[14], dto, f) <==> (var v := Lookup(dto, "address"); true)
  {
    AllPassIff(CREATE_PATIENT_RULES[12].checks, Lookup(dto, CREATE_PATIENT_RULES[12].property), f);
    AllPassIff(CREATE_PATIENT_RULES[13].checks, Lookup(dto, CREATE_PATIENT_RULES[13].property), f);
    AllPassIff(CREATE_PATIENT_RULES[14].checks, Lookup(dto, CREATE_PATIENT_RULES[14].property), f);
  }

  /** What the table demands of the photo and the national id. */
  lemma RowMeaningsIdentity(dto: seq<Field>, f: Formats)
    ensures RuleHolds(CREATE_PATIENT_RULES[15], dto, f) <==> (var v := Lookup(dto, "patientPhotoUrl"); Absent(v) || v.Str?)
    ensures RuleHolds(CREATE_PATIENT_RULES[16], dto, f) <==> (var v := Lookup(dto, "nationalId"); Absent(v) || (v.Str? && |v.s| <= 50))
    ensures RuleHolds(CREATE_PATIENT_RULES[17], dto, f) <==> (var v := Lookup(dto, "nationalIdType"); Absent(v) || v.Str?)
  {
    AllPassIff(CREATE_PATIENT_RULES[15].checks, Lookup(dto, CREATE_PATIENT_RULES[15].property), f);
    AllPassIff(CREATE_PATIENT_RULES[16].checks, Lookup(dto, CREATE_PATIENT_RULES[16].property), f);
    AllPassIff(CREATE_PATIENT_RULES[17].checks, Lookup(dto, CREATE_PATIENT_RULES[17].property), f);
  }

  /** The create-patient constraints written out property by property. */
  predicate CreatePatientValid(dto: seq<Field>, f: Formats) {
    && (var v := Lookup(dto, "firstName"); v.Str? && |v.s| <= 50)
    && (var v := Lookup(dto, "lastName"); v.Str? && |v.s| <= 50)
    && (var v := Lookup(dto, "middleName"); Absent(v) || (v.Str? && |v.s| <= 50))
    && (var v := Lookup(dto, "dateOfBirth"); v.Str? && f.isIsoDate(v.s))
    && (var v := Lookup(dto, "sex"); v.Str? && v.s in SEXES)
    && (var v := Lookup(dto, "genderIdentity"); Absent(v) || v.Str?)
    && (var v := Lookup(dto, "bloodGroup"); Absent(v) || (v.Str? && v.s in BLOOD_GROUPS))
    && (var v := Lookup(dto, "knownAllergies"); Absent(v) || (v.Arr? && forall i :: 0 <= i < |v.items| ==> v.items[i].Str?))
    && (var v := Lookup(dto, "primaryLanguage"); Absent(v) || v.Str?)
    && (var v := Lookup(dto, "nationality"); Absent(v) || v.Str?)
    && (var v := Lookup(dto, "ethnicity"); Absent(v) || v.Str?)
    && (var v := Lookup(dto, "maritalStatus"); Absent(v) || (v.Str? && v.s in MARITAL_STATUSES))
    && (var v := Lookup(dto, "phone"); Absent(v) || (v.Str? && |v.s| <= 20))
    && (var v := Lookup(dto, "email"); Absent(v) || (v.Str? && f.isEmail(v.s)))
    && (var v := Lookup(dto, "address"); true)
    && (var v := Lookup(dto, "patientPhotoUrl"); Absent(v) || v.Str?)
    && (var v := Lookup(dto, "nationalId"); Absent(v) || (v.Str? && |v.s| <= 50))
    && (var v := Lookup(dto, "nationalIdType"); Absent(v) || v.Str?)
  }

  /** The rule table says exactly what the property-by-property reading says:
      required names are strings of at most 50 characters, `sex` is one of
      four values, and each optional property is either absent or of its
      declared shape. */
  lemma AcceptedIffValid(dto: seq<Field>, f: Formats)
    ensures Accepted(CREATE_PATIENT_RULES, dto, f) <==> CreatePatientValid(dto, f)
  {
    var rules := CREATE_PATIENT_RULES;
    AcceptedIffRulesHold(rules, dto, f);
    RowMeaningsNames(dto, f);
    RowMeaningsBirth(dto, f);
    RowMeaningsMedical(dto, f);
    RowMeaningsOrigin(dto, f);
    RowMeaningsContact(dto, f);
    RowMeaningsIdentity(dto, f);
    if CreatePatientValid(dto, f) {
      forall i | 0 <= i < |rules|
        ensures RuleHolds(rules[i], dto, f)
      {
        if i == 0 { }
        else if i == 1 { }
        else if i == 2 { }
        else if i == 3 { }
        else if i == 4 { }
        else if i == 5 { }
        else if i == 6 { }
        else if i == 7 { }
        else if i == 8 { }
        else if i == 9 { }
        else if i == 10 { }
        else if i == 11 { }
        else if i == 12 { }
        else if i == 13 { }
        else if i == 14 { }
        else if i == 15 { }
        else if i == 16 { }
        else if i == 17 { }
      }
    }
  }

  /** Leaving out any optional property never adds a violation for it. */
  lemma AbsentOptionalNeverRejects(dto: seq<Field>, f: Formats, i: nat)
    requires i < |CREATE_PATIENT_RULES| && CREATE_PATIENT_RULES[i].optional
    requires Absent(Lookup(dto, CREATE_PATIENT_RULES[i].property))
    ensures forall x :: x in Violations(CREATE_PATIENT_RULES, dto, f) ==> x.property != CREATE_PATIENT_RULES[i].property
  {
    var rules := CREATE_PATIENT_RULES;
    forall x | x in Violations(rules, dto, f)
      ensures x.property != rules[i].property
    {
      var k, j :| 0 <= k < |rules| && 0 <= j < |rules[k].checks|
                 && !Skips(rules[k], Lookup(dto, rules[k].property))
                 && !Passes(rules[k].checks[j], Lookup(dto, rules[k].property), f)
                 && x == Violation(rules[k].property, rules[k].checks[j]);
      if x.property == rules[i].property {
        DistinctProperties(i, k);
      }
    }
  }

  /** The table names each property once. */
  lemma DistinctProperties(i: nat, k: nat)
    requires i < |CREATE_PATIENT_RULES| && k < |CREATE_PATIENT_RULES|
    requires CREATE_PATIENT_RULES[i].property == CREATE_PATIENT_RULES[k].property
    ensures i == k
  {
  }

  /** A missing required name is reported against that property. */
  lemma MissingNameRejected(dto: seq<Field>, f: Formats)
    requires !HasKey(dto, "firstName")
    ensures Violation("firstName", IsString) in Violations(CREATE_PATIENT_RULES, dto, f)
    ensures !Accepted(CREATE_PATIENT_RULES, dto, f)
  {
    var rules := CREATE_PATIENT_RULES;
    assert rules[0].property == "firstName" && rules[0].checks[0] == IsString;
    assert !Passes(rules[0].checks[0], Lookup(dto, rules[0].property), f);
  }

  /** A string where the allergy list belongs is reported as not an array,
      but not as a list with a non-string element. */
  lemma StringAllergiesReportOnlyIsArray(dto: seq<Field>, f: Formats, allergy: string)
    requires Lookup(dto, "knownAllergies") == Str(allergy)
    ensures Violation("knownAllergies", IsArray) in Violations(CREATE_PATIENT_RULES, dto, f)
    ensures Violation("knownAllergies", IsStringEach) !in Violations(CREATE_PATIENT_RULES, dto, f)
  {
    var rules := CREATE_PATIENT_RULES;
    assert rules[7].property == "knownAllergies" && rules[7].checks == [IsArray, IsStringEach];
    assert !Passes(rules[7].checks[0], Lookup(dto, rules[7].property), f);
    forall i, j | 0 <= i < |rules| && 0 <= j < |rules[i].checks| && rules[i].property == "knownAllergies"
      ensures Passes(rules[i].checks[j], Lookup(dto, rules[i].property), f) || rules[i].checks[j] != IsStringEach
    {
      DistinctProperties(i, 7);
    }
  }
}

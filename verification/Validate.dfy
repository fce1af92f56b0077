/** `validate.go`: the schema validator that gates tool dispatch and the typed finish. */
module Validate {
  import opened Wrappers
  import opened JsonValues

  /** The `type` keyword: empty, one of the seven known names, or a name the validator ignores. */
  datatype TypeName =
    | Unset | TObject | TArray | TString | TInteger | TNumber | TBoolean | TNull
    | Unrecognised(name: string)

  /** A decoded schema.  `None` for a property or `items` is a nil pointer. */
  datatype Schema = Schema(
    typ: TypeName,
    enum: seq<Json>,
    const_: Option<Json>,
    required: seq<string>,
    properties: map<string, Option<Schema>>,
    items: Option<Schema>,
    additional: Option<Json>,
    minimum: Option<real>,
    maximum: Option<real>,
    minLength: int,
    maxLength: int,
    minItems: int,
    maxItems: int)

  /** The schema `{"type": t}`. */
  function OfType(t: TypeName): Schema {
    Schema(t, [], None, [], map[], None, None, None, None, 0, 0, 0, 0)
  }

  /** What went wrong, without the wording. */
  datatype Error =
    | NotJson
    | MustEqual
    | NotInEnum
    | Expected(typ: TypeName)
    | MissingProperty(name: string)
    | AdditionalProperty(name: string)
    | InProperty(name: string, errors: seq<Error>)
    | InItem(index: nat, errors: seq<Error>)
    | TooFewItems
    | TooManyItems
    | TooShort
    | TooLong
    | BelowMinimum
    | AboveMaximum

  /** Only the literal `false` closes an object; every other value is ignored. */
  predicate Closed(s: Schema) {
    s.additional == Some(Bool(false))
  }

  predicate IsInteger(v: Json) {
    v.Num? && v.n == v.n.Floor as real
  }

  ghost predicate WithinBounds(s: Schema, v: Json)
    requires v.Num?
  {
    (s.minimum.Some? ==> s.minimum.value <= v.n) && (s.maximum.Some? ==> v.n <= s.maximum.value)
  }

  /** An upper limit of 0 (or less) means unset. */
  ghost predicate SizeWithin(size: nat, least: int, most: int) {
    least <= size && (0 < most ==> size <= most)
  }

  ghost predicate ConstHolds(s: Schema, v: Json) {
    s.const_.Some? ==> JsonEqual(v, s.const_.value)
  }

  ghost predicate EnumHolds(s: Schema, v: Json) {
    s.enum != [] ==> exists i | 0 <= i < |s.enum| :: JsonEqual(v, s.enum[i])
  }

  /** The declarative meaning of a schema: which values it accepts. */
  ghost predicate Accepts(s: Schema, v: Json)
    decreases v, 1
  {
    ConstHolds(s, v) && EnumHolds(s, v) && TypeHolds(s, v)
  }

  /** The type-specific keywords; they say nothing at all when `type` is not set. */
  ghost predicate TypeHolds(s: Schema, v: Json)
    decreases v, 0
  {
    match s.typ
    case Unset => true
    case Unrecognised(_) => true
    case TObject =>
      && v.Obj?
      && (forall name | name in s.required :: name in v.members)
      && (Closed(s) ==> v.members.Keys <= s.properties.Keys)
      && (forall name | name in v.members ::
            name in s.properties && s.properties[name].Some? ==>
              Accepts(s.properties[name].value, v.members[name]))
    case TArray =>
      && v.Arr?
      && SizeWithin(|v.items|, s.minItems, s.maxItems)
      && (s.items.Some? ==> forall i | 0 <= i < |v.items| :: Accepts(s.items.value, v.items[i]))
    case TString => v.Str? && SizeWithin(|v.s|, s.minLength, s.maxLength)
    case TInteger => IsInteger(v) && WithinBounds(s, v)
    case TNumber => v.Num? && WithinBounds(s, v)
    case TBoolean => v.Bool?
    case TNull => v.Null?
  }

  /** An error report is truthful: what it complains about is the case for this schema and value. */
  ghost predicate Explains(e: Error, s: Schema, v: Json)
    decreases v
  {
    match e
    case NotJson => false
    case MustEqual => !ConstHolds(s, v)
    case NotInEnum => !EnumHolds(s, v)
    case Expected(t) =>
      && t == s.typ
      && match t {
           case TObject => !v.Obj?
           case TArray => !v.Arr?
           case TString => !v.Str?
           case TInteger => !IsInteger(v)
           case TNumber => !v.Num?
           case TBoolean => !v.Bool?
           case TNull => !v.Null?
           case _ => false
         }
    case MissingProperty(name) =>
      s.typ == TObject && v.Obj? && name in s.required && name !in v.members
    case AdditionalProperty(name) =>
      s.typ == TObject && v.Obj? && Closed(s) && name in v.members && name !in s.properties
    case InProperty(name, errors) =>
      && s.typ == TObject && v.Obj? && name in v.members
      && name in s.properties && s.properties[name].Some?
      && errors != []
      && forall i | 0 <= i < |errors| :: Explains(errors[i], s.properties[name].value, v.members[name])
    case InItem(index, errors) =>
      && s.typ == TArray && v.Arr? && index < |v.items| && s.items.Some?
      && errors != []
      && forall i | 0 <= i < |errors| :: Explains(errors[i], s.items.value, v.items[index])
    case TooFewItems => s.typ == TArray && v.Arr? && |v.items| < s.minItems
    case TooManyItems => s.typ == TArray && v.Arr? && 0 < s.maxItems < |v.items|
    case TooShort => s.typ == TString && v.Str? && |v.s| < s.minLength
    case TooLong => s.typ == TString && v.Str? && 0 < s.maxLength < |v.s|
    case BelowMinimum =>
      (s.typ == TInteger || s.typ == TNumber) && v.Num? && s.minimum.Some? && v.n < s.minimum.value
    case AboveMaximum =>
      (s.typ == TInteger || s.typ == TNumber) && v.Num? && s.maximum.Some? && s.maximum.value < v.n
  }

  /** `checkBounds`: there is nothing to check about what is no number. */
  method CheckBounds(s: Schema, v: Json) returns (e: Option<Error>)
    ensures e.None? <==> (v.Num? ==> WithinBounds(s, v))
    ensures e == Some(BelowMinimum) <==> v.Num? && s.minimum.Some? && v.n < s.minimum.value
    ensures e.Some? ==> e.value == BelowMinimum || e.value == AboveMaximum
  {
    if !v.Num? {
      return None;
    }
    if s.minimum.Some? && v.n < s.minimum.value {
      return Some(BelowMinimum);
    }
    if s.maximum.Some? && v.n > s.maximum.value {
      return Some(AboveMaximum);
    }
    return None;
  }

  /** `validateValue` on a decoded value. */
  method ValidateValue(s: Schema, v: Json) returns (errs: seq<Error>)
    ensures errs == [] <==> Accepts(s, v)
    ensures MustEqual in errs <==> !ConstHolds(s, v)
    ensures NotInEnum in errs <==> !EnumHolds(s, v)
    ensures |errs| <= 3
    ensures forall i | 0 <= i < |errs| :: Explains(errs[i], s, v)
    decreases v, 2
  {
    hide JsonEqual;
    errs := [];
    if s.const_.Some? {
      var same := CompareJson(v, s.const_.value);
      if !same {
        errs := errs + [MustEqual];
      }
    }
    if |s.enum| > 0 {
      var ok := false;
      var i := 0;
      while i < |s.enum| && !ok
        invariant 0 <= i <= |s.enum|
        invariant ok <==> exists j | 0 <= j < i :: JsonEqual(v, s.enum[j])
      {
        ok := CompareJson(v, s.enum[i]);
        i := i + 1;
      }
      if !ok {
        errs := errs + [NotInEnum];
      }
    }
    if s.typ != Unset {
      var e := ValidateType(s, v);
      if e.Some? {
        errs := errs + [e.value];
      }
    }
  }

  /** The object case of `validateType`; members are visited in an arbitrary order. */
  method ValidateObject(s: Schema, v: Json) returns (e: Option<Error>)
    requires s.typ == TObject && v.Obj?
    ensures e.None? <==> TypeHolds(s, v)
    ensures e.Some? ==> Explains(e.value, s, v) && e.value != MustEqual && e.value != NotInEnum
    decreases v, 0
  {
    hide Accepts;
    for i := 0 to |s.required|
      invariant forall j | 0 <= j < i :: s.required[j] in v.members
    {
      if s.required[i] !in v.members {
        return Some(MissingProperty(s.required[i]));
      }
    }
    if Closed(s) {
      var unseen := v.members.Keys;
      while unseen != {}
        invariant unseen <= v.members.Keys
        invariant v.members.Keys - unseen <= s.properties.Keys
      {
        var k :| k in unseen;
        if k !in s.properties {
          return Some(AdditionalProperty(k));
        }
        unseen := unseen - {k};
      }
    }
    var unseen := v.members.Keys;
    while unseen != {}
      invariant unseen <= v.members.Keys
      invariant forall k | k in v.members.Keys - unseen ::
          k in s.properties && s.properties[k].Some? ==>
            Accepts(s.properties[k].value, v.members[k])
    {
      var k :| k in unseen;
      if k in s.properties && s.properties[k].Some? {
        var errors := ValidateValue(s.properties[k].value, v.members[k]);
        if |errors| > 0 {
          return Some(InProperty(k, errors));
        }
      }
      unseen := unseen - {k};
    }
    return None;
  }

  /** The array case of `validateType`. */
  method ValidateArray(s: Schema, v: Json) returns (e: Option<Error>)
    requires s.typ == TArray && v.Arr?
    ensures e.None? <==> TypeHolds(s, v)
    ensures e.Some? ==> Explains(e.value, s, v) && e.value != MustEqual && e.value != NotInEnum
    decreases v, 0
  {
    hide Accepts;
    if |v.items| < s.minItems {
      return Some(TooFewItems);
    }
    if s.maxItems > 0 && |v.items| > s.maxItems {
      return Some(TooManyItems);
    }
    if s.items.Some? {
      for i := 0 to |v.items|
        invariant forall j | 0 <= j < i :: Accepts(s.items.value, v.items[j])
      {
        var errors := ValidateValue(s.items.value, v.items[i]);
        if |errors| > 0 {
          return Some(InItem(i, errors));
        }
      }
    }
    return None;
  }

  /** `validateType`: the first violation found. */
  method ValidateType(s: Schema, v: Json) returns (e: Option<Error>)
    ensures e.None? <==> TypeHolds(s, v)
    ensures e.Some? ==> Explains(e.value, s, v) && e.value != MustEqual && e.value != NotInEnum
    decreases v, 1
  {
    match s.typ {
      case TObject =>
        if !v.Obj? {
          return Some(Expected(TObject));
        }
        e := ValidateObject(s, v);
      case TArray =>
        if !v.Arr? {
          return Some(Expected(TArray));
        }
        e := ValidateArray(s, v);
      case TString =>
        if !v.Str? {
          return Some(Expected(TString));
        }
        if |v.s| < s.minLength {
          return Some(TooShort);
        }
        if s.maxLength > 0 && |v.s| > s.maxLength {
          return Some(TooLong);
        }
        return None;
      case TInteger =>
        if !IsInteger(v) {
          return Some(Expected(TInteger));
        }
        e := CheckBounds(s, v);
      case TNumber =>
        if !v.Num? {
          return Some(Expected(TNumber));
        }
        e := CheckBounds(s, v);
      case TBoolean =>
        return if v.Bool? then None else Some(Expected(TBoolean));
      case TNull =>
        return if v.Null? then None else Some(Expected(TNull));
      case _ =>
        return None;
    }
  }

  /** Which raw texts pass: no schema accepts anything, otherwise the text must decode and be accepted. */
  ghost predicate Passes(s: Option<Schema>, raw: Option<Json>) {
    s.Some? ==> raw.Some? && Accepts(s.value, raw.value)
  }

  /** `validateValue` on raw text; `raw` is what decoding the text gave. */
  method ValidateRaw(s: Option<Schema>, raw: Option<Json>) returns (errs: seq<Error>)
    ensures errs == [] <==> Passes(s, raw)
  {
    if s.None? {
      return [];
    }
    if raw.None? {
      return [NotJson];
    }
    errs := ValidateValue(s.value, raw.value);
  }

  // ----- the validator against the standard reading of const and enum -----

  /** As `Accepts`, but const and enum compare structurally at every depth. */
  ghost predicate AcceptsStrictly(s: Schema, v: Json)
    decreases v, 1
  {
    && (s.const_.Some? ==> v == s.const_.value)
    && (s.enum != [] ==> v in s.enum)
    && TypeHoldsStrictly(s, v)
  }

  ghost predicate TypeHoldsStrictly(s: Schema, v: Json)
    decreases v, 0
  {
    match s.typ
    case TObject =>
      && v.Obj?
      && (forall name | name in s.required :: name in v.members)
      && (Closed(s) ==> v.members.Keys <= s.properties.Keys)
      && (forall name | name in v.members ::
            name in s.properties && s.properties[name].Some? ==>
              AcceptsStrictly(s.properties[name].value, v.members[name]))
    case TArray =>
      && v.Arr?
      && SizeWithin(|v.items|, s.minItems, s.maxItems)
      && (s.items.Some? ==> forall i | 0 <= i < |v.items| :: AcceptsStrictly(s.items.value, v.items[i]))
    case _ => TypeHolds(s, v)
  }

  /** For a value without null members the validator reads const and enum as JSON Schema does. */
  lemma {:induction false} AcceptsIsStrict(s: Schema, v: Json)
    requires NullMemberFree(v)
    ensures Accepts(s, v) <==> AcceptsStrictly(s, v)
    decreases v
  {
    if s.const_.Some? {
      EqualIsStructural(v, s.const_.value);
    }
    forall i | 0 <= i < |s.enum| ensures JsonEqual(v, s.enum[i]) <==> v == s.enum[i] {
      EqualIsStructural(v, s.enum[i]);
    }
    if s.typ == TObject && v.Obj? {
      forall name | name in v.members && name in s.properties && s.properties[name].Some?
        ensures Accepts(s.properties[name].value, v.members[name])
           <==> AcceptsStrictly(s.properties[name].value, v.members[name])
      {
        AcceptsIsStrict(s.properties[name].value, v.members[name]);
      }
    }
    if s.typ == TArray && v.Arr? && s.items.Some? {
      forall i | 0 <= i < |v.items|
        ensures Accepts(s.items.value, v.items[i]) <==> AcceptsStrictly(s.items.value, v.items[i])
      {
        AcceptsIsStrict(s.items.value, v.items[i]);
      }
    }
  }

  /** A const or enum accepts a different value exactly through a null member. */
  lemma ConstIsStructuralIffNullMemberFree(v: Json)
    ensures NullMemberFree(v) <==>
            forall c :: Accepts(OfType(Unset).(const_ := Some(c)), v) <==> v == c
  {
    if NullMemberFree(v) {
      forall c ensures Accepts(OfType(Unset).(const_ := Some(c)), v) <==> v == c {
        EqualIsStructural(v, c);
      }
    } else {
      var c := NullMemberConfuses(v);
      assert Accepts(OfType(Unset).(const_ := Some(c)), v) && v != c;
    }
  }
}

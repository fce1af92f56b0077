/**
 What each keyword of a schema means, said on the values that are accepted: the plain types first, then
 what adding one keyword takes away.  Together these laws give the meaning of every schema.
 */
module Keywords {
  import opened Wrappers
  import opened JsonValues
  import opened Validate

  /** A schema with nothing but a type accepts exactly the values of that type. */
  lemma PlainTypes(v: Json, name: string)
    ensures Accepts(OfType(TObject), v) <==> v.Obj?
    ensures Accepts(OfType(TArray), v) <==> v.Arr?
    ensures Accepts(OfType(TString), v) <==> v.Str?
    ensures Accepts(OfType(TNumber), v) <==> v.Num?
    ensures Accepts(OfType(TBoolean), v) <==> v.Bool?
    ensures Accepts(OfType(TNull), v) <==> v == Null
    ensures Accepts(OfType(Unset), v) && Accepts(OfType(Unrecognised(name)), v)
  {
  }

  /** A whole number as a value. */
  function Whole(k: int): Json {
    Num(k as real)
  }

  /** Integers are the numbers that are some integer, whatever way they are written. */
  lemma IntegersAreWhole(v: Json)
    ensures Accepts(OfType(TInteger), v) <==> exists k :: v == Whole(k)
  {
    WholeIsInteger(v);
  }

  lemma WholeIsInteger(v: Json)
    ensures IsInteger(v) <==> exists k :: v == Whole(k)
  {
    if IsInteger(v) {
      assert v == Whole(v.n.Floor);
    }
    if k :| v == Whole(k) {
      assert (k as real).Floor == k;
    }
  }

  /** With bounds: exactly the integers between them, the bounds included. */
  lemma IntegersBetween(low: int, high: int, v: Json)
    ensures Accepts(OfType(TInteger).(minimum := Some(low as real), maximum := Some(high as real)), v)
            <==> exists k :: low <= k <= high && v == Whole(k)
  {
    WholeIsInteger(v);
    if IsInteger(v) {
      var k :| v == Whole(k);
      assert low as real <= k as real <= high as real <==> low <= k <= high;
    }
  }

  lemma MinimumIsExact(s: Schema, v: Json, least: real)
    requires (s.typ == TInteger || s.typ == TNumber) && s.minimum.None?
    ensures Accepts(s.(minimum := Some(least)), v) <==> Accepts(s, v) && v.Num? && v.n >= least
  {
  }

  lemma MaximumIsExact(s: Schema, v: Json, most: real)
    requires (s.typ == TInteger || s.typ == TNumber) && s.maximum.None?
    ensures Accepts(s.(maximum := Some(most)), v) <==> Accepts(s, v) && v.Num? && v.n <= most
  {
  }

  /** Lengths count bytes; an upper limit of 0 or less is no limit. */
  lemma LengthsAreExact(s: Schema, v: Json, n: int)
    requires s.typ == TString
    ensures s.minLength == 0 ==> (Accepts(s.(minLength := n), v) <==> Accepts(s, v) && v.Str? && |v.s| >= n)
    ensures s.maxLength == 0 ==>
              (Accepts(s.(maxLength := n), v) <==> Accepts(s, v) && v.Str? && (n <= 0 || |v.s| <= n))
  {
  }

  lemma SizesAreExact(s: Schema, v: Json, n: int)
    requires s.typ == TArray
    ensures s.minItems == 0 ==> (Accepts(s.(minItems := n), v) <==> Accepts(s, v) && v.Arr? && |v.items| >= n)
    ensures s.maxItems == 0 ==>
              (Accepts(s.(maxItems := n), v) <==> Accepts(s, v) && v.Arr? && (n <= 0 || |v.items| <= n))
  {
  }

  lemma ItemsIsExact(s: Schema, v: Json, item: Schema)
    requires s.typ == TArray && s.items.None?
    ensures Accepts(s.(items := Some(item)), v) <==>
              Accepts(s, v) && v.Arr? && forall i | 0 <= i < |v.items| :: Accepts(item, v.items[i])
  {
  }

  lemma RequiredIsExact(s: Schema, v: Json, name: string)
    requires s.typ == TObject
    ensures Accepts(s.(required := s.required + [name]), v) <==> Accepts(s, v) && v.Obj? && name in v.members
  {
    var t := s.(required := s.required + [name]);
    assert forall k | k in t.required :: k in s.required || k == name;
    assert forall k | k in s.required :: k in t.required;
    assert name in t.required;
  }

  /** A property's schema applies to the member of that name, if there is one. */
  lemma PropertyIsExact(s: Schema, v: Json, name: string, t: Schema)
    requires s.typ == TObject && s.additional.None? && name !in s.properties
    ensures Accepts(s.(properties := s.properties[name := Some(t)]), v) <==>
              Accepts(s, v) && v.Obj? && (name in v.members ==> Accepts(t, v.members[name]))
    ensures Accepts(s.(properties := s.properties[name := None]), v) <==> Accepts(s, v)
  {
    hide Accepts;
    var with := s.(properties := s.properties[name := Some(t)]);
    ObjectAccepts(s, v);
    ObjectAccepts(with, v);
    ObjectAccepts(s.(properties := s.properties[name := None]), v);
    if Accepts(with, v) {
      forall k | k in v.members && k in s.properties && s.properties[k].Some?
        ensures Accepts(s.properties[k].value, v.members[k])
      {
        assert with.properties[k] == s.properties[k];
      }
    }
  }

  /** An open object schema, with what it says of each member. */
  lemma ObjectAccepts(s: Schema, v: Json)
    requires s.typ == TObject && s.additional.None?
    ensures Accepts(s, v) <==>
              && ConstHolds(s, v) && EnumHolds(s, v) && v.Obj?
              && (forall name | name in s.required :: name in v.members)
              && (forall k | k in v.members && k in s.properties && s.properties[k].Some? ::
                    Accepts(s.properties[k].value, v.members[k]))
  {
  }

  /** Only the literal `false` closes an object, and then to the declared properties. */
  lemma AdditionalIsExact(s: Schema, v: Json, x: Json)
    requires s.typ == TObject && s.additional.None?
    ensures x != Bool(false) ==> (Accepts(s.(additional := Some(x)), v) <==> Accepts(s, v))
    ensures Accepts(s.(additional := Some(Bool(false))), v) <==>
              Accepts(s, v) && v.Obj? && forall name | name in v.members :: name in s.properties
  {
  }

  lemma ConstIsExact(s: Schema, v: Json, c: Json)
    requires s.const_.None?
    ensures Accepts(s.(const_ := Some(c)), v) <==> Accepts(s, v) && JsonEqual(v, c)
  {
  }

  lemma EnumIsExact(s: Schema, v: Json, choices: seq<Json>)
    requires s.enum == [] && choices != []
    ensures Accepts(s.(enum := choices), v) <==>
              Accepts(s, v) && exists i | 0 <= i < |choices| :: JsonEqual(v, choices[i])
  {
  }

  /** The schema without the keywords that say something about other types only. */
  function Relevant(s: Schema): Schema {
    var plain := OfType(s.typ).(const_ := s.const_, enum := s.enum);
    match s.typ
    case TObject => plain.(required := s.required, properties := s.properties, additional := s.additional)
    case TArray => plain.(items := s.items, minItems := s.minItems, maxItems := s.maxItems)
    case TString => plain.(minLength := s.minLength, maxLength := s.maxLength)
    case TInteger => plain.(minimum := s.minimum, maximum := s.maximum)
    case TNumber => plain.(minimum := s.minimum, maximum := s.maximum)
    case _ => plain
  }

  /** Keywords of other types do nothing, and without a known type only const and enum do anything. */
  lemma OthersAreInert(s: Schema, v: Json)
    ensures Accepts(s, v) <==> Accepts(Relevant(s), v)
  {
  }
}

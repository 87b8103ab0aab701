/** The public system configuration: the item type list arrives under one
    of four field names, and missing values fall back to defaults. */
module Public {
  import opened Js

  /** `PublicConfig` */
  datatype PublicConfig = PublicConfig(itemTypes: Value, feedbackTypes: Value, claimValidityDays: Number, publishLimit: Number)

  /** The four names the item types may arrive under, in the order tried. */
  const ItemTypeFields: seq<string> := ["item_types", "item_config", "itemConfig", "itemconfig"]

  /** No field named before position `i` is truthy. */
  predicate NoneTruthyBefore(result: Value, names: seq<string>, i: nat)
    requires i <= |names|
  {
    forall j :: 0 <= j < i ==> !Truthy(Field(result, names[j]))
  }

  /** `a || b || ... || fallback` over the named fields of `result`: the
      first truthy field, or the fallback when none is truthy. */
  function FirstTruthy(result: Value, names: seq<string>, fallback: Value): (r: Value)
    ensures NoneTruthyBefore(result, names, |names|) ==> r == fallback
    ensures forall i :: 0 <= i < |names| ==>
      (NoneTruthyBefore(result, names, i) && Truthy(Field(result, names[i])) ==> r == Field(result, names[i]))
  {
    if names == [] then fallback
    else if Truthy(Field(result, names[0])) then Field(result, names[0])
    else
      var r := FirstTruthy(result, names[1..], fallback);
      assert NoneTruthyBefore(result, names, |names|) ==> NoneTruthyBefore(result, names[1..], |names| - 1);
      assert forall i :: 1 <= i <= |names| && NoneTruthyBefore(result, names, i) ==>
        NoneTruthyBefore(result, names[1..], i - 1);
      r
  }

  /** `Number(x || 0)` */
  function NumberOrZero(v: Value): (r: Number)
    ensures !Truthy(v) ==> r == Finite(0.0)
    ensures v.Num? && Truthy(v) ==> r == v.n
  {
    ToNumber(Or(v, Num(Finite(0.0))))
  }

  /** The result mapping of `getPublicConfig`. */
  function ToPublicConfig(result: Value): (c: PublicConfig)
    ensures c.itemTypes == FirstTruthy(result, ItemTypeFields, Arr([]))
    ensures c.feedbackTypes == Or(Field(result, "feedback_types"), Arr([]))
    ensures c.claimValidityDays == NumberOrZero(Field(result, "claim_validity_days"))
    ensures c.publishLimit == NumberOrZero(Field(result, "publish_limit"))
  {
    PublicConfig(
      FirstTruthy(result, ItemTypeFields, Arr([])),
      Or(Field(result, "feedback_types"), Arr([])),
      NumberOrZero(Field(result, "claim_validity_days")),
      NumberOrZero(Field(result, "publish_limit")))
  }

  /** A list field is absent, null or an array. */
  predicate ListOrAbsent(v: Value) {
    v.Undefined? || v.Null? || v.Arr?
  }

  /** When the four fields hold lists or nothing, the item types are the
      first list present (an empty list counts as present), else `[]`. */
  lemma {:induction false} ItemTypesFirstPresent(result: Value, names: seq<string>, k: nat)
    requires forall i :: 0 <= i < |names| ==> ListOrAbsent(Field(result, names[i]))
    requires k <= |names|
    requires forall i :: 0 <= i < k ==> !Field(result, names[i]).Arr?
    ensures k < |names| && Field(result, names[k]).Arr? ==> FirstTruthy(result, names, Arr([])) == Field(result, names[k])
    ensures (forall i :: 0 <= i < |names| ==> !Field(result, names[i]).Arr?) ==> FirstTruthy(result, names, Arr([])) == Arr([])
  {
    if names != [] {
      if k > 0 {
        ItemTypesFirstPresent(result, names[1..], k - 1);
      } else {
        ItemTypesFirstPresent(result, names[1..], 0);
      }
    }
  }

  /** An empty result gives zero counts and empty lists. */
  lemma EmptyConfigDefaults()
    ensures ToPublicConfig(Obj(map[])).claimValidityDays == Finite(0.0)
    ensures ToPublicConfig(Obj(map[])).publishLimit == Finite(0.0)
    ensures ToPublicConfig(Obj(map[])).itemTypes == Arr([])
    ensures ToPublicConfig(Obj(map[])).feedbackTypes == Arr([])
  {
    ItemTypesFirstPresent(Obj(map[]), ItemTypeFields, 0);
  }

  /** A non-zero count is taken as given. */
  lemma CountKept(days: Number)
    requires days.Finite? && days.r != 0.0
    ensures ToPublicConfig(Obj(map["claim_validity_days" := Num(days)])).claimValidityDays == days
  {
    assert Field(Obj(map["claim_validity_days" := Num(days)]), "claim_validity_days") == Num(days);
  }
}

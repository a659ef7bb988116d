/** The small dictionary helpers of `core/utils.py`. */
module Utils {
  import opened Wrappers

  // ---------------------------------------------------------------------------------------
  // get_pydantic_field_names

  /** A pydantic field: its name and, when declared, its alias. */
  datatype Field = Field(name: string, alias: Option<string>)

  /** Every field name, plus the alias of each field that has one. */
  function FieldNames(fields: seq<Field>): (names: set<string>)
    ensures forall x :: x in names <==>
              exists i :: 0 <= i < |fields| && (fields[i].name == x || fields[i].alias == Some(x))
    decreases |fields|
  {
    if fields == [] then {}
    else
      var rest := FieldNames(fields[..|fields| - 1]);
      var f := fields[|fields| - 1];
      assert forall i :: 0 <= i < |fields| - 1 ==> fields[..|fields| - 1][i] == fields[i];
      rest + {f.name} + (if f.alias.Some? then {f.alias.value} else {})
  }

  // ---------------------------------------------------------------------------------------
  // build_extra_kwargs

  datatype KwargsError =
    | SuppliedTwice(field: string)         // a key given both directly and in model_kwargs
    | ShouldBeExplicit(names: set<string>) // required field names found in model_kwargs

  /** The two dictionaries after the call: `extra_kwargs` and what is left of `values`. */
  datatype Split<V> = Split(extra: map<string, V>, values: map<string, V>)

  /** `order` is the insertion order of the dictionary `values`: each key exactly once. */
  ghost predicate KeyOrder<V>(order: seq<string>, values: map<string, V>) {
    && (forall j, l :: 0 <= j < l < |order| ==> order[j] != order[l])
    && (forall k :: k in values <==> k in order)
  }

  /** `build_extra_kwargs(extra_kwargs, values, all_required_field_names)`, walking the keys of
      `values` in their dictionary order. */
  method BuildExtraKwargs<V>(extra: map<string, V>, values: map<string, V>, order: seq<string>,
                             required: set<string>)
    returns (r: Result<Split<V>, KwargsError>)
    requires KeyOrder(order, values)
    // A key in both dictionaries is reported, the first one in order.
    ensures (r.Failure? && r.error.SuppliedTwice?) <==> values.Keys * extra.Keys != {}
    ensures r.Failure? && r.error.SuppliedTwice? ==>
              exists i :: 0 <= i < |order| && order[i] == r.error.field && order[i] in extra
                          && forall j :: 0 <= j < i ==> order[j] !in extra
    // The explicit-parameter check can only catch keys the caller already had in
    // `extra_kwargs`: moved keys are never required names.
    ensures (r.Failure? && r.error.ShouldBeExplicit?) <==>
              values.Keys * extra.Keys == {} && required * extra.Keys != {}
    ensures r.Failure? && r.error.ShouldBeExplicit? ==> r.error.names == required * extra.Keys
    // On success every non-required key moved with its value, required keys stayed.
    ensures r.Success? ==>
              && (forall k :: k in r.value.extra <==> k in extra || (k in values && k !in required))
              && (forall k :: k in extra ==> r.value.extra[k] == extra[k])
              && (forall k :: k in values && k !in required ==> r.value.extra[k] == values[k])
              && (forall k :: k in r.value.values <==> k in values && k in required)
              && (forall k :: k in r.value.values ==> r.value.values[k] == values[k])
              && r.value.extra.Keys * required == {}
  {
    var e := extra;
    var v := values;
    var i := 0;
    while i < |order|
      invariant 0 <= i <= |order|
      invariant forall j :: 0 <= j < i ==> order[j] !in extra
      invariant forall k :: k in e <==> k in extra || (k in order[..i] && k !in required)
      invariant forall k :: k in extra ==> e[k] == extra[k]
      invariant forall k :: k in order[..i] && k !in required ==> e[k] == values[k]
      invariant forall k :: k in v <==> k in values && (k !in order[..i] || k in required)
      invariant forall k :: k in v ==> v[k] == values[k]
    {
      var name := order[i];
      assert name !in order[..i] by {
        forall j | 0 <= j < i ensures order[..i][j] != name { }
      }
      if name in e {
        assert name in values && name in extra;
        assert name in values.Keys * extra.Keys;
        assert forall j :: 0 <= j < i ==> order[j] !in extra;
        return Failure(SuppliedTwice(name));
      }
      assert order[..i + 1] == order[..i] + [name];
      if name !in required {
        e := e[name := v[name]];
        v := v - {name};
      }
      i := i + 1;
    }
    assert order[..i] == order;
    var invalid := required * e.Keys;
    assert invalid == required * extra.Keys;
    if invalid != {} {
      return Failure(ShouldBeExplicit(invalid));
    }
    return Success(Split(e, v));
  }

  // ---------------------------------------------------------------------------------------
  // convert_to_secret_str

  /** A pydantic `SecretStr`: a string whose value is hidden from printing. */
  datatype SecretStr = SecretStr(secret: string)

  datatype SecretInput = AlreadySecret(s: SecretStr) | Plain(text: string)

  /** `convert_to_secret_str`: a secret passes through unchanged, a plain string is wrapped. */
  function ConvertToSecretStr(value: SecretInput): (r: SecretStr)
    ensures value.AlreadySecret? ==> r == value.s
    ensures value.Plain? ==> r.secret == value.text
  {
    match value
    case AlreadySecret(s) => s
    case Plain(text) => SecretStr(text)
  }

  /** Converting is idempotent, and the secret value of a converted string is that string. */
  lemma ConvertIdempotent(value: SecretInput)
    ensures ConvertToSecretStr(AlreadySecret(ConvertToSecretStr(value))) == ConvertToSecretStr(value)
    ensures value.Plain? ==> ConvertToSecretStr(value).secret == value.text
  {
  }
}

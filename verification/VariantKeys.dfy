/** The identity of a Variant and its flat string form, by which slots and engine pools are keyed. */
module VariantKeys {
  import opened Prelude

  datatype VariantKey = VariantKey(model: string, quant: Option<string>)

  /** Catalog ids hold no colon, so the first colon of a key ends the model id. */
  predicate Plain(v: VariantKey) { ':' !in v.model }

  function AsKey(v: VariantKey): string {
    match v.quant
    case Some(q) => v.model + ":" + q
    case None => v.model
  }

  /** The position of the first colon, or the length when there is none. */
  function FirstColon(s: string): (i: nat)
    ensures i <= |s|
    ensures i < |s| ==> s[i] == ':'
    ensures ':' !in s[..i]
  {
    if s == [] || s[0] == ':' then 0
    else
      var i := 1 + FirstColon(s[1..]);
      assert s[..i] == [s[0]] + s[1..][..i - 1];
      i
  }

  function Parse(key: string): VariantKey {
    var i := FirstColon(key);
    if i < |key| then VariantKey(key[..i], Some(key[i + 1..])) else VariantKey(key, None)
  }

  lemma {:induction false} FirstColonAfter(model: string, rest: string)
    requires ':' !in model
    ensures FirstColon(model + ":" + rest) == |model| && FirstColon(model) == |model|
  {
    var key := model + ":" + rest;
    if model == [] {
      assert key[0] == ':';
    } else {
      assert key[1..] == model[1..] + ":" + rest;
      FirstColonAfter(model[1..], rest);
    }
  }

  /** Reading back a flat key gives the same Variant exactly when its model id holds no colon. */
  lemma ParseInvertsAsKey(v: VariantKey)
    ensures Parse(AsKey(v)) == v <==> Plain(v)
  {
    var key := AsKey(v);
    if Plain(v) {
      var rest := if v.quant.Some? then v.quant.value else "";
      FirstColonAfter(v.model, rest);
      assert (v.model + ":" + rest)[..|v.model|] == v.model;
      assert (v.model + ":" + rest)[|v.model| + 1..] == rest;
    } else {
      AsKeyInvertsParse(key);
    }
  }

  lemma AsKeyInvertsParse(key: string)
    ensures AsKey(Parse(key)) == key && Plain(Parse(key))
  {
    var i := FirstColon(key);
    if i < |key| {
      assert key == key[..i] + [key[i]] + key[i + 1..];
    } else {
      assert key[..i] == key;
    }
  }

  lemma AsKeyInjective(v: VariantKey, w: VariantKey)
    requires Plain(v) && Plain(w) && AsKey(v) == AsKey(w)
    ensures v == w
  {
    ParseInvertsAsKey(v);
    ParseInvertsAsKey(w);
  }
}

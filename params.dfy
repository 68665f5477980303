/**
 * Generic key/value parameter sets, as handed to the signer: the view that
 * `json.Marshal` followed by `json.Unmarshal` into a `map[string]interface{}`
 * gives of a struct whose fields are all tagged `omitempty`, and the handoff
 * maps built for the client SDKs.
 */
module Params {

  /** A parameter value: a string or a number (the `interface{}` of the source). */
  datatype Value = Str(s: string) | Num(n: int)

  /** The zero value that an `omitempty` tag drops: "" for strings, 0 for numbers. */
  predicate IsDefault(v: Value)
  {
    match v
    case Str(s) => s == ""
    case Num(n) => n == 0
  }

  /** A string-keyed parameter set. */
  type ParamMap = map<string, Value>

  /**
   * The signing routine `Sign(params, secretKey)`. Its digest algorithm is not
   * part of this model, so callers receive it as a parameter.
   */
  type Signer = (ParamMap, string) -> string

  /** The wire names of an ordered field list. */
  function Names(fields: seq<(string, Value)>): set<string>
  {
    set i | 0 <= i < |fields| :: fields[i].0
  }

  /** No wire name occurs twice in the field list. */
  predicate DistinctNames(fields: seq<(string, Value)>)
  {
    forall i, j :: 0 <= i < j < |fields| ==> fields[i].0 != fields[j].0
  }

  /**
   * The omit-empty view of an ordered field list: every field whose value is
   * not the zero value, keyed by its wire name.
   */
  function OmitEmpty(fields: seq<(string, Value)>): (m: ParamMap)
    ensures m.Keys <= Names(fields)
    ensures forall k :: k in m ==> !IsDefault(m[k])
  {
    if fields == [] then map[]
    else
      var rest := OmitEmpty(fields[1..]);
      assert Names(fields[1..]) <= Names(fields) by {
        forall k | k in Names(fields[1..]) ensures k in Names(fields) {
          var i :| 0 <= i < |fields[1..]| && fields[1..][i].0 == k;
          assert fields[i + 1].0 == k;
        }
      }
      if IsDefault(fields[0].1) then rest else rest[fields[0].0 := fields[0].1]
  }

  /**
   * With distinct wire names, a field appears in the omit-empty view exactly
   * when its value is not the zero value, and then with that value.
   */
  lemma {:induction false} OmitEmptyAt(fields: seq<(string, Value)>, i: nat)
    requires DistinctNames(fields)
    requires i < |fields|
    ensures fields[i].0 in OmitEmpty(fields) <==> !IsDefault(fields[i].1)
    ensures fields[i].0 in OmitEmpty(fields) ==> OmitEmpty(fields)[fields[i].0] == fields[i].1
  {
    var rest := fields[1..];
    assert DistinctNames(rest) by {
      forall a, b | 0 <= a < b < |rest| ensures rest[a].0 != rest[b].0 {
        assert rest[a] == fields[a + 1] && rest[b] == fields[b + 1];
      }
    }
    if i == 0 {
      forall j | 0 <= j < |rest| ensures rest[j].0 != fields[0].0 {
        assert rest[j] == fields[j + 1];
      }
      assert fields[0].0 !in Names(rest);
    } else {
      OmitEmptyAt(rest, i - 1);
      assert rest[i - 1] == fields[i];
    }
  }

  /**
   * Changing the value of field `i` changes the omit-empty view at that
   * field's wire name only.
   */
  lemma {:induction false} OmitEmptyUpdate(fields: seq<(string, Value)>, i: nat, v: Value)
    requires i < |fields|
    ensures OmitEmpty(fields[i := (fields[i].0, v)]) - {fields[i].0} == OmitEmpty(fields) - {fields[i].0}
  {
    var name := fields[i].0;
    var updated := fields[i := (name, v)];
    if i > 0 {
      assert updated[0] == fields[0];
      assert updated[1..] == fields[1..][i - 1 := (name, v)];
      OmitEmptyUpdate(fields[1..], i - 1, v);
      if !IsDefault(fields[0].1) {
        UpdateOutside(OmitEmpty(updated[1..]), OmitEmpty(fields[1..]), fields[0].0, fields[0].1, name);
      }
    } else {
      assert updated[1..] == fields[1..];
      var rest := OmitEmpty(fields[1..]);
      UpdateOutside(rest, rest, name, v, name);
      UpdateOutside(rest, rest, name, fields[0].1, name);
    }
  }

  /** Two maps that agree outside key `n` still agree outside `n` after the same update. */
  lemma UpdateOutside(a: ParamMap, b: ParamMap, k: string, x: Value, n: string)
    requires a - {n} == b - {n}
    ensures a[k := x] - {n} == b[k := x] - {n}
    ensures k == n ==> a - {n} == a[k := x] - {n}
  {
    var lhs, rhs := a[k := x] - {n}, b[k := x] - {n};
    forall key | key in lhs ensures key in rhs && lhs[key] == rhs[key] {
      if key != k { assert key in a - {n}; }
    }
    forall key | key in rhs ensures key in lhs {
      if key != k { assert key in b - {n}; }
    }
  }

  /** Inserting a new key and then removing it gives back the original map. */
  lemma InsertThenRemove(m: ParamMap, k: string, v: Value)
    requires k !in m
    ensures m[k := v] - {k} == m
  {
    var r := m[k := v] - {k};
    assert forall key :: key in r ==> key in m;
  }

  /**
   * A parameter set carries a valid signature under `signKey` when that entry
   * holds the signer's output over every OTHER entry: the signature is never
   * part of its own signed input. This is the check a receiving SDK performs.
   */
  predicate CarriesSignature(m: ParamMap, signKey: string, sign: Signer, secretKey: string)
  {
    signKey in m && m[signKey] == Str(sign(m - {signKey}, secretKey))
  }

  /**
   * The property the signer is expected to have: an entry named "sign" never
   * influences the digest.
   */
  ghost predicate IgnoresSignEntry(sign: Signer)
  {
    forall m1: ParamMap, m2: ParamMap, k: string {:trigger sign(m1, k), sign(m2, k)} ::
      m1 - {"sign"} == m2 - {"sign"} ==> sign(m1, k) == sign(m2, k)
  }
}

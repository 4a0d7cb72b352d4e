/**
  The two helpers the client imports from `sigfoxapiv2/helper.py`, which is not part of this
  model. `make_sigfox_url` is kept abstract: a URL is the template and the keyword arguments it
  was built from. `try_add_optional_arg` is given the behaviour its call sites rely on.
 */
module Helper {
  import opened PyValues

  /** `make_sigfox_url(template, fargs=fargs)`, not evaluated. */
  datatype Url = SigfoxUrl(template: string, fargs: map<string, Value>)

  /** A URL built from a template without arguments. */
  function PlainUrl(template: string): Url
  {
    SigfoxUrl(template, map[])
  }

  /**
    `try_add_optional_arg(payload, key, value)`: the dict with `key: value` added (or replaced)
    when `value is not None`, the same dict otherwise. The source mutates the dict in place;
    here the caller reassigns its local payload to the result.
   */
  function TryAddOptionalArg(payload: Payload, key: string, value: Value): (r: Payload)
    ensures value == None ==> r == payload
    ensures value != None ==> r.Keys == payload.Keys + {key} && r[key] == value
    ensures forall k :: k in payload && k != key ==> k in r && r[k] == payload[k]
  {
    if value == None then payload else payload[key := value]
  }

  /** What an optional argument leaves in a payload built from an empty dict: `key` is there
      exactly when `value is not None`, and then holds `value`. */
  ghost predicate HasOptional(payload: Payload, key: string, value: Value)
  {
    (key in payload <==> value != None) && (key in payload ==> payload[key] == value)
  }

  /**
    `try_add_optional_arg` called once per field, in order, with `keys[i]` and `values[i]`:
    the successive calls the client makes when it builds a payload of optional fields.
   */
  function AddOptionalArgs(payload: Payload, keys: seq<string>, values: seq<Value>): Payload
    requires |keys| == |values|
    decreases |keys|
  {
    if keys == [] then payload
    else AddOptionalArgs(TryAddOptionalArg(payload, keys[0], values[0]), keys[1..], values[1..])
  }

  /** All keys of the sequence are different. */
  predicate DistinctKeys(keys: seq<string>)
  {
    forall i, j :: 0 <= i < j < |keys| ==> keys[i] != keys[j]
  }

  /**
    With distinct keys none of which is already there, the successive calls keep the payload's
    entries, add no key outside `keys`, and leave each `keys[i]` present exactly when
    `values[i]` is not `None`, holding that value.
   */
  lemma {:induction false} AddOptionalArgsSpec(payload: Payload, keys: seq<string>, values: seq<Value>)
    requires |keys| == |values| && DistinctKeys(keys)
    requires forall i :: 0 <= i < |keys| ==> keys[i] !in payload
    ensures var r := AddOptionalArgs(payload, keys, values);
      && (forall k :: k in r ==> k in payload || k in keys)
      && (forall k :: k in payload ==> k in r && r[k] == payload[k])
      && (forall i :: 0 <= i < |keys| ==> HasOptional(r, keys[i], values[i]))
    decreases |keys|
  {
    if keys != [] {
      var next := TryAddOptionalArg(payload, keys[0], values[0]);
      assert HasOptional(next, keys[0], values[0]);
      forall i | 0 <= i < |keys[1..]|
        ensures keys[1..][i] !in next
      {
        assert keys[1..][i] == keys[i + 1] && keys[0] != keys[i + 1];
      }
      AddOptionalArgsSpec(next, keys[1..], values[1..]);
      var r := AddOptionalArgs(next, keys[1..], values[1..]);
      forall i | 0 <= i < |keys|
        ensures HasOptional(r, keys[i], values[i])
      {
        if i > 0 {
          assert keys[i] == keys[1..][i - 1] && values[i] == values[1..][i - 1];
        }
      }
    }
  }

  /** A dict display: `keys[i]: values[i]` for each `i`, set in turn. */
  function SetFields(payload: Payload, keys: seq<string>, values: seq<Value>): Payload
    requires |keys| == |values|
    decreases |keys|
  {
    if keys == [] then payload
    else SetFields(payload[keys[0] := values[0]], keys[1..], values[1..])
  }

  /** With distinct keys, every `keys[i]` ends up holding `values[i]`, and no other entry changes. */
  lemma {:induction false} SetFieldsSpec(payload: Payload, keys: seq<string>, values: seq<Value>)
    requires |keys| == |values| && DistinctKeys(keys)
    ensures var r := SetFields(payload, keys, values);
      && (forall k :: k in r <==> k in payload || k in keys)
      && (forall k :: k in payload && k !in keys ==> r[k] == payload[k])
      && (forall i :: 0 <= i < |keys| ==> r[keys[i]] == values[i])
    decreases |keys|
  {
    if keys != [] {
      var next := payload[keys[0] := values[0]];
      assert DistinctKeys(keys[1..]) by {
        forall i, j | 0 <= i < j < |keys[1..]|
          ensures keys[1..][i] != keys[1..][j]
        {
          assert keys[1..][i] == keys[i + 1] && keys[1..][j] == keys[j + 1];
        }
      }
      SetFieldsSpec(next, keys[1..], values[1..]);
      var r := SetFields(next, keys[1..], values[1..]);
      assert (set k | k in keys) == {keys[0]} + (set k | k in keys[1..]) by {
        forall k
          ensures k in keys <==> k == keys[0] || k in keys[1..]
        {
          if k in keys {
            var i :| 0 <= i < |keys| && keys[i] == k;
            if i > 0 {
              assert keys[1..][i - 1] == k;
            }
          }
        }
      }
      forall i | 0 <= i < |keys|
        ensures r[keys[i]] == values[i]
      {
        if i > 0 {
          assert keys[i] == keys[1..][i - 1] && values[i] == values[1..][i - 1];
        } else {
          assert keys[0] !in keys[1..] by {
            forall j | 0 <= j < |keys[1..]|
              ensures keys[1..][j] != keys[0]
            {
              assert keys[1..][j] == keys[j + 1];
            }
          }
        }
      }
    }
  }

  /** Adding an absent value any number of times never introduces the key. */
  lemma TryAddAbsentTwice(payload: Payload, key: string)
    requires key !in payload
    ensures key !in TryAddOptionalArg(TryAddOptionalArg(payload, key, None), key, None)
  {
  }

  /** Of two present values added under one key, the second wins. */
  lemma TryAddLastWins(payload: Payload, key: string, v1: Value, v2: Value)
    requires v1 != None && v2 != None
    ensures TryAddOptionalArg(TryAddOptionalArg(payload, key, v1), key, v2) == payload[key := v2]
  {
  }
}

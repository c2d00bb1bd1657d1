/**
 * The configuration tree (config.py): a JSON object read and written through
 * dot-separated key paths, and completed from the defaults by a recursive
 * merge that never overwrites a value already present. Reading and writing
 * the file are not part of this model.
 */
module Configuration {
  import opened Json
  import opened Text

  /** `DEFAULT_CONFIG`. */
  const DefaultConfig: map<string, Json> := map[
    "hotkey" := Str("alt_r"),
    "hotkey_translate_modifier" := Str("ctrl_r"),
    "asr" := Obj(map["base_url" := Str("http://localhost:8000/v1"),
                     "model" := Str("Qwen/Qwen3-ASR-1.7B"),
                     "api_key" := Str("EMPTY")]),
    "llm" := Obj(map["base_url" := Str("https://api.deepseek.com/v1"),
                     "model" := Str("deepseek-chat"),
                     "api_key" := Str("")]),
    "translation" := Obj(map["target_language" := Str("English")]),
    "history" := Obj(map["context_count" := Int(5)]),
    "optimize" := Obj(map["rules" := Str("")]),
    "startup" := Obj(map["enabled" := Bool(false)])]

  /** The value stored at a key path, walking through objects only. */
  function At(v: Json, keys: seq<string>): Option<Json>
    decreases |keys|
  {
    if keys == [] then Some(v)
    else if v.Obj? && keys[0] in v.fields then At(v.fields[keys[0]], keys[1..])
    else None
  }

  /** The walk `get` performs: a missing key, a stored null or a non-object
      on the way ends it without a value. */
  function Walk(v: Json, keys: seq<string>): (r: Option<Json>)
    ensures r.Some? && keys != [] ==> r.value != Null
    decreases |keys|
  {
    if keys == [] then Some(v)
    else if v.Obj? && keys[0] in v.fields && v.fields[keys[0]] != Null then Walk(v.fields[keys[0]], keys[1..])
    else None
  }

  /** `get(dotted_key, default)`. */
  function Lookup(data: map<string, Json>, dottedKey: string, default: Json): Json
  {
    LookupPath(data, Split(dottedKey, '.'), default)
  }

  /** `get` once the dotted key has been split into its segments. */
  function LookupPath(data: map<string, Json>, keys: seq<string>, default: Json): Json
  {
    match Walk(Obj(data), keys)
    case Some(v) => v
    case None => default
  }

  /** Along a path whose every value is present and not null, the walk finds
      the stored value; falsy values such as 0, false and "" included. */
  lemma {:induction false} WalkFindsStored(v: Json, keys: seq<string>)
    requires At(v, keys).Some?
    requires forall j :: 1 <= j <= |keys| ==> At(v, keys[..j]) != Some(Null)
    ensures Walk(v, keys) == At(v, keys)
    decreases |keys|
  {
    if keys != [] {
      assert keys[..1] == [keys[0]];
      assert At(v, keys[..1]) == At(v.fields[keys[0]], []);
      var child := v.fields[keys[0]];
      forall j | 1 <= j <= |keys[1..]| ensures At(child, keys[1..][..j]) != Some(Null) {
        assert keys[..j + 1][1..] == keys[1..][..j];
        assert At(v, keys[..j + 1]) == At(child, keys[1..][..j]);
      }
      WalkFindsStored(child, keys[1..]);
    }
  }

  /** `get` returns the default exactly when the walk finds nothing; what it
      finds is never null. */
  lemma GetDefault(data: map<string, Json>, dottedKey: string, default: Json)
    ensures Walk(Obj(data), Split(dottedKey, '.')).None? ==> Lookup(data, dottedKey, default) == default
    ensures Walk(Obj(data), Split(dottedKey, '.')).Some? ==> Lookup(data, dottedKey, default) != Null
  {
  }

  /** `set(dotted_key, value)` on the key list: each intermediate object is
      created when missing (`setdefault`); an intermediate that exists and is
      not an object makes the call raise, and nothing has changed by then. */
  function SetPath(m: map<string, Json>, keys: seq<string>, value: Json): Option<map<string, Json>>
    requires |keys| >= 1
    decreases |keys|
  {
    if |keys| == 1 then Some(m[keys[0] := value])
    else
      var child := if keys[0] in m then m[keys[0]] else Obj(map[]);
      if !child.Obj? then None
      else match SetPath(child.fields, keys[1..], value)
        case None => None
        case Some(c) => Some(m[keys[0] := Obj(c)])
  }

  /** An existing proper prefix of the path holds something other than an object. */
  predicate Blocked(m: map<string, Json>, keys: seq<string>)
  {
    exists j :: 1 <= j < |keys| && At(Obj(m), keys[..j]).Some? && !At(Obj(m), keys[..j]).value.Obj?
  }

  lemma AtPrefixStep(m: map<string, Json>, keys: seq<string>, j: int)
    requires 1 <= j <= |keys| && keys[0] in m
    ensures At(Obj(m), keys[..j]) == At(m[keys[0]], keys[1..][..j - 1])
  {
    assert keys[..j][0] == keys[0];
    assert keys[..j][1..] == keys[1..][..j - 1];
  }

  /** `set` raises exactly when the path is blocked. */
  lemma {:induction false} SetFailsIffBlocked(m: map<string, Json>, keys: seq<string>, value: Json)
    requires |keys| >= 1
    ensures SetPath(m, keys, value).None? <==> Blocked(m, keys)
    decreases |keys|
  {
    if |keys| > 1 {
      var k := keys[0];
      if k !in m {
        SetFreshSucceeds(keys[1..], value);
        assert !Blocked(m, keys) by {
          forall j | 1 <= j < |keys| ensures At(Obj(m), keys[..j]).None? {
            assert keys[..j][0] == k;
          }
        }
      } else if !m[k].Obj? {
        assert keys[..1] == [k];
        assert At(Obj(m), keys[..1]) == Some(m[k]);
      } else {
        SetFailsIffBlocked(m[k].fields, keys[1..], value);
        assert keys[1..][..0] == [];
        if Blocked(m, keys) {
          var j :| 1 <= j < |keys| && At(Obj(m), keys[..j]).Some? && !At(Obj(m), keys[..j]).value.Obj?;
          AtPrefixStep(m, keys, j);
          assert 1 <= j - 1 < |keys[1..]|;
        }
        if Blocked(m[k].fields, keys[1..]) {
          var i :| 1 <= i < |keys[1..]| && At(Obj(m[k].fields), keys[1..][..i]).Some?
                   && !At(Obj(m[k].fields), keys[1..][..i]).value.Obj?;
          AtPrefixStep(m, keys, i + 1);
        }
      }
    }
  }

  /** Setting below a missing key always succeeds. */
  lemma {:induction false} SetFreshSucceeds(keys: seq<string>, value: Json)
    requires |keys| >= 1
    ensures SetPath(map[], keys, value).Some?
    decreases |keys|
  {
    if |keys| > 1 {
      SetFreshSucceeds(keys[1..], value);
    }
  }

  /** Round trip: after a successful `set`, the value is stored at the path,
      and `get` finds it unless it is null. */
  lemma {:induction false} SetThenAt(m: map<string, Json>, keys: seq<string>, value: Json)
    requires |keys| >= 1 && SetPath(m, keys, value).Some?
    ensures At(Obj(SetPath(m, keys, value).value), keys) == Some(value)
    ensures value != Null ==> Walk(Obj(SetPath(m, keys, value).value), keys) == Some(value)
    decreases |keys|
  {
    if |keys| > 1 {
      var child := if keys[0] in m then m[keys[0]] else Obj(map[]);
      SetThenAt(child.fields, keys[1..], value);
    }
  }

  /** The two paths part at some position. */
  predicate Diverge(p: seq<string>, keys: seq<string>)
  {
    exists i :: 0 <= i < |p| && i < |keys| && p[i] != keys[i]
  }

  /** A successful `set` leaves every path that parts from its own unchanged. */
  lemma {:induction false} SetLeavesOthers(m: map<string, Json>, keys: seq<string>, value: Json, p: seq<string>)
    requires |keys| >= 1 && SetPath(m, keys, value).Some? && Diverge(p, keys)
    ensures At(Obj(SetPath(m, keys, value).value), p) == At(Obj(m), p)
    decreases |keys|
  {
    var m' := SetPath(m, keys, value).value;
    var i :| 0 <= i < |p| && i < |keys| && p[i] != keys[i];
    if p[0] != keys[0] {
      assert p[0] in m' <==> p[0] in m;
    } else {
      assert i > 0 && |keys| > 1;
      var child := if keys[0] in m then m[keys[0]] else Obj(map[]);
      var c' := SetPath(child.fields, keys[1..], value).value;
      assert p[1..][i - 1] != keys[1..][i - 1];
      SetLeavesOthers(child.fields, keys[1..], value, p[1..]);
      if keys[0] !in m {
        EmptyHasNoPaths(p[1..]);
      }
    }
  }

  lemma EmptyHasNoPaths(p: seq<string>)
    requires p != []
    ensures At(Obj(map[]), p) == None
  {
  }

  /** `_merge_defaults(data, defaults)`: keys missing from the data are
      copied from the defaults, and where both hold an object the merge
      recurses; every other value already present is kept. */
  function Merge(data: map<string, Json>, defaults: map<string, Json>): (r: map<string, Json>)
    ensures r.Keys == data.Keys + defaults.Keys
    decreases Obj(defaults)
  {
    map k | k in data.Keys + defaults.Keys ::
      if k !in data then defaults[k]
      else if k in defaults && defaults[k].Obj? && data[k].Obj? then
        Obj(Merge(data[k].fields, defaults[k].fields))
      else data[k]
  }

  /** A value the merge finds already present is kept: all of it unless both
      sides hold objects, in which case its keys are kept. */
  lemma MergeKeeps(data: map<string, Json>, defaults: map<string, Json>, k: string)
    requires k in data
    ensures k in Merge(data, defaults)
    ensures !(k in defaults && defaults[k].Obj? && data[k].Obj?) ==> Merge(data, defaults)[k] == data[k]
    ensures data[k].Obj? ==> Merge(data, defaults)[k].Obj? && data[k].fields.Keys <= Merge(data, defaults)[k].fields.Keys
  {
  }

  /** Every path of the defaults exists after the merge, unless an existing
      value that is not an object stands on the way. */
  lemma {:induction false} MergeCovers(data: map<string, Json>, defaults: map<string, Json>, p: seq<string>)
    requires At(Obj(defaults), p).Some?
    ensures At(Obj(Merge(data, defaults)), p).Some? || Blocked(data, p)
    decreases |p|
  {
    if |p| > 1 && p[0] in data {
      var k := p[0];
      assert defaults[k].Obj?;
      if data[k].Obj? {
        var sub := data[k].fields;
        MergeCovers(sub, defaults[k].fields, p[1..]);
        if Blocked(sub, p[1..]) {
          var i :| 1 <= i < |p[1..]| && At(Obj(sub), p[1..][..i]).Some? && !At(Obj(sub), p[1..][..i]).value.Obj?;
          AtPrefixStep(data, p, i + 1);
        }
      } else {
        AtPrefixStep(data, p, 1);
        assert p[1..][..0] == [];
      }
    }
  }

  /** Merging the defaults a second time changes nothing. */
  lemma {:induction false} MergeIdempotent(data: map<string, Json>, defaults: map<string, Json>)
    ensures Merge(Merge(data, defaults), defaults) == Merge(data, defaults)
    decreases Obj(defaults)
  {
    var once := Merge(data, defaults);
    var twice := Merge(once, defaults);
    forall k | k in twice.Keys
      ensures twice[k] == once[k]
    {
      if k in defaults && defaults[k].Obj? && once[k].Obj? {
        if k in data && data[k].Obj? {
          MergeIdempotent(data[k].fields, defaults[k].fields);
        } else {
          assert k !in data;
          assert once[k] == defaults[k];
          MergeSelf(defaults[k].fields);
        }
      }
    }
  }

  /** Merging a tree with itself gives it back. */
  lemma {:induction false} MergeSelf(m: map<string, Json>)
    ensures Merge(m, m) == m
    decreases Obj(m)
  {
    forall k | k in m
      ensures Merge(m, m)[k] == m[k]
    {
      if m[k].Obj? {
        MergeSelf(m[k].fields);
      }
    }
  }

  /** The settings object; `data` is its `_data` tree. */
  class Config {
    var data: map<string, Json>

    /** A fresh settings object holds the defaults. */
    constructor()
      ensures data == DefaultConfig
    {
      data := DefaultConfig;
    }

    /** `get`: the walk over the key list, one segment at a time. */
    method Get(dottedKey: string, default: Json) returns (value: Json)
      ensures value == Lookup(data, dottedKey, default)
    {
      var keys := Split(dottedKey, '.');
      var current := Obj(data);
      var i := 0;
      while i < |keys|
        invariant 0 <= i <= |keys|
        invariant Walk(Obj(data), keys) == Walk(current, keys[i..])
      {
        assert keys[i..][0] == keys[i] && keys[i..][1..] == keys[i + 1..];
        if current.Obj? {
          if keys[i] !in current.fields || current.fields[keys[i]] == Null {
            return default;
          }
          current := current.fields[keys[i]];
        } else {
          return default;
        }
        i := i + 1;
      }
      value := current;
    }

    /** `set`: `failed` stands for the exception, after which nothing changed. */
    method Set(dottedKey: string, value: Json) returns (failed: bool)
      modifies this
      ensures var keys := Split(dottedKey, '.');
              failed <==> SetPath(old(data), keys, value).None?
      ensures failed ==> data == old(data)
      ensures !failed ==> data == SetPath(old(data), Split(dottedKey, '.'), value).value
    {
      var keys := Split(dottedKey, '.');
      match SetPath(data, keys, value)
      case None =>
        failed := true;
      case Some(m) =>
        data := m;
        failed := false;
    }

    /** `_merge_defaults(self._data, DEFAULT_CONFIG)`. */
    method MergeDefaults()
      modifies this
      ensures data == Merge(old(data), DefaultConfig)
    {
      data := MergeInto(data, DefaultConfig);
    }
  }

  /** The merge as the source performs it: one default key at a time, with a
      recursive call where both sides hold objects. */
  method MergeInto(data: map<string, Json>, defaults: map<string, Json>) returns (r: map<string, Json>)
    ensures r == Merge(data, defaults)
    decreases Obj(defaults)
  {
    r := data;
    var todo := defaults.Keys;
    while todo != {}
      invariant todo <= defaults.Keys
      invariant r.Keys == data.Keys + (defaults.Keys - todo)
      invariant forall k :: k in r ==> r[k] == (if k in todo then data[k] else Merge(data, defaults)[k])
      decreases todo
    {
      var k :| k in todo;
      if k !in r {
        r := r[k := defaults[k]];
      } else if defaults[k].Obj? && r[k].Obj? {
        var sub := MergeInto(r[k].fields, defaults[k].fields);
        r := r[k := Obj(sub)];
      }
      todo := todo - {k};
    }
  }
}

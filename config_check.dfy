/**
  The nested required-key check that both `validate_config` functions (src/utils.py and
  src/utils/config.py) run as their inner `check_keys`: the required keys are an ordered table
  whose entries either list subkeys or nest a further table, and the first key found missing,
  in table order, is reported by its dotted path.
 */
module ConfigCheck {
  import opened Wrappers

  /** A configuration value as loaded from JSON. */
  datatype Value =
    | Dict(fields: map<string, Value>)
    | Items(items: seq<Value>)
    | Text(s: string)
      /** A number, a boolean or null. */
    | Scalar

  /** One entry of the required-key table, in the table's order. */
  datatype Entry = Entry(key: string, need: Need)

  /** What an entry requires of its value: a list of subkeys, or a nested table. */
  datatype Need = SubKeys(keys: seq<string>) | Nested(table: seq<Entry>)

  /** The verdict of check_keys: all present, the dotted path of the first missing key, or a TypeError from `in` or `[]`. */
  datatype Check = Complete | Missing(path: string) | TypeFailure

  predicate IsSubstring(key: string, s: string) {
    exists i, j :: 0 <= i <= j <= |s| && s[i..j] == key
  }

  /** Python's `key in value`: dictionary keys, list elements, substrings; anything else raises TypeError. */
  function In(value: Value, key: string): (r: Result<bool>)
    ensures value.Dict? ==> r == Ok(key in value.fields)
    ensures value.Items? ==> r == Ok(Text(key) in value.items)
    ensures value.Text? ==> r == Ok(IsSubstring(key, value.s))
    ensures value.Scalar? ==> r == Err(TypeError)
  {
    match value
    case Dict(fields) => Ok(key in fields)
    case Items(items) => Ok(Text(key) in items)
    case Text(s) => Ok(IsSubstring(key, s))
    case Scalar => Err(TypeError)
  }

  /** Python's `value[key]` after `key in value` held: only a dictionary can be indexed by a string key. */
  function Get(value: Value, key: string): (r: Result<Value>)
    ensures r.Ok? <==> value.Dict? && key in value.fields
    ensures r.Ok? ==> r.value == value.fields[key]
  {
    if value.Dict? && key in value.fields then Ok(value.fields[key]) else Err(TypeError)
  }

  /** The inner loop over a list of subkeys: `value[key]` is taken afresh for each subkey. */
  function CheckSubKeys(data: Value, key: string, subkeys: seq<string>, path: string): (r: Check)
    decreases |subkeys|
  {
    if |subkeys| == 0 then Complete
    else match Get(data, key)
      case Err(_) => TypeFailure
      case Ok(value) =>
        match In(value, subkeys[0])
        case Err(_) => TypeFailure
        case Ok(found) =>
          if !found then Missing(path + key + "." + subkeys[0])
          else CheckSubKeys(data, key, subkeys[1..], path)
  }

  /** check_keys: each entry in order; a missing key stops the check at once, and a nested table is checked under `path + key + "."`. */
  function CheckKeys(data: Value, table: seq<Entry>, path: string): (r: Check)
    decreases table
  {
    if |table| == 0 then Complete
    else
      var e := table[0];
      match In(data, e.key)
      case Err(_) => TypeFailure
      case Ok(found) =>
        if !found then Missing(path + e.key)
        else
          var first := match e.need
            case SubKeys(keys) => CheckSubKeys(data, e.key, keys, path)
            case Nested(inner) =>
              match Get(data, e.key)
              case Err(_) => TypeFailure
              case Ok(value) => CheckKeys(value, inner, path + e.key + ".");
          if !first.Complete? then first else CheckKeys(data, table[1..], path)
  }

  /** `key in value` holds without raising. */
  predicate Has(value: Value, key: string) {
    In(value, key) == Ok(true)
  }

  /** The reference reading of the requirement: every entry's key is there, and its subkeys or its nested table under it. */
  predicate Satisfies(data: Value, table: seq<Entry>)
    decreases table
  {
    forall i :: 0 <= i < |table| ==> Holds(data, table[i])
  }

  predicate Holds(data: Value, e: Entry)
    decreases e
  {
    Has(data, e.key) &&
    match e.need
    case SubKeys(keys) => |keys| == 0 || (Get(data, e.key).Ok? && forall k :: k in keys ==> Has(Get(data, e.key).value, k))
    case Nested(inner) => Get(data, e.key).Ok? && Satisfies(Get(data, e.key).value, inner)
  }

  lemma {:induction false} SubKeysCompleteIff(data: Value, key: string, subkeys: seq<string>, path: string)
    ensures CheckSubKeys(data, key, subkeys, path) == Complete <==>
      (|subkeys| == 0 || (Get(data, key).Ok? && forall k :: k in subkeys ==> Has(Get(data, key).value, k)))
    decreases |subkeys|
  {
    if |subkeys| > 0 && Get(data, key).Ok? && Has(Get(data, key).value, subkeys[0]) {
      SubKeysCompleteIff(data, key, subkeys[1..], path);
      assert forall k :: k in subkeys ==> k == subkeys[0] || k in subkeys[1..];
    }
  }

  /** check_keys finds nothing missing exactly when the configuration satisfies the table. */
  lemma {:induction false} CompleteIffSatisfies(data: Value, table: seq<Entry>, path: string)
    ensures CheckKeys(data, table, path) == Complete <==> Satisfies(data, table)
    decreases table
  {
    if |table| > 0 {
      var e := table[0];
      if Has(data, e.key) {
        match e.need
        case SubKeys(keys) =>
          SubKeysCompleteIff(data, e.key, keys, path);
        case Nested(inner) =>
          if Get(data, e.key).Ok? {
            CompleteIffSatisfies(Get(data, e.key).value, inner, path + e.key + ".");
          }
      }
      CompleteIffSatisfies(data, table[1..], path);
      assert forall i :: 1 <= i < |table| ==> table[i] == table[1..][i - 1];
      if Satisfies(data, table[1..]) && Holds(data, e) {
        assert forall i :: 0 <= i < |table| ==> Holds(data, table[i]) by {
          forall i | 0 <= i < |table| ensures Holds(data, table[i]) {
            if i > 0 {
              assert table[i] == table[1..][i - 1];
            }
          }
        }
      }
    }
  }

  /** `k` is the first of the subkeys that `value` does not hold. */
  predicate FirstLacking(value: Value, keys: seq<string>, k: int) {
    0 <= k < |keys| && !Has(value, keys[k]) && forall j :: 0 <= j < k ==> Has(value, keys[j])
  }

  /** `i` is the first entry of the table, in table order, that `data` does not satisfy. */
  predicate FirstFailing(data: Value, table: seq<Entry>, i: int) {
    0 <= i < |table| && !Holds(data, table[i]) && forall j :: 0 <= j < i ==> Holds(data, table[j])
  }

  /**
    The dotted path that names an unsatisfied entry under `path`: the key itself when it is
    absent, else the key and its first lacking subkey joined by ".", else the path that names the
    first unsatisfied entry of its nested table under `path + key + "."`.
   */
  predicate ReportedPath(data: Value, e: Entry, path: string, name: string)
    decreases e
  {
    if !Has(data, e.key) then name == path + e.key
    else
      Get(data, e.key).Ok? &&
      match e.need
      case SubKeys(keys) =>
        exists k :: 0 <= k < |keys| && FirstLacking(Get(data, e.key).value, keys, k) && name == path + e.key + "." + keys[k]
      case Nested(inner) =>
        exists i :: 0 <= i < |inner| && FirstFailing(Get(data, e.key).value, inner, i) &&
          ReportedPath(Get(data, e.key).value, inner[i], path + e.key + ".", name)
  }

  /** A subkey check that reports a key names exactly the entry's key and its first lacking subkey. */
  lemma {:induction false} SubKeysMissingPath(data: Value, key: string, subkeys: seq<string>, path: string)
    ensures CheckSubKeys(data, key, subkeys, path).Missing? ==>
      Get(data, key).Ok? &&
      exists k :: FirstLacking(Get(data, key).value, subkeys, k) &&
        CheckSubKeys(data, key, subkeys, path).path == path + key + "." + subkeys[k]
    decreases |subkeys|
  {
    if |subkeys| > 0 && CheckSubKeys(data, key, subkeys, path).Missing? {
      var value := Get(data, key).value;
      if !Has(value, subkeys[0]) {
        assert FirstLacking(value, subkeys, 0);
      } else {
        SubKeysMissingPath(data, key, subkeys[1..], path);
        var k :| FirstLacking(value, subkeys[1..], k) &&
          CheckSubKeys(data, key, subkeys[1..], path).path == path + key + "." + subkeys[1..][k];
        assert subkeys[k + 1] == subkeys[1..][k];
        assert forall j :: 1 <= j < k + 1 ==> subkeys[j] == subkeys[1..][j - 1];
        assert FirstLacking(value, subkeys, k + 1);
      }
    }
  }

  /**
    A failed check reports the first entry, in table order, that the configuration does not
    satisfy, and names it by exactly its ReportedPath.
   */
  lemma {:induction false} MissingIsFirstFailure(data: Value, table: seq<Entry>, path: string)
    ensures CheckKeys(data, table, path).Missing? ==>
      exists i :: FirstFailing(data, table, i) && ReportedPath(data, table[i], path, CheckKeys(data, table, path).path)
    decreases table
  {
    if |table| > 0 && CheckKeys(data, table, path).Missing? {
      var e := table[0];
      var name := CheckKeys(data, table, path).path;
      var first := match e.need
        case SubKeys(keys) => CheckSubKeys(data, e.key, keys, path)
        case Nested(inner) =>
          match Get(data, e.key)
          case Err(_) => TypeFailure
          case Ok(value) => CheckKeys(value, inner, path + e.key + ".");
      if !Has(data, e.key) {
        assert name == path + e.key;
        assert FirstFailing(data, table, 0);
        assert ReportedPath(data, table[0], path, name);
      } else if !first.Complete? {
        assert name == first.path;
        match e.need {
          case SubKeys(keys) =>
            SubKeysCompleteIff(data, e.key, keys, path);
            SubKeysMissingPath(data, e.key, keys, path);
            assert ReportedPath(data, e, path, name);
          case Nested(inner) =>
            var value := Get(data, e.key).value;
            CompleteIffSatisfies(value, inner, path + e.key + ".");
            MissingIsFirstFailure(value, inner, path + e.key + ".");
            var k :| FirstFailing(value, inner, k) && ReportedPath(value, inner[k], path + e.key + ".", first.path);
            assert ReportedPath(data, e, path, name);
        }
        assert FirstFailing(data, table, 0);
      } else {
        match e.need {
          case SubKeys(keys) =>
            SubKeysCompleteIff(data, e.key, keys, path);
          case Nested(inner) =>
            CompleteIffSatisfies(Get(data, e.key).value, inner, path + e.key + ".");
        }
        assert Holds(data, table[0]);
        MissingIsFirstFailure(data, table[1..], path);
        var i :| FirstFailing(data, table[1..], i) && ReportedPath(data, table[1..][i], path, name);
        assert table[i + 1] == table[1..][i];
        assert forall j :: 1 <= j < i + 1 ==> table[j] == table[1..][j - 1];
        assert FirstFailing(data, table, i + 1);
      }
    }
  }

  /** `big` holds everything `small` holds, possibly with extra keys at any depth. */
  predicate Extends(big: Value, small: Value)
    decreases small
  {
    big == small ||
    (big.Dict? && small.Dict? &&
     forall k :: k in small.fields ==> k in big.fields && Extends(big.fields[k], small.fields[k]))
  }

  lemma {:induction false} ExtendsKeepsSubKeys(big: Value, small: Value, key: string, keys: seq<string>)
    requires Extends(big, small) && Has(small, key)
    requires |keys| == 0 || (Get(small, key).Ok? && forall k :: k in keys ==> Has(Get(small, key).value, k))
    ensures Has(big, key)
    ensures |keys| == 0 || (Get(big, key).Ok? && forall k :: k in keys ==> Has(Get(big, key).value, k))
  {
    if big != small && |keys| > 0 {
      var inner := Get(small, key).value;
      var outer := Get(big, key).value;
      assert Extends(outer, inner);
      forall k | k in keys ensures Has(outer, k) {
        assert Has(inner, k);
      }
    }
  }

  /** Extra keys never make the check fail: whatever satisfies the table still does with more keys added. */
  lemma {:induction false} ExtraKeysNeverFail(big: Value, small: Value, table: seq<Entry>)
    requires Extends(big, small) && Satisfies(small, table)
    ensures Satisfies(big, table)
    decreases table
  {
    forall i | 0 <= i < |table| ensures Holds(big, table[i]) {
      var e := table[i];
      assert Holds(small, e);
      match e.need
      case SubKeys(keys) =>
        ExtendsKeepsSubKeys(big, small, e.key, keys);
      case Nested(inner) =>
        if big != small {
          assert Get(big, e.key).Ok?;
          ExtraKeysNeverFail(Get(big, e.key).value, Get(small, e.key).value, inner);
        }
    }
  }
}

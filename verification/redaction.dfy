/** Redacting the body of a request or a response before it is logged: an allow-list says which parts
    may be seen. */
module Redaction {

  /** A JSON value as boto holds it. Keys of a dictionary are distinct and keep their order. */
  datatype Json =
    | Null
    | Bool(flag: bool)
    | Number(number: int)
    | Text(text: string)
      /** A point in time; `text` is how it prints. */
    | Date(text: string)
    | List(items: seq<Json>)
    | Dict(fields: seq<Field>)

  datatype Field = Field(key: string, value: Json)

  /** A flag decides about everything below it; keys lead further down, and "*" stands for any key
      that is not listed. */
  datatype Allow = Flag(allowed: bool) | Keys(keys: map<string, Allow>)

  /** The redacted body; `AttributeError` when an entry of a list under keys is no dictionary. */
  datatype Result = Ok(fields: seq<Field>) | AttributeError

  const REDACTED := Text("*REDACTED*")
  const ANY := "*"

  function RuleFor(key: string, keys: map<string, Allow>): Allow {
    if key in keys then keys[key] else if ANY in keys then keys[ANY] else Flag(false)
  }

  function Printed(value: Json): Json {
    if value.Date? then Text(value.text) else value
  }

  /** What is logged for one field: nothing, one value, or an error. */
  datatype Shown = Hidden | Value(value: Json) | Failure

  function Redact(fields: seq<Field>, keys: map<string, Allow>): Result
    decreases fields
  {
    if fields == [] then Ok([])
    else
      var shown := RedactValue(fields[0].value, RuleFor(fields[0].key, keys));
      var rest := Redact(fields[1..], keys);
      if shown.Failure? || rest.AttributeError? then AttributeError
      else if shown.Hidden? then rest
      else Ok([Field(fields[0].key, shown.value)] + rest.fields)
  }

  function RedactValue(value: Json, rule: Allow): Shown
    decreases value
  {
    if rule.Flag? then Value(if rule.allowed then Printed(value) else REDACTED)
    else if value.Dict? then
      var inner := Redact(value.fields, rule.keys);
      if inner.Ok? then Value(Dict(inner.fields)) else Failure
    else if value.List? then
      RedactItems(value.items, rule.keys)
    else Hidden
  }

  /** A missing entry of a list is logged as an empty dictionary. */
  function RedactItems(items: seq<Json>, keys: map<string, Allow>): (r: Shown)
    ensures r.Failure? || (r.Value? && r.value.List?)
    decreases items
  {
    if items == [] then Value(List([]))
    else
      var first :=
        if items[0].Dict? then Redact(items[0].fields, keys)
        else if items[0].Null? then Ok([])
        else AttributeError;
      var rest := RedactItems(items[1..], keys);
      if first.AttributeError? || rest.Failure? then Failure
      else Value(List([Dict(first.fields)] + rest.value.items))
  }

  // ----- what may be seen

  datatype PathStep = AtKey(key: string) | AtIndex(index: nat)

  type Path = seq<PathStep>

  /** The value at the end of a path, if there is one. */
  function ValueAt(value: Json, path: Path): Shown
    decreases path
  {
    if path == [] then Value(value)
    else match path[0]
      case AtIndex(i) =>
        if value.List? && i < |value.items| then ValueAt(value.items[i], path[1..]) else Hidden
      case AtKey(key) =>
        if value.Dict? && HasKey(value.fields, key) then ValueAt(Get(value.fields, key), path[1..]) else Hidden
  }

  predicate HasKey(fields: seq<Field>, key: string) {
    exists i :: 0 <= i < |fields| && fields[i].key == key
  }

  function Get(fields: seq<Field>, key: string): Json
    requires HasKey(fields, key)
  {
    if fields[0].key == key then fields[0].value else Get(fields[1..], key)
  }

  /** Whether the allow-list marks the path as one that may be seen. */
  predicate Marked(rule: Allow, path: Path)
    decreases path
  {
    if rule.Flag? then rule.allowed && path == []
    else
      && path != []
      && match path[0]
         case AtIndex(_) => Marked(rule, path[1..])
         case AtKey(key) => Marked(RuleFor(key, rule.keys), path[1..])
  }

  /** The same structure: the same keys, the same list lengths, and null in the same places. */
  predicate SameShape(one: Json, two: Json)
    decreases one
  {
    if one.Dict? && two.Dict? then SameShapes(one.fields, two.fields)
    else if one.List? && two.List? then
      |one.items| == |two.items| && forall i | 0 <= i < |one.items| :: SameShape(one.items[i], two.items[i])
    else !one.Dict? && !two.Dict? && !one.List? && !two.List? && one.Null? == two.Null?
  }

  predicate SameShapes(one: seq<Field>, two: seq<Field>)
    decreases one
  {
    |one| == |two|
    && forall i | 0 <= i < |one| :: one[i].key == two[i].key && SameShape(one[i].value, two[i].value)
  }

  predicate DistinctKeys(fields: seq<Field>) {
    forall i, j | 0 <= i < j < |fields| :: fields[i].key != fields[j].key
  }

  /** Every dictionary in the value has distinct keys. */
  predicate ProperValue(value: Json)
    decreases value
  {
    && (value.Dict? ==> DistinctKeys(value.fields) && forall f | f in value.fields :: ProperValue(f.value))
    && (value.List? ==> forall v | v in value.items :: ProperValue(v))
  }

  /** The two values agree on every path the rule marks. */
  ghost predicate Agree(one: Json, two: Json, rule: Allow) {
    forall path | Marked(rule, path) :: ValueAt(one, path) == ValueAt(two, path)
  }

  lemma {:induction false} GetAt(fields: seq<Field>, i: nat)
    requires DistinctKeys(fields) && i < |fields|
    ensures HasKey(fields, fields[i].key) && Get(fields, fields[i].key) == fields[i].value
  {
    if i > 0 {
      GetAt(fields[1..], i - 1);
      assert fields[0].key != fields[i].key;
    }
  }

  lemma AgreeBelowKey(one: seq<Field>, two: seq<Field>, keys: map<string, Allow>, i: nat)
    requires DistinctKeys(one) && DistinctKeys(two) && SameShapes(one, two) && i < |one|
    requires Agree(Dict(one), Dict(two), Keys(keys))
    ensures Agree(one[i].value, two[i].value, RuleFor(one[i].key, keys))
  {
    GetAt(one, i);
    GetAt(two, i);
    var key := one[i].key;
    forall path | Marked(RuleFor(key, keys), path) ensures ValueAt(one[i].value, path) == ValueAt(two[i].value, path) {
      var longer := [AtKey(key)] + path;
      assert longer[1..] == path;
      assert Marked(Keys(keys), longer);
      assert ValueAt(Dict(one), longer) == ValueAt(Dict(two), longer);
    }
  }

  lemma AgreeBelowIndex(one: seq<Json>, two: seq<Json>, keys: map<string, Allow>, i: nat)
    requires |one| == |two| && i < |one| && Agree(List(one), List(two), Keys(keys))
    ensures Agree(one[i], two[i], Keys(keys))
  {
    forall path | Marked(Keys(keys), path) ensures ValueAt(one[i], path) == ValueAt(two[i], path) {
      var longer := [AtIndex(i)] + path;
      assert longer[1..] == path;
      assert Marked(Keys(keys), longer);
      assert ValueAt(List(one), longer) == ValueAt(List(two), longer);
    }
  }

  /** The fields from `i` on. */
  lemma {:induction false} FieldsDoNotInterfere(one: seq<Field>, two: seq<Field>, keys: map<string, Allow>, i: nat)
    requires DistinctKeys(one) && DistinctKeys(two) && SameShapes(one, two) && i <= |one|
    requires forall k | 0 <= k < |one| :: RedactValue(one[k].value, RuleFor(one[k].key, keys))
                                       == RedactValue(two[k].value, RuleFor(two[k].key, keys))
    ensures Redact(one[i..], keys) == Redact(two[i..], keys)
    decreases |one| - i
  {
    if i < |one| {
      FieldsDoNotInterfere(one, two, keys, i + 1);
      assert one[i..][1..] == one[i + 1..] && two[i..][1..] == two[i + 1..];
    }
  }

  lemma {:induction false} ItemsDoNotInterfere(one: seq<Json>, two: seq<Json>, keys: map<string, Allow>, i: nat)
    requires |one| == |two| && i <= |one|
    requires forall k | 0 <= k < |one| :: SameShape(one[k], two[k])
    requires forall k | 0 <= k < |one| && one[k].Dict? && two[k].Dict? :: Redact(one[k].fields, keys) == Redact(two[k].fields, keys)
    ensures RedactItems(one[i..], keys) == RedactItems(two[i..], keys)
    decreases |one| - i
  {
    if i < |one| {
      ItemsDoNotInterfere(one, two, keys, i + 1);
      assert one[i..][1..] == one[i + 1..] && two[i..][1..] == two[i + 1..];
      assert SameShape(one[i], two[i]);
    }
  }

  lemma {:induction false} ValuesDoNotInterfere(one: Json, two: Json, rule: Allow)
    requires ProperValue(one) && ProperValue(two) && SameShape(one, two) && Agree(one, two, rule)
    ensures RedactValue(one, rule) == RedactValue(two, rule)
    decreases one
  {
    if rule.Flag? {
      if rule.allowed {
        assert Marked(rule, []);
        assert ValueAt(one, []) == ValueAt(two, []);
      }
    } else if one.Dict? {
      DictsDoNotInterfere(one.fields, two.fields, rule.keys);
    } else if one.List? {
      forall k | 0 <= k < |one.items| && one.items[k].Dict?
        ensures Redact(one.items[k].fields, rule.keys) == Redact(two.items[k].fields, rule.keys)
      {
        AgreeBelowIndex(one.items, two.items, rule.keys, k);
        assert SameShape(one.items[k], two.items[k]) && ProperValue(one.items[k]) && ProperValue(two.items[k]);
        assert one.items[k] == Dict(one.items[k].fields) && two.items[k] == Dict(two.items[k].fields);
        DictsDoNotInterfere(one.items[k].fields, two.items[k].fields, rule.keys);
      }
      ItemsDoNotInterfere(one.items, two.items, rule.keys, 0);
      assert one.items[0..] == one.items && two.items[0..] == two.items;
    }
  }

  /** What is logged depends on nothing but the structure and the values the allow-list marks: two
      bodies that agree there are logged alike, however they differ elsewhere. */
  lemma {:induction false} DictsDoNotInterfere(one: seq<Field>, two: seq<Field>, keys: map<string, Allow>)
    requires ProperValue(Dict(one)) && ProperValue(Dict(two)) && SameShape(Dict(one), Dict(two))
    requires Agree(Dict(one), Dict(two), Keys(keys))
    ensures Redact(one, keys) == Redact(two, keys)
    decreases one
  {
    assert SameShapes(one, two);
    forall k | 0 <= k < |one|
      ensures RedactValue(one[k].value, RuleFor(one[k].key, keys)) == RedactValue(two[k].value, RuleFor(two[k].key, keys))
    {
      AgreeBelowKey(one, two, keys, k);
      assert one[k] in one && two[k] in two;
      ValuesDoNotInterfere(one[k].value, two[k].value, RuleFor(one[k].key, keys));
    }
    FieldsDoNotInterfere(one, two, keys, 0);
    assert one[0..] == one && two[0..] == two;
  }

  // ----- redacting twice

  lemma {:induction false} RedactTwice(fields: seq<Field>, keys: map<string, Allow>)
    ensures var r := Redact(fields, keys); r.Ok? ==> Redact(r.fields, keys) == r
    decreases fields
  {
    if fields != [] {
      var r, rest := Redact(fields, keys), Redact(fields[1..], keys);
      RedactTwice(fields[1..], keys);
      RedactValueTwice(fields[0].value, RuleFor(fields[0].key, keys));
      if r.Ok? && RedactValue(fields[0].value, RuleFor(fields[0].key, keys)).Value? {
        assert r.fields[1..] == rest.fields;
      }
    }
  }

  lemma {:induction false} RedactValueTwice(value: Json, rule: Allow)
    ensures var s := RedactValue(value, rule); s.Value? ==> RedactValue(s.value, rule) == s
    decreases value
  {
    if rule.Keys? {
      if value.Dict? {
        RedactTwice(value.fields, rule.keys);
      } else if value.List? {
        RedactItemsTwice(value.items, rule.keys);
      }
    }
  }

  lemma {:induction false} RedactItemsTwice(items: seq<Json>, keys: map<string, Allow>)
    ensures var s := RedactItems(items, keys); s.Value? ==> RedactItems(s.value.items, keys) == s
    decreases items
  {
    if items != [] {
      var s := RedactItems(items, keys);
      RedactItemsTwice(items[1..], keys);
      if s.Value? {
        assert s.value.items[1..] == RedactItems(items[1..], keys).value.items;
        if items[0].Dict? {
          RedactTwice(items[0].fields, keys);
        } else {
          assert s.value.items[0] == Dict([]) && Redact([], keys) == Ok([]);
        }
      }
    }
  }

  // ----- what is logged

  /** A value that is marked by its own key is logged as it is; a value that no rule covers is never
      logged; and no key is logged that the body does not have. */
  lemma {:induction false} LoggedFields(fields: seq<Field>, keys: map<string, Allow>)
    requires Redact(fields, keys).Ok?
    ensures forall f | f in fields && RuleFor(f.key, keys) == Flag(true) :: Field(f.key, Printed(f.value)) in Redact(fields, keys).fields
    ensures forall f | f in Redact(fields, keys).fields && RuleFor(f.key, keys) == Flag(false) :: f.value == REDACTED
    ensures forall f | f in Redact(fields, keys).fields :: HasKey(fields, f.key)
    decreases fields
  {
    if fields != [] {
      var rest := Redact(fields[1..], keys);
      LoggedFields(fields[1..], keys);
      assert fields == [fields[0]] + fields[1..];
      forall f | f in Redact(fields, keys).fields ensures HasKey(fields, f.key) {
        if f in rest.fields && HasKey(fields[1..], f.key) {
          var i :| 0 <= i < |fields[1..]| && fields[1..][i].key == f.key;
          assert fields[i + 1].key == f.key;
        } else {
          assert fields[0].key == f.key;
        }
      }
    }
  }

  datatype Decision = Undecided | Decided(allowed: bool)

  /** The flag that decides about the value at the end of a path, if the rules lead there. */
  function FlagAt(rule: Allow, path: Path): Decision
    decreases path
  {
    if rule.Flag? then if path == [] then Decided(rule.allowed) else Undecided
    else if path == [] then Undecided
    else match path[0]
      case AtIndex(_) => FlagAt(rule, path[1..])
      case AtKey(key) =>
        if key in rule.keys then FlagAt(rule.keys[key], path[1..])
        else if "*" in rule.keys then FlagAt(rule.keys["*"], path[1..])
        else if path[1..] == [] then Decided(false)
        else Undecided
  }

  /** What a path leads to in the logged body, when a flag decides about it. */
  predicate LoggedAs(before: Json, after: Json, rule: Allow, path: Path) {
    FlagAt(rule, path).Decided? && ValueAt(before, path).Value? ==>
      var value := ValueAt(before, path).value;
      ValueAt(after, path) == Value(if !FlagAt(rule, path).allowed then Text("*REDACTED*")
                                    else if value.Date? then Text(value.text) else value)
  }

  lemma {:induction false} FieldLogged(fields: seq<Field>, keys: map<string, Allow>, key: string)
    requires DistinctKeys(fields) && Redact(fields, keys).Ok? && HasKey(fields, key)
    ensures var out, shown := Redact(fields, keys).fields, RedactValue(Get(fields, key), RuleFor(key, keys));
            if shown.Value? then HasKey(out, key) && Get(out, key) == shown.value else !HasKey(out, key)
    decreases fields
  {
    var out, rest := Redact(fields, keys).fields, Redact(fields[1..], keys);
    var first := RedactValue(fields[0].value, RuleFor(fields[0].key, keys));
    assert out == (if first.Hidden? then [] else [Field(fields[0].key, first.value)]) + rest.fields;
    LoggedFields(fields[1..], keys);
    if fields[0].key == key {
      assert !HasKey(rest.fields, key) by {
        NotBelow(fields, rest.fields);
      }
      if first.Value? {
        assert out[0].key == key;
      }
    } else {
      HasKeyBehind(fields, key);
      FieldLogged(fields[1..], keys, key);
      if first.Value? {
        HasKeyBehind(out, key);
      }
    }
  }

  lemma HasKeyBehind(fields: seq<Field>, key: string)
    requires fields != [] && fields[0].key != key
    ensures HasKey(fields, key) <==> HasKey(fields[1..], key)
    ensures HasKey(fields, key) ==> Get(fields, key) == Get(fields[1..], key)
  {
    if HasKey(fields, key) {
      var i :| 0 <= i < |fields| && fields[i].key == key;
      assert fields[1..][i - 1].key == key;
    }
    if HasKey(fields[1..], key) {
      var i :| 0 <= i < |fields[1..]| && fields[1..][i].key == key;
      assert fields[i + 1].key == key;
    }
  }

  lemma NotBelow(fields: seq<Field>, rest: seq<Field>)
    requires fields != [] && DistinctKeys(fields) && forall f | f in rest :: HasKey(fields[1..], f.key)
    ensures !HasKey(rest, fields[0].key)
  {
    forall f | f in rest ensures f.key != fields[0].key {
      assert HasKey(fields[1..], f.key);
      var j :| 0 <= j < |fields[1..]| && fields[1..][j].key == f.key;
      assert fields[0].key != fields[j + 1].key;
    }
  }

  lemma {:induction false} ItemLogged(items: seq<Json>, keys: map<string, Allow>, i: nat)
    requires i < |items| && RedactItems(items, keys).Value?
    ensures var out := RedactItems(items, keys).value.items;
            && |out| == |items|
            && if items[i].Dict? then Redact(items[i].fields, keys).Ok? && out[i] == Dict(Redact(items[i].fields, keys).fields)
               else items[i].Null? && out[i] == Dict([])
    decreases items
  {
    ItemsKeepLength(items, keys);
    if i > 0 {
      ItemLogged(items[1..], keys, i - 1);
    }
  }

  lemma {:induction false} ItemsKeepLength(items: seq<Json>, keys: map<string, Allow>)
    requires RedactItems(items, keys).Value?
    ensures |RedactItems(items, keys).value.items| == |items|
    decreases items
  {
    if items != [] {
      ItemsKeepLength(items[1..], keys);
    }
  }

  lemma {:induction false} LoggedBelow(value: Json, rule: Allow, path: Path)
    requires ProperValue(value) && RedactValue(value, rule).Value?
    ensures LoggedAs(value, RedactValue(value, rule).value, rule, path)
    decreases path, 0
  {
    if rule.Keys? && path != [] && ValueAt(value, path).Value? {
      var after := RedactValue(value, rule).value;
      match path[0]
      case AtKey(key) => KeyLoggedBelow(value.fields, rule.keys, key, path[1..], path);
      case AtIndex(i) =>
        ItemLogged(value.items, rule.keys, i);
        assert value.items[i] in value.items;
        assert ValueAt(value, path) == ValueAt(value.items[i], path[1..]);
        assert ValueAt(after, path) == ValueAt(after.items[i], path[1..]);
        if value.items[i].Dict? {
          assert RedactValue(value.items[i], rule) == Value(after.items[i]);
          LoggedBelow(value.items[i], rule, path[1..]);
        }
    }
  }

  lemma {:induction false} KeyLoggedBelow(fields: seq<Field>, keys: map<string, Allow>, key: string, rest: Path, path: Path)
    requires ProperValue(Dict(fields)) && Redact(fields, keys).Ok? && HasKey(fields, key)
    requires path != [] && path[0] == AtKey(key) && rest == path[1..]
    ensures LoggedAs(Dict(fields), Dict(Redact(fields, keys).fields), Keys(keys), path)
    decreases rest, 1
  {
    var rule := RuleFor(key, keys);
    assert FlagAt(Keys(keys), path) == FlagAt(rule, rest);
    assert ValueAt(Dict(fields), path) == ValueAt(Get(fields, key), rest);
    FieldLogged(fields, keys, key);
    var i :| 0 <= i < |fields| && fields[i].key == key;
    GetAt(fields, i);
    assert fields[i] in fields;
    FieldSucceeds(fields, keys, i);
    if RedactValue(Get(fields, key), rule).Value? {
      LoggedBelow(Get(fields, key), rule, rest);
    }
  }

  lemma {:induction false} FieldSucceeds(fields: seq<Field>, keys: map<string, Allow>, i: nat)
    requires i < |fields| && Redact(fields, keys).Ok?
    ensures !RedactValue(fields[i].value, RuleFor(fields[i].key, keys)).Failure?
  {
    if i > 0 {
      FieldSucceeds(fields[1..], keys, i - 1);
    }
  }

  /** Wherever a flag decides about a value, below any dictionaries and lists, the logged body has the
      value at the same place when the flag allows it, and REDACTED there when it does not. */
  lemma EveryFlagIsObeyed(fields: seq<Field>, keys: map<string, Allow>, path: Path)
    requires ProperValue(Dict(fields)) && Redact(fields, keys).Ok?
    ensures LoggedAs(Dict(fields), Dict(Redact(fields, keys).fields), Keys(keys), path)
    ensures Marked(Keys(keys), path) <==> FlagAt(Keys(keys), path) == Decided(true)
  {
    assert RedactValue(Dict(fields), Keys(keys)) == Value(Dict(Redact(fields, keys).fields));
    LoggedBelow(Dict(fields), Keys(keys), path);
    MarkedIsFlagged(Keys(keys), path);
  }

  lemma {:induction false} MarkedIsFlagged(rule: Allow, path: Path)
    ensures Marked(rule, path) <==> FlagAt(rule, path) == Decided(true)
    decreases path
  {
    if rule.Keys? && path != [] {
      match path[0]
      case AtIndex(_) => MarkedIsFlagged(rule, path[1..]);
      case AtKey(key) => MarkedIsFlagged(RuleFor(key, rule.keys), path[1..]);
    }
  }

  /** Logging fails exactly when, under keys, a list has an entry that is neither a dictionary nor
      null. */
  ghost predicate Loggable(fields: seq<Field>, keys: map<string, Allow>)
    decreases fields
  {
    forall i | 0 <= i < |fields| :: LoggableValue(fields[i].value, RuleFor(fields[i].key, keys))
  }

  ghost predicate LoggableValue(value: Json, rule: Allow)
    decreases value
  {
    rule.Keys? ==>
      && (value.Dict? ==> Loggable(value.fields, rule.keys))
      && (value.List? ==>
            forall i | 0 <= i < |value.items| ::
              && (value.items[i].Dict? || value.items[i].Null?)
              && (value.items[i].Dict? ==> Loggable(value.items[i].fields, rule.keys)))
  }

  lemma {:induction false} LoggingFailsOnlyOnOddEntries(fields: seq<Field>, keys: map<string, Allow>)
    ensures Redact(fields, keys).Ok? <==> Loggable(fields, keys)
    decreases fields
  {
    if fields != [] {
      LoggingFailsOnlyOnOddEntries(fields[1..], keys);
      ValueFailsOnlyOnOddEntries(fields[0].value, RuleFor(fields[0].key, keys));
      if Loggable(fields, keys) {
        assert forall i | 0 <= i < |fields[1..]| :: fields[1..][i] == fields[i + 1];
      }
      if Loggable(fields[1..], keys) {
        assert forall i | 1 <= i < |fields| :: fields[i] == fields[1..][i - 1];
      }
    }
  }

  lemma {:induction false} ValueFailsOnlyOnOddEntries(value: Json, rule: Allow)
    ensures !RedactValue(value, rule).Failure? <==> LoggableValue(value, rule)
    decreases value
  {
    if rule.Keys? && value.Dict? {
      LoggingFailsOnlyOnOddEntries(value.fields, rule.keys);
    }
    if rule.Keys? && value.List? {
      ItemsFailOnlyOnOddEntries(value.items, rule.keys);
    }
  }

  lemma {:induction false} ItemsFailOnlyOnOddEntries(items: seq<Json>, keys: map<string, Allow>)
    ensures RedactItems(items, keys).Value? <==>
            forall i | 0 <= i < |items| ::
              && (items[i].Dict? || items[i].Null?)
              && (items[i].Dict? ==> Loggable(items[i].fields, keys))
    decreases items
  {
    if items != [] {
      ItemsFailOnlyOnOddEntries(items[1..], keys);
      if items[0].Dict? {
        LoggingFailsOnlyOnOddEntries(items[0].fields, keys);
      }
      assert forall i | 1 <= i < |items| :: items[i] == items[1..][i - 1];
    }
  }
}

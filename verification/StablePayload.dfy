/** The key under which two observation payloads count as unchanged. */
module StablePayload {
  /** JSON as parsed: the fields of an object come in some order. */
  datatype Json =
    | Null
    | Boolean(truth: bool)
    | Number(number: int)
    | Text(text: string)
    | List(items: seq<Json>)
    | Record(fields: seq<Field>)

  datatype Field = Field(key: string, value: Json)

  /** What a JSON text says, which the order of fields has no part in. */
  datatype Meaning =
    | NullMeaning
    | BooleanMeaning(truth: bool)
    | NumberMeaning(number: int)
    | TextMeaning(text: string)
    | ListMeaning(items: seq<Meaning>)
    | RecordMeaning(fields: map<string, Meaning>)

  predicate IsVolatile(key: string) {
    key == "observedAt" || key == "lastCheckedAt" || key == "latencyMs"
  }

  // ---- Ordering of keys ----

  predicate Less(a: string, b: string) {
    if b == "" then false
    else if a == "" then true
    else if a[0] != b[0] then a[0] < b[0]
    else Less(a[1..], b[1..])
  }

  lemma {:induction false} LessIsTotal(a: string, b: string)
    ensures Less(a, b) || a == b || Less(b, a)
  {
    if a != "" && b != "" && a[0] == b[0] {
      LessIsTotal(a[1..], b[1..]);
      assert a == [a[0]] + a[1..] && b == [b[0]] + b[1..];
    }
  }

  lemma {:induction false} LessIsStrict(a: string, b: string)
    requires Less(a, b)
    ensures a != b && !Less(b, a)
  {
    if a != "" && a[0] == b[0] { LessIsStrict(a[1..], b[1..]); }
  }

  lemma {:induction false} LessIsTransitive(a: string, b: string, c: string)
    requires Less(a, b) && Less(b, c)
    ensures Less(a, c)
  {
    if a != "" && a[0] == b[0] && b[0] == c[0] { LessIsTransitive(a[1..], b[1..], c[1..]); }
  }

  // ---- Entries ----

  ghost predicate HasDistinctKeys(entries: seq<Field>) {
    forall i, j :: 0 <= i < j < |entries| ==> entries[i].key != entries[j].key
  }

  ghost predicate IsSorted(entries: seq<Field>) {
    forall i, j :: 0 <= i < j < |entries| ==> Less(entries[i].key, entries[j].key)
  }

  function Insert(sorted: seq<Field>, entry: Field): seq<Field> {
    if sorted == [] then [entry]
    else if Less(sorted[0].key, entry.key) then [sorted[0]] + Insert(sorted[1..], entry)
    else [entry] + sorted
  }

  function Sort(entries: seq<Field>): seq<Field> {
    if entries == [] then [] else Insert(Sort(entries[1..]), entries[0])
  }

  /** The fields that stay: all of them, or all but the volatile ones. */
  function Keep(entries: seq<Field>, omitVolatile: bool): seq<Field> {
    if entries == [] then []
    else if omitVolatile && IsVolatile(entries[0].key) then Keep(entries[1..], omitVolatile)
    else [entries[0]] + Keep(entries[1..], omitVolatile)
  }

  lemma {:induction false} InsertKeepsSorted(sorted: seq<Field>, entry: Field)
    requires IsSorted(sorted) && forall i :: 0 <= i < |sorted| ==> sorted[i].key != entry.key
    ensures IsSorted(Insert(sorted, entry))
    ensures forall e :: e in Insert(sorted, entry) <==> e in sorted || e == entry
  {
    if sorted == [] {
    } else {
      assert sorted == [sorted[0]] + sorted[1..];
      if Less(sorted[0].key, entry.key) {
        InsertKeepsSorted(sorted[1..], entry);
        var rest := Insert(sorted[1..], entry);
        forall k | 0 <= k < |rest| ensures Less(sorted[0].key, rest[k].key) {
          assert rest[k] in rest;
          if rest[k] != entry { assert rest[k] in sorted[1..]; }
        }
      } else {
        LessIsTotal(sorted[0].key, entry.key);
        forall k | 0 <= k < |sorted| ensures Less(entry.key, sorted[k].key) {
          if k > 0 { LessIsTransitive(entry.key, sorted[0].key, sorted[k].key); }
        }
      }
    }
  }

  lemma {:induction false} SortSorts(entries: seq<Field>)
    requires HasDistinctKeys(entries)
    ensures IsSorted(Sort(entries))
    ensures forall e :: e in Sort(entries) <==> e in entries
  {
    if entries == [] {
    } else {
      SortSorts(entries[1..]);
      var rest := Sort(entries[1..]);
      forall i | 0 <= i < |rest| ensures rest[i].key != entries[0].key {
        assert rest[i] in rest && rest[i] in entries[1..];
      }
      InsertKeepsSorted(rest, entries[0]);
      assert entries == [entries[0]] + entries[1..];
    }
  }

  lemma {:induction false} KeepKeeps(entries: seq<Field>, omitVolatile: bool)
    requires HasDistinctKeys(entries)
    ensures HasDistinctKeys(Keep(entries, omitVolatile))
    ensures forall e :: e in Keep(entries, omitVolatile) <==> e in entries && !(omitVolatile && IsVolatile(e.key))
  {
    if entries == [] {
    } else {
      KeepKeeps(entries[1..], omitVolatile);
      assert entries == [entries[0]] + entries[1..];
      var rest := Keep(entries[1..], omitVolatile);
      forall k | 0 <= k < |rest| ensures rest[k].key != entries[0].key {
        assert rest[k] in rest && rest[k] in entries[1..];
      }
    }
  }

  /** Sorting leaves only one way to list a set of keys. */
  lemma {:induction false} SortedListsAgree(a: seq<Field>, b: seq<Field>)
    requires IsSorted(a) && IsSorted(b)
    requires forall key :: HasKey(a, key) <==> HasKey(b, key)
    ensures |a| == |b| && forall i :: 0 <= i < |a| ==> a[i].key == b[i].key
  {
    if a == [] || b == [] {
      assert a != [] ==> HasKey(a, a[0].key);
      assert b != [] ==> HasKey(b, b[0].key);
    } else {
      FirstKeysAgree(a, b);
      forall key ensures HasKey(a[1..], key) <==> HasKey(b[1..], key) {
        KeyOfTail(a, key);
        KeyOfTail(b, key);
      }
      SortedListsAgree(a[1..], b[1..]);
      assert forall i :: 0 < i < |a| ==> a[i] == a[1..][i - 1];
      assert forall i :: 0 < i < |b| ==> b[i] == b[1..][i - 1];
    }
  }

  ghost predicate HasKey(entries: seq<Field>, key: string) {
    exists i :: 0 <= i < |entries| && entries[i].key == key
  }

  lemma KeyOfTail(a: seq<Field>, key: string)
    requires IsSorted(a) && a != []
    ensures HasKey(a[1..], key) <==> HasKey(a, key) && key != a[0].key
  {
    if HasKey(a[1..], key) {
      var i :| 0 <= i < |a[1..]| && a[1..][i].key == key;
      assert a[i + 1].key == key;
      LessIsStrict(a[0].key, a[i + 1].key);
    }
    if HasKey(a, key) && key != a[0].key {
      var i :| 0 <= i < |a| && a[i].key == key;
      assert a[1..][i - 1].key == key;
    }
  }

  lemma FirstKeysAgree(a: seq<Field>, b: seq<Field>)
    requires IsSorted(a) && IsSorted(b) && a != [] && b != []
    requires forall key :: HasKey(a, key) <==> HasKey(b, key)
    ensures a[0].key == b[0].key
  {
    assert HasKey(a, a[0].key) && HasKey(b, b[0].key);
    var i :| 0 <= i < |b| && b[i].key == a[0].key;
    var j :| 0 <= j < |a| && a[j].key == b[0].key;
    if i > 0 && j > 0 { LessIsStrict(a[0].key, a[j].key); }
  }

  // ---- The normaliser ----

  function NormalizeItems(items: seq<Json>): (r: seq<Json>)
    ensures |r| == |items|
  {
    seq(|items|, i requires 0 <= i < |items| => Normalize(items[i], false))
  }

  function NormalizeValues(fields: seq<Field>): (r: seq<Field>)
    ensures |r| == |fields| && forall i :: 0 <= i < |r| ==> r[i].key == fields[i].key
  {
    seq(|fields|, i requires 0 <= i < |fields| => Field(fields[i].key, Normalize(fields[i].value, false)))
  }

  /** Fields in sorted order, at every depth; the volatile ones dropped at the top of a record only. */
  function Normalize(payload: Json, omitVolatile: bool): Json {
    match payload
    case List(items) => List(NormalizeItems(items))
    case Record(fields) => Record(Sort(Keep(NormalizeValues(fields), omitVolatile)))
    case _ => payload
  }

  /** The text of the normal form is what gets compared; the normal form itself stands for it. */
  function StableKey(payload: Json): Json {
    Normalize(payload, true)
  }

  // ---- Meaning ----

  ghost predicate IsJson(payload: Json) {
    match payload
    case List(items) => forall i :: 0 <= i < |items| ==> IsJson(items[i])
    case Record(fields) => HasDistinctKeys(fields) && forall i :: 0 <= i < |fields| ==> IsJson(fields[i].value)
    case _ => true
  }

  function ToMap(fields: seq<Field>, values: seq<Meaning>): map<string, Meaning>
    requires |values| == |fields|
  {
    if fields == [] then map[]
    else
      var n := |fields| - 1;
      ToMap(fields[..n], values[..n])[fields[n].key := values[n]]
  }

  lemma HasKeyInInitOrLast(fields: seq<Field>, key: string)
    requires fields != []
    ensures HasKey(fields, key) <==> HasKey(fields[..|fields| - 1], key) || fields[|fields| - 1].key == key
  {
    var init := fields[..|fields| - 1];
    assert fields == init + [fields[|fields| - 1]];
    if HasKey(init, key) {
      var i :| 0 <= i < |init| && init[i].key == key;
      assert fields[i].key == key;
    }
  }

  lemma {:induction false} ToMapAssigns(fields: seq<Field>, values: seq<Meaning>)
    requires |values| == |fields| && HasDistinctKeys(fields)
    ensures forall key :: key in ToMap(fields, values) <==> HasKey(fields, key)
    ensures forall i :: 0 <= i < |fields| ==> HasKey(fields, fields[i].key) && ToMap(fields, values)[fields[i].key] == values[i]
  {
    if fields == [] {
    } else {
      var n := |fields| - 1;
      ToMapAssigns(fields[..n], values[..n]);
      forall key ensures key in ToMap(fields, values) <==> HasKey(fields, key) { HasKeyInInitOrLast(fields, key); }
      forall i | 0 <= i < |fields|
        ensures HasKey(fields, fields[i].key) && ToMap(fields, values)[fields[i].key] == values[i]
      {
        if i < n { assert fields[..n][i] == fields[i] && fields[i].key != fields[n].key; }
      }
    }
  }

  ghost function MeaningOf(payload: Json): Meaning
    requires IsJson(payload)
  {
    match payload
    case Null => NullMeaning
    case Boolean(b) => BooleanMeaning(b)
    case Number(n) => NumberMeaning(n)
    case Text(t) => TextMeaning(t)
    case List(items) => ListMeaning(seq(|items|, i requires 0 <= i < |items| => MeaningOf(items[i])))
    case Record(fields) =>
      RecordMeaning(ToMap(fields, seq(|fields|, i requires 0 <= i < |fields| => MeaningOf(fields[i].value))))
  }

  /** The meaning that is compared: volatile fields at the top of a record do not take part. */
  ghost function StableMeaning(payload: Json, omitVolatile: bool): Meaning
    requires IsJson(payload)
  {
    var meaning := MeaningOf(payload);
    if meaning.RecordMeaning? && omitVolatile then
      RecordMeaning(map key | key in meaning.fields && !IsVolatile(key) :: meaning.fields[key])
    else meaning
  }

  ghost predicate IsNormal(payload: Json) {
    match payload
    case List(items) => forall i :: 0 <= i < |items| ==> IsNormal(items[i])
    case Record(fields) => IsSorted(fields) && forall i :: 0 <= i < |fields| ==> IsNormal(fields[i].value)
    case _ => true
  }

  lemma SortedIsDistinct(entries: seq<Field>)
    requires IsSorted(entries)
    ensures HasDistinctKeys(entries)
  {
    forall i, j | 0 <= i < j < |entries| ensures entries[i].key != entries[j].key {
      LessIsStrict(entries[i].key, entries[j].key);
    }
  }

  lemma FieldMeanings(fields: seq<Field>)
    requires IsJson(Record(fields))
    ensures var m := MeaningOf(Record(fields)).fields;
            && (forall key :: key in m <==> HasKey(fields, key))
            && (forall i :: 0 <= i < |fields| ==> HasKey(fields, fields[i].key) && m[fields[i].key] == MeaningOf(fields[i].value))
  {
    ToMapAssigns(fields, seq(|fields|, i requires 0 <= i < |fields| => MeaningOf(fields[i].value)));
  }

  /** Normalising keeps the meaning, apart from what it is told to leave out, and reaches a normal form. */
  lemma {:induction false} NormalizeKeepsMeaning(payload: Json, omitVolatile: bool)
    requires IsJson(payload)
    ensures IsJson(Normalize(payload, omitVolatile)) && IsNormal(Normalize(payload, omitVolatile))
    ensures MeaningOf(Normalize(payload, omitVolatile)) == StableMeaning(payload, omitVolatile)
    decreases payload
  {
    match payload {
      case List(items) =>
        forall i | 0 <= i < |items|
          ensures IsJson(Normalize(items[i], false)) && IsNormal(Normalize(items[i], false)) &&
                  MeaningOf(Normalize(items[i], false)) == MeaningOf(items[i])
        {
          NormalizeKeepsMeaning(items[i], false);
        }
      case Record(fields) =>
        forall i | 0 <= i < |fields|
          ensures IsJson(Normalize(fields[i].value, false)) && IsNormal(Normalize(fields[i].value, false)) &&
                  MeaningOf(Normalize(fields[i].value, false)) == MeaningOf(fields[i].value)
        {
          NormalizeKeepsMeaning(fields[i].value, false);
        }
        RecordKeepsMeaning(fields, omitVolatile);
      case _ =>
    }
  }

  /** The fields of the normal form: those that are kept, each with its value normalised. */
  lemma NormalFields(fields: seq<Field>, omitVolatile: bool) returns (sorted: seq<Field>)
    requires HasDistinctKeys(fields)
    ensures Normalize(Record(fields), omitVolatile) == Record(sorted)
    ensures IsSorted(sorted) && HasDistinctKeys(sorted)
    ensures forall k :: 0 <= k < |sorted| ==> ComesFrom(fields, omitVolatile, sorted[k])
    ensures forall i :: 0 <= i < |fields| && !(omitVolatile && IsVolatile(fields[i].key)) ==>
              GoesTo(fields, omitVolatile, i, sorted)
  {
    var values := NormalizeValues(fields);
    var kept := Keep(values, omitVolatile);
    KeepKeeps(values, omitVolatile);
    SortSorts(kept);
    sorted := Sort(kept);
    SortedIsDistinct(sorted);
    forall k | 0 <= k < |sorted|
      ensures ComesFrom(fields, omitVolatile, sorted[k])
    {
      assert sorted[k] in sorted && sorted[k] in kept && sorted[k] in values;
      var i :| 0 <= i < |values| && values[i] == sorted[k];
      assert IsNormalField(fields, omitVolatile, i, sorted[k]);
    }
    forall i | 0 <= i < |fields| && !(omitVolatile && IsVolatile(fields[i].key))
      ensures GoesTo(fields, omitVolatile, i, sorted)
    {
      assert values[i] in values && values[i] in kept && values[i] in sorted;
      var k :| 0 <= k < |sorted| && sorted[k] == values[i];
      assert IsNormalField(fields, omitVolatile, i, sorted[k]);
    }
  }

  ghost predicate ComesFrom(fields: seq<Field>, omitVolatile: bool, entry: Field) {
    exists i :: 0 <= i < |fields| && IsNormalField(fields, omitVolatile, i, entry)
  }

  ghost predicate GoesTo(fields: seq<Field>, omitVolatile: bool, i: nat, sorted: seq<Field>)
    requires i < |fields|
  {
    exists k :: 0 <= k < |sorted| && IsNormalField(fields, omitVolatile, i, sorted[k])
  }

  predicate IsNormalField(fields: seq<Field>, omitVolatile: bool, i: nat, entry: Field)
    requires i < |fields|
  {
    entry == Field(fields[i].key, Normalize(fields[i].value, false)) && !(omitVolatile && IsVolatile(entry.key))
  }

  ghost predicate ValuesKeepMeaning(fields: seq<Field>)
    requires IsJson(Record(fields))
  {
    forall i :: 0 <= i < |fields| ==>
      var value := Normalize(fields[i].value, false);
      IsJson(value) && IsNormal(value) && MeaningOf(value) == MeaningOf(fields[i].value)
  }

  lemma NormalFieldsAreNormal(fields: seq<Field>, omitVolatile: bool, sorted: seq<Field>)
    requires IsJson(Record(fields)) && ValuesKeepMeaning(fields) && IsSorted(sorted) && HasDistinctKeys(sorted)
    requires forall k :: 0 <= k < |sorted| ==> ComesFrom(fields, omitVolatile, sorted[k])
    ensures IsJson(Record(sorted)) && IsNormal(Record(sorted))
  {
  }

  lemma FieldsOfTheNormalForm(fields: seq<Field>, omitVolatile: bool, sorted: seq<Field>, key: string)
    requires IsJson(Record(fields)) && ValuesKeepMeaning(fields) && IsJson(Record(sorted))
    requires forall k :: 0 <= k < |sorted| ==> ComesFrom(fields, omitVolatile, sorted[k])
    requires forall i :: 0 <= i < |fields| && !(omitVolatile && IsVolatile(fields[i].key)) ==>
               GoesTo(fields, omitVolatile, i, sorted)
    ensures var m, n := MeaningOf(Record(sorted)).fields, MeaningOf(Record(fields)).fields;
            && (key in m <==> key in n && !(omitVolatile && IsVolatile(key)))
            && (key in m ==> m[key] == n[key])
  {
    FieldMeanings(sorted);
    FieldMeanings(fields);
    if HasKey(sorted, key) {
      var k :| 0 <= k < |sorted| && sorted[k].key == key;
      assert ComesFrom(fields, omitVolatile, sorted[k]);
    }
    if HasKey(fields, key) && !(omitVolatile && IsVolatile(key)) {
      var i :| 0 <= i < |fields| && fields[i].key == key;
      assert GoesTo(fields, omitVolatile, i, sorted);
    }
  }

  lemma {:induction false} NormalFormKeepsFields(fields: seq<Field>, omitVolatile: bool, sorted: seq<Field>)
    requires IsJson(Record(fields)) && ValuesKeepMeaning(fields) && IsJson(Record(sorted))
    requires forall k :: 0 <= k < |sorted| ==> ComesFrom(fields, omitVolatile, sorted[k])
    requires forall i :: 0 <= i < |fields| && !(omitVolatile && IsVolatile(fields[i].key)) ==>
               GoesTo(fields, omitVolatile, i, sorted)
    ensures MeaningOf(Record(sorted)) == StableMeaning(Record(fields), omitVolatile)
  {
    var m, n := MeaningOf(Record(sorted)).fields, StableMeaning(Record(fields), omitVolatile).fields;
    forall key ensures (key in m <==> key in n) && (key in m ==> m[key] == n[key]) {
      FieldsOfTheNormalForm(fields, omitVolatile, sorted, key);
    }
    assert m == n;
  }

  lemma {:induction false} RecordKeepsMeaning(fields: seq<Field>, omitVolatile: bool)
    requires IsJson(Record(fields)) && ValuesKeepMeaning(fields)
    ensures var r := Normalize(Record(fields), omitVolatile);
            IsJson(r) && IsNormal(r) && MeaningOf(r) == StableMeaning(Record(fields), omitVolatile)
  {
    var sorted := NormalFields(fields, omitVolatile);
    NormalFieldsAreNormal(fields, omitVolatile, sorted);
    NormalFormKeepsFields(fields, omitVolatile, sorted);
  }

  /** Normal forms are canonical: one for each meaning. */
  lemma {:induction false} NormalFormsAreCanonical(a: Json, b: Json)
    requires IsJson(a) && IsJson(b) && IsNormal(a) && IsNormal(b) && MeaningOf(a) == MeaningOf(b)
    ensures a == b
    decreases a
  {
    match a {
      case List(items) =>
        var m, n := MeaningOf(a).items, MeaningOf(b).items;
        forall i | 0 <= i < |items| ensures items[i] == b.items[i] {
          assert m[i] == n[i];
          NormalFormsAreCanonical(items[i], b.items[i]);
        }
        assert items == b.items;
      case Record(fields) =>
        FieldMeanings(fields);
        FieldMeanings(b.fields);
        SortedListsAgree(fields, b.fields);
        forall i | 0 <= i < |fields| ensures fields[i] == b.fields[i] {
          assert HasKey(fields, fields[i].key);
          NormalFormsAreCanonical(fields[i].value, b.fields[i].value);
        }
        assert fields == b.fields;
      case _ =>
    }
  }

  /**
   * Two payloads count as unchanged exactly when they say the same, whatever the order of their fields, apart
   * from the volatile fields at the top of a record; the same names deeper down, or in a list, still count.
   */
  lemma SameKeyIffSameStableMeaning(a: Json, b: Json)
    requires IsJson(a) && IsJson(b)
    ensures StableKey(a) == StableKey(b) <==> StableMeaning(a, true) == StableMeaning(b, true)
  {
    NormalizeKeepsMeaning(a, true);
    NormalizeKeepsMeaning(b, true);
    if StableMeaning(a, true) == StableMeaning(b, true) {
      NormalFormsAreCanonical(StableKey(a), StableKey(b));
    }
  }

  /** The same but for when and how fast it was observed. */
  ghost predicate AgreeButForTimes(m: map<string, Meaning>, n: map<string, Meaning>) {
    forall key :: key != "observedAt" && key != "lastCheckedAt" && key != "latencyMs" ==>
      (key in m <==> key in n) && (key in m ==> m[key] == n[key])
  }

  lemma {:induction false} StableFieldsAgreeIff(m: map<string, Meaning>, n: map<string, Meaning>)
    ensures (map key | key in m && !IsVolatile(key) :: m[key]) == (map key | key in n && !IsVolatile(key) :: n[key]) <==>
            AgreeButForTimes(m, n)
  {
    var a, b := map key | key in m && !IsVolatile(key) :: m[key], map key | key in n && !IsVolatile(key) :: n[key];
    if a == b {
      forall key | !IsVolatile(key) ensures (key in m <==> key in n) && (key in m ==> m[key] == n[key]) {
        assert key in a <==> key in b;
        if key in m { assert a[key] == m[key] && b[key] == n[key]; }
      }
    }
  }

  /** Two records share a key exactly if they say the same, apart from when and how fast they were observed. */
  lemma {:induction false} RecordsShareAKeyIff(a: seq<Field>, b: seq<Field>)
    requires IsJson(Record(a)) && IsJson(Record(b))
    ensures StableKey(Record(a)) == StableKey(Record(b)) <==>
            AgreeButForTimes(MeaningOf(Record(a)).fields, MeaningOf(Record(b)).fields)
  {
    SameKeyIffSameStableMeaning(Record(a), Record(b));
    StableFieldsAgreeIff(MeaningOf(Record(a)).fields, MeaningOf(Record(b)).fields);
  }
}

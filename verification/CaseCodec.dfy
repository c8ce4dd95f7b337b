/**
 * The identifier codec between the program's camelCase and the database's snake_case, and its lifting to
 * the keys of nested records. Strings are ASCII.
 */
module CaseCodec {

  predicate IsUpper(c: char) {
    'A' <= c <= 'Z'
  }

  predicate IsLower(c: char) {
    'a' <= c <= 'z'
  }

  predicate IsSeparator(c: char) {
    c == '-' || c == '_'
  }

  ghost predicate IsAscii(s: string) {
    forall i :: 0 <= i < |s| ==> s[i] as int < 128
  }

  function LowerChar(c: char): (l: char)
    ensures !IsUpper(l)
    ensures l as int == if 'A' <= c <= 'Z' then c as int + 32 else c as int
  {
    if IsUpper(c) then c - 'A' + 'a' else c
  }

  function UpperChar(c: char): (u: char)
    ensures u as int == if 'a' <= c <= 'z' then c as int - 32 else c as int
  {
    if IsLower(c) then c - 'a' + 'A' else c
  }

  function ToLowerCase(s: string): string {
    seq(|s|, i requires 0 <= i < |s| => LowerChar(s[i]))
  }

  /** Every pair of a separator and a lower-case letter becomes the upper-case letter. */
  function JoinPairs(s: string): string {
    if s == "" then ""
    else if |s| >= 2 && IsSeparator(s[0]) && IsLower(s[1]) then [UpperChar(s[1])] + JoinPairs(s[2..])
    else [s[0]] + JoinPairs(s[1..])
  }

  function SnakeCaseToCamelCase(s: string): string {
    JoinPairs(ToLowerCase(s))
  }

  function CamelCaseToSnakeCase(s: string): string {
    if s == "" then ""
    else (if IsUpper(s[0]) then ['_', LowerChar(s[0])] else [s[0]]) + CamelCaseToSnakeCase(s[1..])
  }

  /** No separator is immediately followed by a lower-case letter. */
  ghost predicate HasNoPair(s: string) {
    forall i :: 0 <= i < |s| - 1 && (s[i] == '-' || s[i] == '_') ==> !('a' <= s[i + 1] <= 'z')
  }

  lemma {:induction false} SnakeIsLower(s: string)
    ensures ToLowerCase(CamelCaseToSnakeCase(s)) == CamelCaseToSnakeCase(s)
  {
    if s != "" {
      var head := if IsUpper(s[0]) then ['_', LowerChar(s[0])] else [s[0]];
      SnakeIsLower(s[1..]);
      assert ToLowerCase(CamelCaseToSnakeCase(s)) == ToLowerCase(head) + ToLowerCase(CamelCaseToSnakeCase(s[1..]));
    }
  }

  lemma PairFirst(s: string)
    requires s != ""
    ensures HasNoPair(s) <==>
            HasNoPair(s[1..]) && !(|s| >= 2 && IsSeparator(s[0]) && IsLower(s[1]))
  {
    if HasNoPair(s[1..]) && !(|s| >= 2 && IsSeparator(s[0]) && IsLower(s[1])) {
      forall i | 0 <= i < |s| - 1 && IsSeparator(s[i]) ensures !IsLower(s[i + 1]) {
        if i > 0 {
          assert s[1..][i - 1] == s[i] && s[1..][i] == s[i + 1];
        }
      }
    }
    if HasNoPair(s) {
      forall i | 0 <= i < |s[1..]| - 1 && IsSeparator(s[1..][i]) ensures !IsLower(s[1..][i + 1]) {
        assert s[1..][i] == s[i + 1] && s[1..][i + 1] == s[i + 2];
      }
    }
  }

  lemma {:induction false} JoinSnake(s: string)
    ensures JoinPairs(CamelCaseToSnakeCase(s)) == s <==> HasNoPair(s)
  {
    if s != "" {
      var snake, rest := CamelCaseToSnakeCase(s), CamelCaseToSnakeCase(s[1..]);
      PairFirst(s);
      JoinSnake(s[1..]);
      if IsUpper(s[0]) {
        assert snake[2..] == rest;
        assert JoinPairs(snake) == [s[0]] + JoinPairs(rest);
      } else if |s| >= 2 && IsSeparator(s[0]) && IsLower(s[1]) {
        assert rest[0] == s[1] && snake[1] == s[1];
        assert JoinPairs(snake)[0] != s[0];
      } else {
        assert snake[1..] == rest;
        FirstOfSnake(s[1..]);
        assert JoinPairs(snake) == [s[0]] + JoinPairs(rest);
      }
      assert s == [s[0]] + s[1..];
    }
  }

  lemma FirstOfSnake(s: string)
    ensures s != "" ==> CamelCaseToSnakeCase(s) != "" && (IsLower(CamelCaseToSnakeCase(s)[0]) <==> IsLower(s[0]))
    ensures s == "" ==> CamelCaseToSnakeCase(s) == ""
  {
  }

  /** A camelCase name survives the database exactly when it has no separator before a lower-case letter. */
  lemma {:induction false} CamelRoundTrip(s: string)
    requires IsAscii(s)
    ensures SnakeCaseToCamelCase(CamelCaseToSnakeCase(s)) == s <==> HasNoPair(s)
  {
    SnakeIsLower(s);
    JoinSnake(s);
  }

  // The other direction

  /** Lower case throughout, and no dash is immediately followed by a letter. */
  ghost predicate IsSnake(s: string) {
    && (forall i :: 0 <= i < |s| ==> !('A' <= s[i] <= 'Z'))
    && forall i :: 0 <= i < |s| - 1 && s[i] == '-' ==> !('a' <= s[i + 1] <= 'z')
  }

  lemma {:induction false} SnakeHasNoUpper(s: string)
    ensures forall i :: 0 <= i < |CamelCaseToSnakeCase(s)| ==> !IsUpper(CamelCaseToSnakeCase(s)[i])
  {
    if s != "" {
      SnakeHasNoUpper(s[1..]);
    }
  }

  ghost predicate DashFree(s: string) {
    forall i :: 0 <= i < |s| - 1 && s[i] == '-' ==> !IsLower(s[i + 1])
  }

  lemma DashFirst(s: string, n: nat)
    requires 1 <= n <= |s| && n <= 2
    requires n == 2 ==> s[1] != '-'
    ensures DashFree(s) <==>
            DashFree(s[n..]) && !(|s| >= 2 && s[0] == '-' && IsLower(s[1]))
  {
    if DashFree(s[n..]) && !(|s| >= 2 && s[0] == '-' && IsLower(s[1])) {
      forall i | 0 <= i < |s| - 1 && s[i] == '-' ensures !IsLower(s[i + 1]) {
        if i >= n {
          assert s[n..][i - n] == s[i] && s[n..][i + 1 - n] == s[i + 1];
        }
      }
    }
    if DashFree(s) {
      forall i | 0 <= i < |s[n..]| - 1 && s[n..][i] == '-' ensures !IsLower(s[n..][i + 1]) {
        assert s[n..][i] == s[i + n] && s[n..][i + 1] == s[i + n + 1];
      }
    }
  }

  lemma SnakeOfJoined(c: char, s: string)
    ensures CamelCaseToSnakeCase([c] + s) ==
            (if IsUpper(c) then ['_', LowerChar(c)] else [c]) + CamelCaseToSnakeCase(s)
  {
    assert ([c] + s)[1..] == s;
  }

  lemma {:induction false} SnakeJoin(s: string)
    requires forall i :: 0 <= i < |s| ==> !IsUpper(s[i])
    ensures CamelCaseToSnakeCase(JoinPairs(s)) == s <==> DashFree(s)
  {
    if s == "" {
      return;
    }
    if |s| >= 2 && IsSeparator(s[0]) && IsLower(s[1]) {
      DashFirst(s, 2);
      SnakeJoin(s[2..]);
      SnakeOfJoined(UpperChar(s[1]), JoinPairs(s[2..]));
      assert LowerChar(UpperChar(s[1])) == s[1];
      assert s == [s[0], s[1]] + s[2..];
    } else {
      DashFirst(s, 1);
      SnakeJoin(s[1..]);
      SnakeOfJoined(s[0], JoinPairs(s[1..]));
      assert s == [s[0]] + s[1..];
    }
  }

  /** A column name survives the program exactly when it is lower case and has no dash before a letter. */
  lemma {:induction false} SnakeRoundTrip(s: string)
    requires IsAscii(s)
    ensures CamelCaseToSnakeCase(SnakeCaseToCamelCase(s)) == s <==> IsSnake(s)
  {
    SnakeHasNoUpper(SnakeCaseToCamelCase(s));
    if forall i :: 0 <= i < |s| ==> !IsUpper(s[i]) {
      assert ToLowerCase(s) == s;
      SnakeJoin(s);
    }
  }

  /** What character i of s becomes: lower case, with an underscore in place of a dash before a letter. */
  ghost predicate IsNormalAt(s: string, i: nat, c: char)
    requires i < |s|
  {
    if s[i] == '-' && i + 1 < |s| && ('a' <= s[i + 1] <= 'z' || 'A' <= s[i + 1] <= 'Z') then c == '_'
    else c as int == if 'A' <= s[i] <= 'Z' then s[i] as int + 32 else s[i] as int
  }

  ghost predicate IsNormalOf(s: string, u: string) {
    |u| == |s| && forall i :: 0 <= i < |s| ==> IsNormalAt(s, i, u[i])
  }

  lemma NormalOfPair(s: string, u: string)
    requires |s| >= 2 && IsSeparator(s[0]) && IsLower(s[1]) && IsNormalOf(s[2..], u)
    ensures IsNormalOf(s, ['_', s[1]] + u)
  {
    var v := ['_', s[1]] + u;
    forall i | 2 <= i < |s| ensures IsNormalAt(s, i, v[i]) {
      assert IsNormalAt(s[2..], i - 2, u[i - 2]) && v[i] == u[i - 2] && s[i] == s[2..][i - 2];
    }
  }

  lemma NormalOfOther(s: string, u: string)
    requires s != "" && !IsUpper(s[0]) && !(|s| >= 2 && IsSeparator(s[0]) && (IsLower(s[1]) || IsUpper(s[1])))
    requires IsNormalOf(s[1..], u)
    ensures IsNormalOf(s, [s[0]] + u)
  {
    var v := [s[0]] + u;
    forall i | 1 <= i < |s| ensures IsNormalAt(s, i, v[i]) {
      assert IsNormalAt(s[1..], i - 1, u[i - 1]) && v[i] == u[i - 1] && s[i] == s[1..][i - 1];
    }
  }

  lemma NoPairAfter(c: char, s: string)
    requires HasNoPair(s) && (s != "" && IsLower(s[0]) ==> !IsSeparator(c))
    ensures HasNoPair([c] + s)
  {
    assert ([c] + s)[1..] == s;
    PairFirst([c] + s);
  }

  lemma {:induction false} JoinedIsNormal(s: string)
    requires forall i :: 0 <= i < |s| ==> !IsUpper(s[i])
    ensures HasNoPair(JoinPairs(s)) && IsNormalOf(s, CamelCaseToSnakeCase(JoinPairs(s)))
    ensures s != "" ==> JoinPairs(s) != "" && (IsLower(JoinPairs(s)[0]) ==> IsLower(s[0]))
  {
    hide HasNoPair, IsNormalOf;
    if s == "" {
      NothingIsNormal();
    } else if |s| >= 2 && IsSeparator(s[0]) && IsLower(s[1]) {
      var rest := JoinPairs(s[2..]);
      JoinedIsNormal(s[2..]);
      SnakeOfJoined(UpperChar(s[1]), rest);
      assert LowerChar(UpperChar(s[1])) == s[1];
      NormalOfPair(s, CamelCaseToSnakeCase(rest));
      NoPairAfter(UpperChar(s[1]), rest);
    } else {
      var rest := JoinPairs(s[1..]);
      JoinedIsNormal(s[1..]);
      SnakeOfJoined(s[0], rest);
      NormalOfOther(s, CamelCaseToSnakeCase(rest));
      NoPairAfter(s[0], rest);
    }
  }

  lemma NothingIsNormal()
    ensures HasNoPair("") && IsNormalOf("", "")
  {
  }

  /**
   * What decoding gives for any name at all: the one name without pairs that is encoded as the normal form of
   * s. By CamelRoundTrip there is no other.
   */
  lemma {:induction false} DecodedIsNormal(s: string)
    ensures HasNoPair(SnakeCaseToCamelCase(s))
    ensures IsNormalOf(s, CamelCaseToSnakeCase(SnakeCaseToCamelCase(s)))
  {
    var lower, u := ToLowerCase(s), CamelCaseToSnakeCase(SnakeCaseToCamelCase(s));
    JoinedIsNormal(lower);
    forall i | 0 <= i < |s| ensures IsNormalAt(s, i, u[i]) {
      assert IsNormalAt(lower, i, u[i]);
      assert lower[i] == LowerChar(s[i]);
      assert i + 1 < |s| ==> lower[i + 1] == LowerChar(s[i + 1]);
    }
  }

  // Nested records

  datatype Field = Field(key: string, value: Json)

  /** Leaf: everything that is left as it is, namely other primitives, undefined, null and dates. */
  datatype Json = Leaf(id: int) | Array(items: seq<Json>) | Object(fields: seq<Field>)

  /** Writing a property: an existing key keeps its place. */
  function Put(fields: seq<Field>, key: string, value: Json): (r: seq<Field>)
    ensures |fields| <= |r| <= |fields| + 1
  {
    if fields == [] then [Field(key, value)]
    else if fields[0].key == key then [Field(key, value)] + fields[1..]
    else [fields[0]] + Put(fields[1..], key, value)
  }

  /** r is `fields` with the value of one property set, at its place or, when it is new, at the end. */
  ghost predicate IsWritten(fields: seq<Field>, r: seq<Field>, key: string, value: Json) {
    && |fields| <= |r| <= |fields| + 1
    && (forall i :: 0 <= i < |fields| ==> r[i] == if fields[i].key == key then Field(key, value) else fields[i])
    && (|r| == |fields| <==> exists i :: 0 <= i < |fields| && fields[i].key == key)
    && (|r| > |fields| ==> r[|fields|] == Field(key, value))
  }

  lemma WrittenLater(first: Field, fields: seq<Field>, r: seq<Field>, key: string, value: Json)
    requires first.key != key && IsWritten(fields, r, key, value)
    ensures IsWritten([first] + fields, [first] + r, key, value)
  {
    if |r| == |fields| {
      var k :| 0 <= k < |fields| && fields[k].key == key;
      assert ([first] + fields)[k + 1].key == key;
    }
  }

  lemma WrittenFirst(fields: seq<Field>, key: string, value: Json)
    requires fields != [] && fields[0].key == key && DistinctKeys(fields)
    ensures IsWritten(fields, [Field(key, value)] + fields[1..], key, value)
  {
    assert fields[0].key == key;
  }

  lemma WrittenAtEnd(key: string, value: Json)
    ensures IsWritten([], [Field(key, value)], key, value)
  {
  }

  /** Writing a property leaves every other property and the order of the keys alone. */
  lemma {:induction false} PutWrites(fields: seq<Field>, key: string, value: Json)
    requires DistinctKeys(fields)
    ensures IsWritten(fields, Put(fields, key, value), key, value)
  {
    hide IsWritten;
    if fields == [] {
      WrittenAtEnd(key, value);
    } else if fields[0].key == key {
      WrittenFirst(fields, key, value);
    } else {
      PutWrites(fields[1..], key, value);
      WrittenLater(fields[0], fields[1..], Put(fields[1..], key, value), key, value);
      assert [fields[0]] + fields[1..] == fields;
    }
  }

  lemma WrittenIsDistinct(fields: seq<Field>, r: seq<Field>, key: string, value: Json)
    requires DistinctKeys(fields) && IsWritten(fields, r, key, value)
    ensures DistinctKeys(r)
    ensures exists i :: 0 <= i < |r| && r[i].key == key
  {
    if |r| == |fields| {
      var k :| 0 <= k < |fields| && fields[k].key == key;
      assert r[k].key == key;
    } else {
      assert r[|fields|].key == key;
    }
  }

  function ObjectToCamelCase(j: Json): Json
    decreases j, 1, 0
  {
    match j
    case Leaf(_) => j
    case Array(items) => Array(seq(|items|, i requires 0 <= i < |items| => ObjectToCamelCase(items[i])))
    case Object(fields) => Object(Decoded(j, |fields|))
  }

  /** The result of the first n steps over the keys. */
  function Decoded(j: Json, n: nat): (r: seq<Field>)
    requires j.Object? && n <= |j.fields|
    ensures |r| <= n
    decreases j, 0, n
  {
    if n == 0 then []
    else
      var field := j.fields[n - 1];
      Put(Decoded(j, n - 1), SnakeCaseToCamelCase(field.key), ObjectToCamelCase(field.value))
  }

  /** The same record with the database's names. */
  function SnakeKeys(j: Json): (r: Json)
    ensures j.Leaf? ==> r == j
    ensures j.Array? ==> r.Array? && |r.items| == |j.items|
    ensures j.Object? ==> r.Object? && |r.fields| == |j.fields|
  {
    match j
    case Leaf(_) => j
    case Array(items) => Array(seq(|items|, i requires 0 <= i < |items| => SnakeKeys(items[i])))
    case Object(fields) =>
      Object(seq(|fields|, i requires 0 <= i < |fields| =>
        Field(CamelCaseToSnakeCase(fields[i].key), SnakeKeys(fields[i].value))))
  }

  ghost predicate DistinctKeys(fields: seq<Field>) {
    forall i, k :: 0 <= i < k < |fields| ==> fields[i].key != fields[k].key
  }

  /** What every record is: its keys differ from one another, at every depth. Keys are ASCII here. */
  ghost predicate WellFormed(j: Json) {
    match j
    case Leaf(_) => true
    case Array(items) => forall i :: 0 <= i < |items| ==> WellFormed(items[i])
    case Object(fields) =>
      && DistinctKeys(fields)
      && forall i :: 0 <= i < |fields| ==> IsAscii(fields[i].key) && WellFormed(fields[i].value)
  }

  /** No key, at any depth, has a separator before a lower-case letter. Alphanumeric keys never do. */
  ghost predicate HasNoPairs(j: Json) {
    match j
    case Leaf(_) => true
    case Array(items) => forall i :: 0 <= i < |items| ==> HasNoPairs(items[i])
    case Object(fields) => forall i :: 0 <= i < |fields| ==> HasNoPair(fields[i].key) && HasNoPairs(fields[i].value)
  }

  lemma {:induction false} PutAppends(fields: seq<Field>, key: string, value: Json)
    ensures |Put(fields, key, value)| > |fields| <==> forall i :: 0 <= i < |fields| ==> fields[i].key != key
    ensures |Put(fields, key, value)| > |fields| ==> Put(fields, key, value) == fields + [Field(key, value)]
  {
    if fields != [] {
      PutAppends(fields[1..], key, value);
      assert fields == [fields[0]] + fields[1..];
      if forall i :: 0 <= i < |fields[1..]| ==> fields[1..][i].key != key {
        assert forall i :: 1 <= i < |fields| ==> fields[i].key != key by {
          assert forall i :: 1 <= i < |fields| ==> fields[i] == fields[1..][i - 1];
        }
      }
    }
  }

  lemma PutLast(fields: seq<Field>, n: nat)
    requires DistinctKeys(fields) && 0 < n <= |fields|
    ensures Put(fields[..n - 1], fields[n - 1].key, fields[n - 1].value) == fields[..n]
  {
    hide Put;
    PutAppends(fields[..n - 1], fields[n - 1].key, fields[n - 1].value);
  }

  /** The value of a decoded key is that of the last of the first n fields with this decoded name. */
  ghost predicate IsLast(j: Json, n: nat, field: Field)
    requires j.Object? && n <= |j.fields|
  {
    exists k :: 0 <= k < n
      && field == Field(SnakeCaseToCamelCase(j.fields[k].key), ObjectToCamelCase(j.fields[k].value))
      && forall l :: k < l < n ==> SnakeCaseToCamelCase(j.fields[l].key) != field.key
  }

  lemma LastIsKept(j: Json, n: nat, field: Field)
    requires j.Object? && n < |j.fields| && IsLast(j, n, field)
    requires SnakeCaseToCamelCase(j.fields[n].key) != field.key
    ensures IsLast(j, n + 1, field)
  {
    hide SnakeCaseToCamelCase, ObjectToCamelCase;
    var k :| 0 <= k < n
      && field == Field(SnakeCaseToCamelCase(j.fields[k].key), ObjectToCamelCase(j.fields[k].value))
      && forall l :: k < l < n ==> SnakeCaseToCamelCase(j.fields[l].key) != field.key;
    assert forall l :: k < l < n + 1 ==> SnakeCaseToCamelCase(j.fields[l].key) != field.key;
  }

  lemma NewIsLast(j: Json, n: nat)
    requires j.Object? && n < |j.fields|
    ensures IsLast(j, n + 1, Field(SnakeCaseToCamelCase(j.fields[n].key), ObjectToCamelCase(j.fields[n].value)))
  {
    hide SnakeCaseToCamelCase, ObjectToCamelCase;
  }

  /** Every record decodes to one with distinct keys, in which the last of colliding keys has won. */
  lemma {:induction false} LastKeyWins(j: Json, n: nat)
    requires j.Object? && n <= |j.fields|
    ensures DistinctKeys(Decoded(j, n))
    ensures forall i :: 0 <= i < |Decoded(j, n)| ==> IsLast(j, n, Decoded(j, n)[i])
    ensures forall k :: 0 <= k < n ==>
              exists i :: 0 <= i < |Decoded(j, n)| && Decoded(j, n)[i].key == SnakeCaseToCamelCase(j.fields[k].key)
    decreases n
  {
    hide Put, IsLast, SnakeCaseToCamelCase, ObjectToCamelCase;
    if n > 0 {
      var before, after, field := Decoded(j, n - 1), Decoded(j, n), j.fields[n - 1];
      var key, value := SnakeCaseToCamelCase(field.key), ObjectToCamelCase(field.value);
      LastKeyWins(j, n - 1);
      PutWrites(before, key, value);
      WrittenIsDistinct(before, after, key, value);
      NewIsLast(j, n - 1);
      forall i | 0 <= i < |after| ensures IsLast(j, n, after[i]) {
        if after[i] != Field(key, value) {
          LastIsKept(j, n - 1, before[i]);
        }
      }
      forall k | 0 <= k < n
        ensures exists i :: 0 <= i < |after| && after[i].key == SnakeCaseToCamelCase(j.fields[k].key)
      {
        if k < n - 1 {
          var i :| 0 <= i < |before| && before[i].key == SnakeCaseToCamelCase(j.fields[k].key);
          assert after[i].key == before[i].key;
        }
      }
    }
  }

  /** Field i after encoding and decoding. */
  function Returned(j: Json, i: nat): Field
    requires j.Object? && i < |j.fields|
  {
    Field(SnakeCaseToCamelCase(CamelCaseToSnakeCase(j.fields[i].key)), ObjectToCamelCase(SnakeKeys(j.fields[i].value)))
  }

  lemma DecodedStep(j: Json, n: nat)
    requires j.Object? && 0 < n <= |j.fields|
    ensures var field := Returned(j, n - 1);
            Decoded(SnakeKeys(j), n) == Put(Decoded(SnakeKeys(j), n - 1), field.key, field.value)
  {
  }

  /** When no two keys collide, every field is decoded on its own. */
  lemma {:induction false} DecodedFields(j: Json, n: nat)
    requires j.Object? && n <= |j.fields| && |Decoded(SnakeKeys(j), n)| == n
    ensures forall i :: 0 <= i < n ==> Decoded(SnakeKeys(j), n)[i] == Returned(j, i)
  {
    hide Decoded, Put, SnakeKeys, Returned;
    if n > 0 {
      var field := Returned(j, n - 1);
      DecodedStep(j, n);
      PutAppends(Decoded(SnakeKeys(j), n - 1), field.key, field.value);
      DecodedFields(j, n - 1);
    }
  }

  lemma {:induction false} DecodedAll(j: Json, n: nat)
    requires j.Object? && n <= |j.fields| && DistinctKeys(j.fields)
    requires forall i :: 0 <= i < n ==> Returned(j, i) == j.fields[i]
    ensures Decoded(SnakeKeys(j), n) == j.fields[..n]
  {
    if n > 0 {
      hide *;
      DecodedAll(j, n - 1);
      DecodedStep(j, n);
      PutLast(j.fields, n);
    }
  }

  lemma ObjectReturns(j: Json)
    requires j.Object? && DistinctKeys(j.fields)
    ensures ObjectToCamelCase(SnakeKeys(j)) == j <==>
            forall i :: 0 <= i < |j.fields| ==> Returned(j, i) == j.fields[i]
  {
    hide Decoded, SnakeKeys, Returned;
    var n := |j.fields|;
    assert ObjectToCamelCase(SnakeKeys(j)) == Object(Decoded(SnakeKeys(j), n));
    if forall i :: 0 <= i < n ==> Returned(j, i) == j.fields[i] {
      DecodedAll(j, n);
      assert j.fields[..n] == j.fields;
    }
    if Decoded(SnakeKeys(j), n) == j.fields {
      DecodedFields(j, n);
    }
  }

  lemma ArrayReturns(j: Json)
    requires j.Array?
    ensures ObjectToCamelCase(SnakeKeys(j)) == j <==>
            forall i :: 0 <= i < |j.items| ==> ObjectToCamelCase(SnakeKeys(j.items[i])) == j.items[i]
  {
    var r := ObjectToCamelCase(SnakeKeys(j)).items;
    assert |r| == |j.items|;
    assert forall i :: 0 <= i < |r| ==> r[i] == ObjectToCamelCase(SnakeKeys(j.items[i]));
    assert j == Array(j.items);
  }

  /** A nested record written with the database's names and decoded is the original, for these keys exactly. */
  lemma {:induction false} RecordRoundTrip(j: Json)
    requires WellFormed(j)
    ensures ObjectToCamelCase(SnakeKeys(j)) == j <==> HasNoPairs(j)
  {
    match j
    case Leaf(_) =>
    case Array(items) =>
      forall i | 0 <= i < |items|
        ensures ObjectToCamelCase(SnakeKeys(items[i])) == items[i] <==> HasNoPairs(items[i])
      {
        RecordRoundTrip(items[i]);
      }
      ArrayReturns(j);
    case Object(fields) =>
      forall i | 0 <= i < |fields|
        ensures Returned(j, i) == fields[i] <==> HasNoPair(fields[i].key) && HasNoPairs(fields[i].value)
      {
        RecordRoundTrip(fields[i].value);
        CamelRoundTrip(fields[i].key);
      }
      ObjectReturns(j);
  }

  lemma {:induction false} SnakeIsAscii(s: string)
    requires IsAscii(s)
    ensures IsAscii(CamelCaseToSnakeCase(s))
  {
    if s != "" {
      SnakeIsAscii(s[1..]);
    }
  }

  /** No two such keys collide under the database's names. */
  lemma {:induction false} KeysDoNotCollide(j: Json)
    requires WellFormed(j) && HasNoPairs(j)
    ensures WellFormed(SnakeKeys(j))
  {
    match j
    case Leaf(_) =>
    case Array(items) =>
      forall i | 0 <= i < |items| ensures WellFormed(SnakeKeys(items[i])) {
        KeysDoNotCollide(items[i]);
      }
    case Object(fields) =>
      forall i | 0 <= i < |fields|
        ensures IsAscii(CamelCaseToSnakeCase(fields[i].key)) && WellFormed(SnakeKeys(fields[i].value))
        ensures SnakeCaseToCamelCase(CamelCaseToSnakeCase(fields[i].key)) == fields[i].key
      {
        KeysDoNotCollide(fields[i].value);
        SnakeIsAscii(fields[i].key);
        CamelRoundTrip(fields[i].key);
      }
  }
}

/** The counting of the statistics dashboard (static/js/statistics.js):
    aggregateData, which counts the values of one field over all user
    records, and aggregateInstalledPlugins, which counts the plugin names
    listed in each record's comma-separated plugin string.

    Both build a plain JavaScript object by `acc[k] = (acc[k] || 0) + 1`.
    Here that object is a map from property key to count; see Counts. */
module Histogram {
  import opened JsString

  /** A field value of a user record as the page receives it: the JSON the
      server renders from an SQLite row holds text, numbers and null. */
  datatype FieldValue = Text(s: string) | Number(n: int) | Null

  /** One user record: field name to value. */
  type UserRecord = map<string, FieldValue>

  /** `user[field]`; a field that is not there reads as undefined, which
      behaves like null everywhere in the script. */
  function Get(u: UserRecord, field: string): FieldValue {
    if field in u then u[field] else Null
  }

  /** JavaScript truthiness: the empty string, 0, null and undefined are falsy. */
  predicate Truthy(v: FieldValue) {
    match v
    case Text(s) => s != ""
    case Number(n) => n != 0
    case Null => false
  }

  /** The decimal digits of n, as Number.prototype.toString writes them. */
  function NatToDecimal(n: nat): (r: string)
    ensures r != []
    ensures forall i :: 0 <= i < |r| ==> '0' <= r[i] <= '9'
    ensures r[0] == '0' ==> n == 0
  {
    if n < 10 then [('0' as int + n) as char]
    else NatToDecimal(n / 10) + [('0' as int + n % 10) as char]
  }

  /** The property key `acc[value]` uses: a string stands for itself, a
      number for its decimal form. */
  function PropertyKey(v: FieldValue): (k: string)
    ensures v.Number? ==> k != [] && (k[0] == '-' <==> v.n < 0)
  {
    match v
    case Text(s) => s
    case Number(n) => if n < 0 then "-" + NatToDecimal(-n) else NatToDecimal(n)
    case Null => "null"
  }

  /** A truthy value never has the empty string as its key. */
  lemma TruthyKeyNonEmpty(v: FieldValue)
    requires Truthy(v)
    ensures PropertyKey(v) != ""
  {
  }

  /** `(acc[k] || 0)`: the count so far, 0 for a key not seen yet. */
  function CountOf(acc: map<string, nat>, k: string): nat {
    if k in acc then acc[k] else 0
  }

  /** The object acc becomes when `acc[k] = (acc[k] || 0) + 1` runs once
      per key, in order. */
  function Extend(acc: map<string, nat>, keys: seq<string>): map<string, nat>
    decreases |keys|
  {
    if keys == [] then acc
    else
      var before := Extend(acc, keys[..|keys| - 1]);
      var k := keys[|keys| - 1];
      before[k := CountOf(before, k) + 1]
  }

  /** The counts of a sequence of keys, starting from the empty object `{}`. */
  function Counts(keys: seq<string>): map<string, nat> {
    Extend(map[], keys)
  }

  lemma ExtendSnoc(acc: map<string, nat>, keys: seq<string>, k: string)
    ensures Extend(acc, keys + [k]) == Extend(acc, keys)[k := CountOf(Extend(acc, keys), k) + 1]
  {
    assert (keys + [k])[..|keys|] == keys;
  }

  /** Counting two runs of keys one after the other is counting them joined. */
  lemma {:induction false} ExtendAppend(acc: map<string, nat>, a: seq<string>, b: seq<string>)
    ensures Extend(acc, a + b) == Extend(Extend(acc, a), b)
    decreases |b|
  {
    if b == [] {
      assert a + b == a;
    } else {
      var pre, k := b[..|b| - 1], b[|b| - 1];
      ExtendAppend(acc, a, pre);
      assert a + b == (a + pre) + [k];
      ExtendSnoc(acc, a + pre, k);
      ExtendSnoc(Extend(acc, a), pre, k);
      assert b == pre + [k];
    }
  }

  /** The counting object holds exactly the keys seen, each with the number
      of times it was seen. */
  lemma {:induction false} CountsAreMultiplicities(keys: seq<string>)
    ensures forall k :: k in Counts(keys) <==> k in keys
    ensures forall k :: CountOf(Counts(keys), k) == multiset(keys)[k]
    decreases |keys|
  {
    if keys != [] {
      var pre, last := keys[..|keys| - 1], keys[|keys| - 1];
      assert keys == pre + [last];
      CountsAreMultiplicities(pre);
      assert multiset(keys) == multiset(pre) + multiset{last};
    }
  }

  /** The sum of the counts of a counting object. */
  ghost function Total(acc: map<string, nat>): nat
    decreases acc.Keys
  {
    if acc == map[] then 0
    else
      var k :| k in acc;
      acc[k] + Total(acc - {k})
  }

  lemma {:induction false} TotalRemove(acc: map<string, nat>, k: string)
    requires k in acc
    ensures Total(acc) == acc[k] + Total(acc - {k})
    decreases acc.Keys
  {
    var j :| j in acc && Total(acc) == acc[j] + Total(acc - {j});
    if j != k {
      TotalRemove(acc - {j}, k);
      TotalRemove(acc - {k}, j);
      assert acc - {j} - {k} == acc - {k} - {j};
    }
  }

  /** Every count step adds exactly one to the sum of the counts. */
  lemma {:induction false} TotalCounts(keys: seq<string>)
    ensures Total(Counts(keys)) == |keys|
    decreases |keys|
  {
    if keys != [] {
      var pre, k := keys[..|keys| - 1], keys[|keys| - 1];
      var acc := Counts(pre);
      var next := acc[k := CountOf(acc, k) + 1];
      TotalCounts(pre);
      TotalRemove(next, k);
      if k in acc {
        TotalRemove(acc, k);
        assert next - {k} == acc - {k};
      } else {
        assert next - {k} == acc;
      }
    }
  }

  // ---------------------------------------------------------------------
  // aggregateData

  /** The keys aggregateData counts for one field: the property key of each
      truthy value, in record order. */
  function FieldKeys(users: seq<UserRecord>, field: string): seq<string>
    decreases |users|
  {
    if users == [] then []
    else
      var v := Get(users[|users| - 1], field);
      FieldKeys(users[..|users| - 1], field) + (if Truthy(v) then [PropertyKey(v)] else [])
  }

  lemma FieldKeysSnoc(users: seq<UserRecord>, field: string, i: nat)
    requires i < |users|
    ensures FieldKeys(users[..i + 1], field) == FieldKeys(users[..i], field) +
              (if Truthy(Get(users[i], field)) then [PropertyKey(Get(users[i], field))] else [])
  {
    assert users[..i + 1][..i] == users[..i];
  }

  /** How many records have a truthy value of the field that coerces to key k. */
  function CountKey(users: seq<UserRecord>, field: string, k: string): nat
    decreases |users|
  {
    if users == [] then 0
    else
      var v := Get(users[|users| - 1], field);
      CountKey(users[..|users| - 1], field, k) + (if Truthy(v) && PropertyKey(v) == k then 1 else 0)
  }

  /** How many records have a truthy value of the field. */
  function TruthyCount(users: seq<UserRecord>, field: string): nat
    decreases |users|
  {
    if users == [] then 0
    else TruthyCount(users[..|users| - 1], field) + (if Truthy(Get(users[|users| - 1], field)) then 1 else 0)
  }

  /** Some record has a truthy value of the field that coerces to key k. */
  predicate Carries(users: seq<UserRecord>, field: string, k: string) {
    exists i :: 0 <= i < |users| && Truthy(Get(users[i], field)) && PropertyKey(Get(users[i], field)) == k
  }

  lemma {:induction false} FieldKeysCount(users: seq<UserRecord>, field: string)
    ensures |FieldKeys(users, field)| == TruthyCount(users, field)
    ensures forall k :: multiset(FieldKeys(users, field))[k] == CountKey(users, field, k)
    decreases |users|
  {
    if users != [] {
      FieldKeysCount(users[..|users| - 1], field);
    }
  }

  lemma {:induction false} CountKeyPositive(users: seq<UserRecord>, field: string, k: string)
    ensures CountKey(users, field, k) > 0 <==> Carries(users, field, k)
    decreases |users|
  {
    if users != [] {
      var pre := users[..|users| - 1];
      CountKeyPositive(pre, field, k);
      if Carries(pre, field, k) {
        var i :| 0 <= i < |pre| && Truthy(Get(pre[i], field)) && PropertyKey(Get(pre[i], field)) == k;
        assert users[i] == pre[i];
      }
      if Carries(users, field, k) && !Carries(pre, field, k) {
        var i :| 0 <= i < |users| && Truthy(Get(users[i], field)) && PropertyKey(Get(users[i], field)) == k;
      }
    }
  }

  /** What aggregateData promises: its keys are exactly the keys of the
      truthy values of the field, each counted once per record carrying it;
      the empty string is never a key (falsy values are skipped); and the
      counts add up to the number of records whose field is truthy. */
  lemma AggregateDataCounts(users: seq<UserRecord>, field: string)
    ensures forall k :: k in Counts(FieldKeys(users, field)) <==> Carries(users, field, k)
    ensures forall k :: k in Counts(FieldKeys(users, field)) ==>
              Counts(FieldKeys(users, field))[k] == CountKey(users, field, k)
    ensures "" !in Counts(FieldKeys(users, field))
    ensures Total(Counts(FieldKeys(users, field))) == TruthyCount(users, field)
  {
    var keys := FieldKeys(users, field);
    CountsAreMultiplicities(keys);
    FieldKeysCount(users, field);
    TotalCounts(keys);
    forall k ensures k in Counts(keys) <==> Carries(users, field, k) {
      CountKeyPositive(users, field, k);
      assert k in keys <==> multiset(keys)[k] > 0;
    }
  }

  /** aggregateData(userInfo, key): one pass over the records, counting each
      truthy value of the field under its property key. */
  method AggregateData(users: seq<UserRecord>, field: string) returns (acc: map<string, nat>)
    ensures acc == Counts(FieldKeys(users, field))
    ensures forall k :: k in acc <==> Carries(users, field, k)
    ensures forall k :: k in acc ==> acc[k] == CountKey(users, field, k)
  {
    acc := map[];
    var i := 0;
    while i < |users|
      invariant 0 <= i <= |users|
      invariant acc == Counts(FieldKeys(users[..i], field))
    {
      var value := Get(users[i], field);
      FieldKeysSnoc(users, field, i);
      if Truthy(value) {
        var k := PropertyKey(value);
        ExtendSnoc(map[], FieldKeys(users[..i], field), k);
        acc := acc[k := CountOf(acc, k) + 1];
      } else {
        assert FieldKeys(users[..i], field) + [] == FieldKeys(users[..i], field);
      }
      i := i + 1;
    }
    assert users[..i] == users;
    AggregateDataCounts(users, field);
  }

  // ---------------------------------------------------------------------
  // aggregateInstalledPlugins

  const PluginsField := "installed_plugins"

  /** Every piece trimmed, in order (`pieces.map(p => p.trim())`). */
  function TrimAll(pieces: seq<string>): (r: seq<string>)
    ensures |r| == |pieces|
    decreases |pieces|
  {
    if pieces == [] then [] else TrimAll(pieces[..|pieces| - 1]) + [Trim(pieces[|pieces| - 1])]
  }

  lemma {:induction false} TrimAllAt(pieces: seq<string>, i: nat)
    requires i < |pieces|
    ensures TrimAll(pieces)[i] == Trim(pieces[i])
    decreases |pieces|
  {
    if i < |pieces| - 1 {
      TrimAllAt(pieces[..|pieces| - 1], i);
    }
  }

  /** `s.split(',')` with `.trim()` applied to each piece. */
  function Tokens(s: string): (tokens: seq<string>)
    ensures |tokens| >= 1
  {
    TrimAll(Split(s, ','))
  }

  /** The script calls `.split` on every truthy plugin value, so it needs
      those values to be strings (the server stores a joined string there). */
  predicate PluginsAreText(users: seq<UserRecord>) {
    forall i :: 0 <= i < |users| ==> !Get(users[i], PluginsField).Number?
  }

  /** The tokens one record contributes: none when its plugin string is
      falsy, otherwise every trimmed piece, empty ones included. */
  function RecordTokens(u: UserRecord): seq<string>
    requires !Get(u, PluginsField).Number?
  {
    var v := Get(u, PluginsField);
    if Truthy(v) then Tokens(v.s) else []
  }

  /** All tokens aggregateInstalledPlugins counts, record by record. */
  function PluginTokens(users: seq<UserRecord>): seq<string>
    requires PluginsAreText(users)
    decreases |users|
  {
    if users == [] then []
    else PluginTokens(users[..|users| - 1]) + RecordTokens(users[|users| - 1])
  }

  lemma PluginTokensSnoc(users: seq<UserRecord>, i: nat)
    requires PluginsAreText(users) && i < |users|
    ensures PluginsAreText(users[..i]) && PluginsAreText(users[..i + 1])
    ensures PluginTokens(users[..i + 1]) == PluginTokens(users[..i]) + RecordTokens(users[i])
  {
    assert users[..i + 1][..i] == users[..i];
  }

  /** What aggregateInstalledPlugins promises: its keys are exactly the
      tokens met, and each count is the number of occurrences of that token
      over all records, repeats within one record included. */
  lemma PluginCounts(users: seq<UserRecord>)
    requires PluginsAreText(users)
    ensures forall k :: k in Counts(PluginTokens(users)) <==> k in PluginTokens(users)
    ensures forall k :: k in Counts(PluginTokens(users)) ==>
              Counts(PluginTokens(users))[k] == multiset(PluginTokens(users))[k]
    ensures Total(Counts(PluginTokens(users))) == |PluginTokens(users)|
  {
    CountsAreMultiplicities(PluginTokens(users));
    TotalCounts(PluginTokens(users));
  }

  /** The `forEach` over one record's pieces: each trimmed piece is counted
      on top of what acc0 already holds. */
  method CountPieces(acc0: map<string, nat>, pieces: seq<string>) returns (acc: map<string, nat>)
    ensures acc == Extend(acc0, TrimAll(pieces))
  {
    acc := acc0;
    var j := 0;
    while j < |pieces|
      invariant 0 <= j <= |pieces|
      invariant acc == Extend(acc0, TrimAll(pieces[..j]))
    {
      var trimmed := Trim(pieces[j]);
      assert pieces[..j + 1][..j] == pieces[..j];
      ExtendSnoc(acc0, TrimAll(pieces[..j]), trimmed);
      acc := acc[trimmed := CountOf(acc, trimmed) + 1];
      j := j + 1;
    }
    assert pieces[..j] == pieces;
  }

  /** aggregateInstalledPlugins(userInfo): for each record with a truthy
      plugin string, split it on commas, trim each piece and count it. */
  method AggregateInstalledPlugins(users: seq<UserRecord>) returns (acc: map<string, nat>)
    requires PluginsAreText(users)
    ensures acc == Counts(PluginTokens(users))
    ensures forall k :: k in acc <==> k in PluginTokens(users)
    ensures forall k :: k in acc ==> acc[k] == multiset(PluginTokens(users))[k]
  {
    acc := map[];
    var i := 0;
    while i < |users|
      invariant 0 <= i <= |users|
      invariant acc == Counts(PluginTokens(users[..i]))
    {
      PluginTokensSnoc(users, i);
      var value := Get(users[i], PluginsField);
      if Truthy(value) {
        acc := CountPieces(acc, Split(value.s, ','));
        ExtendAppend(map[], PluginTokens(users[..i]), RecordTokens(users[i]));
      } else {
        assert PluginTokens(users[..i]) + [] == PluginTokens(users[..i]);
      }
      i := i + 1;
    }
    assert users[..i] == users;
    PluginCounts(users);
  }

  /** A plugin string that is empty or missing adds nothing. */
  lemma FalsyPluginsContributeNothing(users: seq<UserRecord>, u: UserRecord)
    requires PluginsAreText(users)
    requires !Truthy(Get(u, PluginsField)) && !Get(u, PluginsField).Number?
    ensures PluginsAreText(users + [u])
    ensures Counts(PluginTokens(users + [u])) == Counts(PluginTokens(users))
  {
    assert (users + [u])[..|users|] == users;
    assert (users + [u])[|users|] == u;
    assert PluginTokens(users) + [] == PluginTokens(users);
  }

  /** The plugin histogram is empty exactly when no record has a non-empty
      plugin string: a non-empty string always yields at least one token. */
  lemma {:induction false} PluginTokensEmptyIff(users: seq<UserRecord>)
    requires PluginsAreText(users)
    ensures PluginTokens(users) == [] <==> forall i :: 0 <= i < |users| ==> !Truthy(Get(users[i], PluginsField))
    decreases |users|
  {
    if users != [] {
      var pre := users[..|users| - 1];
      PluginTokensEmptyIff(pre);
      assert forall i :: 0 <= i < |pre| ==> pre[i] == users[i];
    }
  }

  lemma TrimAllCons(p: string, ps: seq<string>)
    ensures TrimAll([p] + ps) == [Trim(p)] + TrimAll(ps)
  {
    var l, r := TrimAll([p] + ps), [Trim(p)] + TrimAll(ps);
    forall i | 0 <= i < |l| ensures l[i] == r[i] {
      TrimAllAt([p] + ps, i);
      if i > 0 {
        TrimAllAt(ps, i - 1);
      }
    }
  }

  /** Generalises PluginListRoundTrip to a joined list with white space in
      front, which is what every piece after the first looks like. */
  lemma {:induction false} TokensOfJoin(ws: string, names: seq<string>)
    requires AllWhiteSpace(ws)
    requires |names| >= 1
    requires forall i :: 0 <= i < |names| ==> ',' !in names[i] && IsTrimmed(names[i])
    ensures Tokens(ws + Join(names, ", ")) == names
    decreases |names|
  {
    assert !IsWhiteSpace(',');
    assert ',' !in ws;
    var first := ws + names[0];
    assert ',' !in first;
    TrimPadded(ws, names[0], []);
    assert first + [] == first;
    if |names| == 1 {
      assert Split(first, ',') == [first];
      assert TrimAll([first]) == TrimAll([]) + [Trim(first)];
    } else {
      var rest := names[1..];
      var tail := " " + Join(rest, ", ");
      assert ws + Join(names, ", ") == first + [','] + tail;
      SplitCons(first, ',', tail);
      TrimAllCons(first, Split(tail, ','));
      TokensOfJoin(" ", rest);
      assert names == [names[0]] + rest;
    }
  }

  /** The server stores a plugin list as the names joined with ", "
      (app.py:107). For names that hold no comma and no surrounding white
      space, splitting on commas and trimming gives the list back, in order. */
  lemma PluginListRoundTrip(names: seq<string>)
    requires |names| >= 1
    requires forall i :: 0 <= i < |names| ==> ',' !in names[i] && IsTrimmed(names[i])
    ensures Tokens(Join(names, ", ")) == names
  {
    TokensOfJoin([], names);
    assert [] + Join(names, ", ") == Join(names, ", ");
  }

  lemma CountsExample()
    ensures Counts(["A", "B", "B"]) == map["A" := 1, "B" := 2]
    ensures Counts(["A", ""]) == map["A" := 1, "" := 1]
    ensures Counts(["A", "A"]) == map["A" := 2]
  {
    assert ["A", "B", "B"][..2] == ["A", "B"];
    assert ["A", "B"][..1] == ["A"] && ["A", ""][..1] == ["A"] && ["A", "A"][..1] == ["A"];
    assert ["A"][..0] == [];
  }

  lemma PluginTokensPair(u1: UserRecord, u2: UserRecord)
    requires !Get(u1, PluginsField).Number? && !Get(u2, PluginsField).Number?
    ensures PluginsAreText([u1, u2])
    ensures PluginTokens([u1, u2]) == RecordTokens(u1) + RecordTokens(u2)
  {
    assert [u1, u2][..1] == [u1] && [u1][..0] == [];
    assert PluginTokens([u1]) == [] + RecordTokens(u1) == RecordTokens(u1);
  }

  lemma TokensExample()
    ensures Tokens("A, B") == ["A", "B"]
    ensures Tokens("B") == ["B"]
  {
    assert Join(["A", "B"], ", ") == "A, B";
    PluginListRoundTrip(["A", "B"]);
    assert Join(["B"], ", ") == "B";
    PluginListRoundTrip(["B"]);
  }

  /** The source's own example: records with plugin strings "A, B" and "B"
      count A once and B twice. */
  lemma PluginExample()
    ensures Counts(PluginTokens([map[PluginsField := Text("A, B")], map[PluginsField := Text("B")]]))
            == map["A" := 1, "B" := 2]
  {
    var u1: UserRecord := map[PluginsField := Text("A, B")];
    var u2: UserRecord := map[PluginsField := Text("B")];
    TokensExample();
    assert RecordTokens(u1) == ["A", "B"];
    assert RecordTokens(u2) == ["B"];
    PluginTokensPair(u1, u2);
    assert ["A", "B"] + ["B"] == ["A", "B", "B"];
    CountsExample();
  }

  lemma PluginTokensSingle(u: UserRecord)
    requires !Get(u, PluginsField).Number?
    ensures PluginsAreText([u])
    ensures PluginTokens([u]) == RecordTokens(u)
  {
    assert [u][..0] == [];
    assert PluginTokens([u]) == [] + RecordTokens(u);
  }

  /** A trailing comma yields an empty token, which is counted under the
      empty-string key. */
  lemma TrailingCommaCounted()
    ensures Counts(PluginTokens([map[PluginsField := Text("A,")]])) == map["A" := 1, "" := 1]
  {
    var u: UserRecord := map[PluginsField := Text("A,")];
    SplitCons("A", ',', "");
    assert "A" + [','] + "" == "A,";
    assert Tokens("A,") == ["A", ""] by {
      TrimAllCons("A", [""]);
      assert TrimAll([""]) == TrimAll([]) + [Trim("")];
      TrimPadded([], "A", []);
      assert [] + "A" + [] == "A";
    }
    PluginTokensSingle(u);
    CountsExample();
  }

  /** A name repeated in one record counts twice. */
  lemma RepeatedNameCounted()
    ensures Counts(PluginTokens([map[PluginsField := Text("A, A")]])) == map["A" := 2]
  {
    var u: UserRecord := map[PluginsField := Text("A, A")];
    assert Join(["A", "A"], ", ") == "A, A";
    PluginListRoundTrip(["A", "A"]);
    PluginTokensSingle(u);
    CountsExample();
  }
}

/** Merging environments when an image is committed: `pybox/image/commit.py`. */
module EnvironmentMerge {
  import opened Sequences
  import opened Strings

  /** An entry taken apart at its first equals sign; without one, the value is empty. */
  function Key(entry: string): string {
    if '=' in entry then entry[..Index(entry, '=')] else entry
  }

  function Value(entry: string): string {
    if '=' in entry then entry[Index(entry, '=') + 1..] else ""
  }

  function Entry(key: string, value: string): string {
    key + "=" + value
  }

  lemma EntryParts(key: string, value: string)
    requires '=' !in key
    ensures Key(Entry(key, value)) == key && Value(Entry(key, value)) == value
  {
    var e := Entry(key, value);
    assert e[..|key|] == key && e[|key| + 1..] == value;
    IndexIs(e, '=', |key|);
  }

  /** An entry is rebuilt from its parts exactly when it has an equals sign; otherwise one is added. */
  lemma EntryRebuilt(entry: string)
    ensures Entry(Key(entry), Value(entry)) == entry <==> '=' in entry
    ensures '=' !in entry ==> Entry(Key(entry), Value(entry)) == entry + "="
    ensures '=' !in Key(entry)
  {
    if '=' in entry {
      CutAt(entry, Index(entry, '='));
    } else {
      assert Entry(entry, "")[|entry|] == '=';
    }
  }

  // ---------------------------------------------------------------------------------------
  // The dictionary

  /** A dictionary that remembers in which order its keys came in. */
  datatype Env = Env(order: seq<string>, values: map<string, string>)

  const EMPTY := Env([], map[])

  ghost predicate Valid(env: Env) {
    && Distinct(env.order)
    && (forall k :: k in env.order <==> k in env.values)
    && (forall k :: k in env.order ==> '=' !in k)
  }

  /** Assigning to a key that is present keeps its place. */
  function Put(env: Env, key: string, value: string): Env {
    Env(if key in env.values then env.order else env.order + [key], env.values[key := value])
  }

  function Extend(env: Env, entries: seq<string>): Env
    decreases |entries|
  {
    if entries == [] then env else
      var last := entries[|entries| - 1];
      Put(Extend(env, entries[..|entries| - 1]), Key(last), Value(last))
  }

  function Listed(env: Env): seq<string>
    requires forall k :: k in env.order ==> k in env.values
  {
    seq(|env.order|, i requires 0 <= i < |env.order| => Entry(env.order[i], env.values[env.order[i]]))
  }

  lemma PutValid(env: Env, key: string, value: string)
    requires Valid(env) && '=' !in key
    ensures Valid(Put(env, key, value))
  {
    if key !in env.values {
      DistinctConcat(env.order, [key]);
    }
  }

  lemma {:induction false} ExtendValid(env: Env, entries: seq<string>)
    requires Valid(env)
    ensures Valid(Extend(env, entries))
    decreases |entries|
  {
    if entries != [] {
      var last := entries[|entries| - 1];
      ExtendValid(env, entries[..|entries| - 1]);
      PutValid(Extend(env, entries[..|entries| - 1]), Key(last), Value(last));
    }
  }

  lemma EmptyValid()
    ensures Valid(EMPTY)
  {
  }

  /** A list of entries passed through one dictionary. */
  function Normal(entries: seq<string>): seq<string> {
    EmptyValid();
    ExtendValid(EMPTY, entries);
    Listed(Extend(EMPTY, entries))
  }

  /** The merge of two lists: all entries of the first, then those of the second. */
  function Merged(base: seq<string>, override: seq<string>): seq<string> {
    Normal(base + override)
  }

  method ListEntries(env: Env) returns (r: seq<string>)
    requires forall k :: k in env.order ==> k in env.values
    ensures r == Listed(env)
  {
    r := [];
    for i := 0 to |env.order|
      invariant r == Listed(env)[..i]
    {
      r := r + [Entry(env.order[i], env.values[env.order[i]])];
    }
  }

  method MergeEnv(base: seq<string>, override: seq<string>) returns (r: seq<string>)
    ensures r == Merged(base, override)
  {
    var env := EMPTY;
    var entries := base + override;
    for i := 0 to |entries|
      invariant env == Extend(EMPTY, entries[..i])
    {
      assert entries[..i + 1][..i] == entries[..i];
      env := Put(env, Key(entries[i]), Value(entries[i]));
    }
    assert entries[..|entries|] == entries;
    EmptyValid();
    ExtendValid(EMPTY, entries);
    r := ListEntries(env);
  }

  // ---------------------------------------------------------------------------------------
  // What the merge contains, in terms of the entries

  predicate Mentions(entries: seq<string>, key: string) {
    exists i :: 0 <= i < |entries| && Key(entries[i]) == key
  }

  predicate FirstAt(entries: seq<string>, key: string, i: int) {
    0 <= i < |entries| && Key(entries[i]) == key && forall j :: 0 <= j < i ==> Key(entries[j]) != key
  }

  predicate LastAt(entries: seq<string>, key: string, i: int) {
    0 <= i < |entries| && Key(entries[i]) == key && forall j :: i < j < |entries| ==> Key(entries[j]) != key
  }

  /** The dictionary holds the keys mentioned. */
  lemma {:induction false} HoldsMentioned(entries: seq<string>, key: string)
    ensures key in Extend(EMPTY, entries).values <==> Mentions(entries, key)
    decreases |entries|
  {
    if entries != [] {
      HoldsMentioned(entries[..|entries| - 1], key);
      MentionedBefore(entries, key);
    }
  }

  /** A key has the value of its last mention. */
  lemma {:induction false} LastMention(entries: seq<string>, key: string, i: nat)
    requires LastAt(entries, key, i)
    ensures var values := Extend(EMPTY, entries).values;
            key in values && values[key] == Value(entries[i])
    decreases |entries|
  {
    if i < |entries| - 1 {
      assert entries[..|entries| - 1][i] == entries[i];
      LastMention(entries[..|entries| - 1], key, i);
    }
  }

  lemma MentionedBefore(entries: seq<string>, key: string)
    requires entries != []
    ensures Mentions(entries, key)
            <==> Key(entries[|entries| - 1]) == key || Mentions(entries[..|entries| - 1], key)
  {
    var init := entries[..|entries| - 1];
    if Mentions(entries, key) {
      var i :| 0 <= i < |entries| && Key(entries[i]) == key;
      assert i < |init| ==> Key(init[i]) == key;
    }
    if Mentions(init, key) {
      var i :| 0 <= i < |init| && Key(init[i]) == key;
      assert Key(entries[i]) == key;
    }
  }

  /** Keys are in the order of their first mention. */
  lemma {:induction false} FirstMention(entries: seq<string>, a: nat, b: nat, i: nat, j: nat)
    requires a < b < |Extend(EMPTY, entries).order|
    requires FirstAt(entries, Extend(EMPTY, entries).order[a], i)
    requires FirstAt(entries, Extend(EMPTY, entries).order[b], j)
    ensures i < j
    decreases |entries|
  {
    if entries != [] {
      var init := entries[..|entries| - 1];
      var before, after := Extend(EMPTY, init).order, Extend(EMPTY, entries).order;
      EmptyValid();
      ExtendValid(EMPTY, init);
      FirstInInit(entries, after[a], i);
      FirstInInit(entries, after[b], j);
      HoldsMentioned(init, after[a]);
      HoldsMentioned(init, after[b]);
      assert before[a] in before;
      if b < |before| {
        assert before[b] in before;
        FirstMention(init, a, b, i, j);
      }
    }
  }

  /** A key first mentioned by the last entry is not mentioned before it. */
  lemma FirstInInit(entries: seq<string>, key: string, i: nat)
    requires FirstAt(entries, key, i)
    ensures var init := entries[..|entries| - 1];
            if Mentions(init, key) then FirstAt(init, key, i) else i == |entries| - 1
  {
    var init := entries[..|entries| - 1];
    if Mentions(init, key) {
      var j :| 0 <= j < |init| && Key(init[j]) == key;
      assert Key(entries[j]) == key;
      assert i <= j;
    } else if i < |init| {
      assert Key(init[i]) == key;
    }
  }

  lemma KeysOfListed(env: Env)
    requires Valid(env)
    ensures |Listed(env)| == |env.order|
    ensures forall i :: 0 <= i < |env.order| ==>
              Key(Listed(env)[i]) == env.order[i] && Value(Listed(env)[i]) == env.values[env.order[i]]
  {
    forall i | 0 <= i < |env.order|
      ensures Key(Listed(env)[i]) == env.order[i] && Value(Listed(env)[i]) == env.values[env.order[i]]
    {
      assert env.order[i] in env.order;
      EntryParts(env.order[i], env.values[env.order[i]]);
    }
  }

  lemma NormalKeys(entries: seq<string>)
    ensures var r := Normal(entries);
            && (forall key :: Mentions(r, key) <==> Mentions(entries, key))
            && (forall a, b :: 0 <= a < b < |r| ==> Key(r[a]) != Key(r[b]))
  {
    var r, env := Normal(entries), Extend(EMPTY, entries);
    EmptyValid();
    ExtendValid(EMPTY, entries);
    KeysOfListed(env);
    forall key ensures Mentions(r, key) <==> Mentions(entries, key) {
      HoldsMentioned(entries, key);
      if key in env.order {
        var i :| 0 <= i < |env.order| && env.order[i] == key;
        assert Key(r[i]) == key;
      }
      if Mentions(r, key) {
        var i :| 0 <= i < |r| && Key(r[i]) == key;
        assert env.order[i] in env.order;
      }
    }
  }

  lemma NormalOrder(entries: seq<string>, a: nat, b: nat, i: nat, j: nat)
    requires a < b < |Normal(entries)|
    requires FirstAt(entries, Key(Normal(entries)[a]), i) && FirstAt(entries, Key(Normal(entries)[b]), j)
    ensures i < j
  {
    EmptyValid();
    ExtendValid(EMPTY, entries);
    KeysOfListed(Extend(EMPTY, entries));
    FirstMention(entries, a, b, i, j);
  }

  lemma NormalValues(entries: seq<string>, a: nat, i: nat)
    requires a < |Normal(entries)| && LastAt(entries, Key(Normal(entries)[a]), i)
    ensures Value(Normal(entries)[a]) == Value(entries[i])
  {
    EmptyValid();
    ExtendValid(EMPTY, entries);
    KeysOfListed(Extend(EMPTY, entries));
    LastMention(entries, Key(Normal(entries)[a]), i);
  }

  /** The merged list mentions every key of its inputs once, in the order of first mention over both lists,
  with the value last mentioned. */
  lemma MergedExactly(base: seq<string>, override: seq<string>)
    ensures var r, all := Merged(base, override), base + override;
            && (forall key :: Mentions(r, key) <==> Mentions(all, key))
            && (forall a, b :: 0 <= a < b < |r| ==> Key(r[a]) != Key(r[b]))
            && (forall a, b, i, j :: (0 <= a < b < |r| && FirstAt(all, Key(r[a]), i) && FirstAt(all, Key(r[b]), j))
                  ==> i < j)
            && (forall a, i :: 0 <= a < |r| && LastAt(all, Key(r[a]), i) ==> Value(r[a]) == Value(all[i]))
  {
    var r, all := Merged(base, override), base + override;
    NormalKeys(all);
    forall a, b, i, j | 0 <= a < b < |r| && FirstAt(all, Key(r[a]), i) && FirstAt(all, Key(r[b]), j) ensures i < j {
      NormalOrder(all, a, b, i, j);
    }
    forall a, i | 0 <= a < |r| && LastAt(all, Key(r[a]), i) ensures Value(r[a]) == Value(all[i]) {
      NormalValues(all, a, i);
    }
  }

  /** The override wins. */
  lemma OverrideWins(base: seq<string>, override: seq<string>, a: nat, i: nat)
    requires a < |Merged(base, override)| && LastAt(override, Key(Merged(base, override)[a]), i)
    ensures Value(Merged(base, override)[a]) == Value(override[i])
  {
    var key := Key(Merged(base, override)[a]);
    var all := base + override;
    assert all[|base| + i] == override[i];
    forall j | |base| + i < j < |all| ensures Key(all[j]) != key {
      assert all[j] == override[j - |base|];
    }
    NormalValues(all, a, |base| + i);
  }

  // ---------------------------------------------------------------------------------------
  // Algebra

  lemma PutAgain(env: Env, key: string, u: string, v: string)
    ensures Put(Put(env, key, u), key, v) == Put(env, key, v)
  {
    assert env.values[key := u][key := v] == env.values[key := v];
  }

  lemma PutSwap(env: Env, key: string, v: string, other: string, w: string)
    requires key in env.values && key != other
    ensures Put(Put(env, key, v), other, w) == Put(Put(env, other, w), key, v)
  {
    assert env.values[key := v][other := w] == env.values[other := w][key := v];
  }

  lemma {:induction false} ExtendConcat(env: Env, a: seq<string>, b: seq<string>)
    ensures Extend(env, a + b) == Extend(Extend(env, a), b)
    decreases |b|
  {
    if b == [] {
      assert a + b == a;
    } else {
      assert (a + b)[..|a + b| - 1] == a + b[..|b| - 1];
      ExtendConcat(env, a, b[..|b| - 1]);
    }
  }

  lemma {:induction false} ExtendHas(env: Env, entries: seq<string>, i: nat)
    requires i < |entries|
    ensures Key(entries[i]) in Extend(env, entries).values
    decreases |entries|
  {
    if i < |entries| - 1 {
      ExtendHas(env, entries[..|entries| - 1], i);
    }
  }

  lemma ChangedLast(env: Env, entries: seq<string>, key: string, v: string)
    requires entries != [] && Key(entries[|entries| - 1]) == key && '=' !in key
    ensures Extend(env, entries[|entries| - 1 := Entry(key, v)]) == Put(Extend(env, entries), key, v)
  {
    var n := |entries| - 1;
    EntryParts(key, v);
    assert entries[n := Entry(key, v)][..n] == entries[..n];
    PutAgain(Extend(env, entries[..n]), key, Value(entries[n]), v);
  }

  lemma UpdatedSplits<T>(s: seq<T>, i: nat, x: T)
    requires i < |s| - 1
    ensures s == s[..|s| - 1] + [s[|s| - 1]]
    ensures s[i := x] == s[..|s| - 1][i := x] + [s[|s| - 1]]
  {
  }

  lemma ChangedBefore(env: Env, init: seq<string>, last: string, i: nat, key: string, v: string)
    requires i < |init| && Key(last) != key && Key(init[i]) == key
    requires Extend(env, init[i := Entry(key, v)]) == Put(Extend(env, init), key, v)
    ensures Extend(env, init[i := Entry(key, v)] + [last]) == Put(Extend(env, init + [last]), key, v)
  {
    ExtendOne(env, init[i := Entry(key, v)], last);
    ExtendOne(env, init, last);
    ExtendHas(env, init, i);
    PutSwap(Extend(env, init), key, v, Key(last), Value(last));
  }

  predicate OnlyAt(entries: seq<string>, key: string, i: nat) {
    i < |entries| && Key(entries[i]) == key && forall j :: 0 <= j < |entries| && j != i ==> Key(entries[j]) != key
  }

  /** Changing the value in an entry whose key no other entry has is assigning to that key afterwards. */
  lemma {:induction false} ExtendChanged(env: Env, entries: seq<string>, i: nat, key: string, v: string)
    requires OnlyAt(entries, key, i) && '=' !in key
    ensures Extend(env, entries[i := Entry(key, v)]) == Put(Extend(env, entries), key, v)
    decreases |entries|
  {
    if i == |entries| - 1 {
      ChangedLast(env, entries, key, v);
    } else {
      var init, last := entries[..|entries| - 1], entries[|entries| - 1];
      assert OnlyAt(init, key, i);
      ExtendChanged(env, init, i, key, v);
      UpdatedSplits(entries, i, Entry(key, v));
      ChangedBefore(env, init, last, i, key, v);
    }
  }

  lemma ListedReplaced(dict: Env, i: nat, v: string)
    requires Valid(dict) && i < |dict.order|
    ensures var key := dict.order[i];
            key in dict.values && Valid(Put(dict, key, v))
            && Listed(Put(dict, key, v)) == Listed(dict)[i := Entry(key, v)]
  {
    PutValid(dict, dict.order[i], v);
  }

  lemma ListedAppended(dict: Env, key: string, v: string)
    requires Valid(dict) && '=' !in key && key !in dict.values
    ensures Valid(Put(dict, key, v))
    ensures Listed(Put(dict, key, v)) == Listed(dict) + [Entry(key, v)]
  {
    PutValid(dict, key, v);
  }

  lemma ExtendOne(env: Env, entries: seq<string>, entry: string)
    ensures Extend(env, entries + [entry]) == Put(Extend(env, entries), Key(entry), Value(entry))
  {
    assert (entries + [entry])[..|entries|] == entries;
  }

  lemma ExtendListedPut(env: Env, dict: Env, key: string, v: string)
    requires Valid(dict) && '=' !in key
    ensures Valid(Put(dict, key, v))
    ensures Extend(env, Listed(Put(dict, key, v))) == Put(Extend(env, Listed(dict)), key, v)
  {
    if key in dict.values {
      var i :| 0 <= i < |dict.order| && dict.order[i] == key;
      ListedReplaced(dict, i, v);
      KeysOfListed(dict);
      ExtendChanged(env, Listed(dict), i, key, v);
    } else {
      ListedAppended(dict, key, v);
      EntryParts(key, v);
      ExtendOne(env, Listed(dict), Entry(key, v));
    }
  }

  /** Adding a dictionary's listing has the effect of adding what the dictionary was built from. */
  lemma {:induction false} ExtendListed(env: Env, entries: seq<string>)
    ensures Valid(Extend(EMPTY, entries))
    ensures Extend(env, Listed(Extend(EMPTY, entries))) == Extend(env, entries)
    decreases |entries|
  {
    EmptyValid();
    ExtendValid(EMPTY, entries);
    if entries == [] {
      assert Listed(Extend(EMPTY, entries)) == [];
    } else {
      var n := |entries| - 1;
      ExtendListed(env, entries[..n]);
      ExtendListedPut(env, Extend(EMPTY, entries[..n]), Key(entries[n]), Value(entries[n]));
    }
  }

  lemma NormalLeft(a: seq<string>, b: seq<string>)
    ensures Normal(Normal(a) + b) == Normal(a + b)
  {
    ExtendListed(EMPTY, a);
    ExtendConcat(EMPTY, Normal(a), b);
    ExtendConcat(EMPTY, a, b);
  }

  lemma NormalRight(a: seq<string>, b: seq<string>)
    ensures Normal(a + Normal(b)) == Normal(a + b)
  {
    ExtendListed(Extend(EMPTY, a), b);
    ExtendConcat(EMPTY, a, Normal(b));
    ExtendConcat(EMPTY, a, b);
  }

  lemma ConcatAssociative(a: seq<string>, b: seq<string>, c: seq<string>)
    ensures (a + b) + c == a + (b + c)
  {
  }

  /** Merging is associative as an operation on lists, order included. */
  lemma MergeAssociative(a: seq<string>, b: seq<string>, c: seq<string>)
    ensures Merged(Merged(a, b), c) == Merged(a, Merged(b, c))
  {
    NormalLeft(a + b, c);
    NormalRight(a, b + c);
    ConcatAssociative(a, b, c);
  }

  /** Merging the empty list into a result, or a result into the empty list, changes nothing. */
  lemma MergedIsNormal(a: seq<string>, b: seq<string>)
    ensures Merged(Merged(a, b), []) == Merged(a, b)
    ensures Merged([], Merged(a, b)) == Merged(a, b)
  {
    NormalLeft(a + b, []);
    NormalRight([], a + b);
    assert (a + b) + [] == a + b && [] + (a + b) == a + b;
  }
}

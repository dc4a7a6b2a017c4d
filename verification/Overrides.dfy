/** `-override-config` strings: `key=value,key=value`, ordered, keys unique. */
module Overrides {
  import opened Common
  import opened Text

  const ANALYSIS_THREADS := "numAnalysisThreads"
  const SEARCH_THREADS := "numSearchThreadsPerAnalysisThread"
  const SERVER_THREADS := "numNNServerThreadsPerModel"
  const BATCH_SIZE := "nnMaxBatchSize"

  type Pairs = seq<(string, string)>

  // ----- the operations, on lists of pairs

  function Get(ps: Pairs, key: string): Option<string> {
    if ps == [] then None
    else
      var last := |ps| - 1;
      var before := Get(ps[..last], key);
      if before.None? && ps[last].0 == key then Some(ps[last].1) else before
  }

  /** The value of the first pair with the key is replaced; without one, a pair is added. */
  function Set(ps: Pairs, key: string, value: string): Pairs {
    if ps == [] then [(key, value)]
    else if ps[0].0 == key then [(key, value)] + ps[1..]
    else [ps[0]] + Set(ps[1..], key, value)
  }

  function Fill(ps: Pairs, other: Pairs): Pairs {
    if other == [] then ps
    else
      var last := |other| - 1;
      var filled := Fill(ps, other[..last]);
      if Get(filled, other[last].0).None? then filled + [other[last]] else filled
  }

  function Retained(ps: Pairs, keep: string -> bool): Pairs {
    if ps == [] then []
    else
      var last := |ps| - 1;
      var rest := Retained(ps[..last], keep);
      if keep(ps[last].0) then rest + [ps[last]] else rest
  }

  /** What one comma-separated entry sets: nothing without a `=`, nor with a blank key. */
  function Setting(entry: string): Option<(string, string)> {
    var sides := SplitOnce(entry, '=');
    if sides.None? || Trim(sides.value.0) == "" then None
    else Some((Trim(sides.value.0), Trim(sides.value.1)))
  }

  /** An entry sets what stands before its first `=` to what stands after it, both trimmed. */
  lemma SettingIs(key: string, value: string, entry: string)
    requires '=' !in key && '=' !in entry
    ensures Setting(key + "=" + value) == if Trim(key) == "" then None else Some((Trim(key), Trim(value)))
    ensures Setting(entry).None?
  {
    assert key + "=" + value == key + ['='] + value;
    SplitOnceAt(key, value, '=');
  }

  function SetEntries(entries: seq<string>): Pairs {
    if entries == [] then []
    else
      var last := |entries| - 1;
      var before, setting := SetEntries(entries[..last]), Setting(entries[last]);
      if setting.None? then before else Set(before, setting.value.0, setting.value.1)
  }

  function Parse(raw: string): Pairs {
    SetEntries(Split(raw, ','))
  }

  function Entry(pair: (string, string)): string {
    pair.0 + "=" + pair.1
  }

  function Entries(ps: Pairs): seq<string> {
    seq(|ps|, i requires 0 <= i < |ps| => Entry(ps[i]))
  }

  function Display(ps: Pairs): string {
    Join(Entries(ps), ',')
  }

  /** Setting changes the first pair with the key, or adds one at the end. */
  lemma {:induction false} SetAt(ps: Pairs, i: nat, key: string, value: string)
    requires i <= |ps| && (i < |ps| ==> ps[i].0 == key) && forall j :: 0 <= j < i ==> ps[j].0 != key
    ensures Set(ps, key, value) == if i < |ps| then ps[i := (key, value)] else ps + [(key, value)]
  {
    if i > 0 {
      SetAt(ps[1..], i - 1, key, value);
    }
  }

  // ----- the class

  class Overrides {
    var pairs: Pairs

    constructor (pairs: Pairs)
      ensures this.pairs == pairs
    {
      this.pairs := pairs;
    }

    /** Replaces the value in place where the key is, or adds the pair at the end. */
    method SetKey(key: string, value: string)
      modifies this
      ensures pairs == Set(old(pairs), key, value)
    {
      var i := 0;
      while i < |pairs| && pairs[i].0 != key
        invariant 0 <= i <= |pairs|
        invariant forall j :: 0 <= j < i ==> pairs[j].0 != key
      {
        i := i + 1;
      }
      SetAt(pairs, i, key, value);
      if i < |pairs| {
        pairs := pairs[i := (pairs[i].0, value)];
      } else {
        pairs := pairs + [(key, value)];
      }
    }

    /** Adds the pairs of `other` whose keys are not set here. */
    method FillFrom(other: Overrides)
      requires other != this
      modifies this
      ensures pairs == Fill(old(pairs), other.pairs)
    {
      for i := 0 to |other.pairs|
        invariant pairs == Fill(old(pairs), other.pairs[..i])
      {
        assert other.pairs[..i + 1][..i] == other.pairs[..i];
        if Get(pairs, other.pairs[i].0).None? {
          pairs := pairs + [other.pairs[i]];
        }
      }
      assert other.pairs[..|other.pairs|] == other.pairs;
    }

    method Retain(keep: string -> bool)
      modifies this
      ensures pairs == Retained(old(pairs), keep)
    {
      var kept := [];
      for i := 0 to |pairs|
        invariant pairs == old(pairs)
        invariant kept == Retained(pairs[..i], keep)
      {
        assert pairs[..i + 1][..i] == pairs[..i];
        if keep(pairs[i].0) {
          kept := kept + [pairs[i]];
        }
      }
      assert pairs[..|pairs|] == pairs;
      pairs := kept;
    }

    /** Every entry with a `=` and a key, in order. */
    constructor FromText(raw: string)
      ensures pairs == Parse(raw)
    {
      pairs := [];
      new;
      var entries := Split(raw, ',');
      for i := 0 to |entries|
        invariant pairs == SetEntries(entries[..i])
      {
        assert entries[..i + 1][..i] == entries[..i];
        var sides := SplitOnce(entries[i], '=');
        if sides.Some? {
          var key := Trim(sides.value.0);
          if key != "" {
            SetKey(key, Trim(sides.value.1));
          }
        }
      }
      assert entries[..|entries|] == entries;
    }

    method ToText() returns (out: string)
      ensures out == Display(pairs)
    {
      out := "";
      for i := 0 to |pairs|
        invariant out == Display(pairs[..i])
      {
        assert Entries(pairs[..i + 1])[..i] == Entries(pairs[..i]);
        if i > 0 {
          out := out + ",";
        }
        out := out + pairs[i].0 + "=" + pairs[i].1;
        assert out == Display(pairs[..i + 1]) by {
          assert Entries(pairs[..i + 1])[i] == Entry(pairs[i]);
          if i > 0 {
            var before := Display(pairs[..i]);
            assert (before + ",") + pairs[i].0 + "=" + pairs[i].1 == before + [','] + Entry(pairs[i]);
          } else {
            assert "" + pairs[i].0 + "=" + pairs[i].1 == Entry(pairs[i]);
          }
        }
      }
      assert pairs[..|pairs|] == pairs;
    }
  }

  // ----- reading back

  lemma {:induction false} GetCons(first: (string, string), rest: Pairs, key: string)
    ensures Get([first] + rest, key) == if first.0 == key then Some(first.1) else Get(rest, key)
  {
    var ps := [first] + rest;
    if rest == [] {
      assert ps[..0] == [];
    } else {
      var last := |rest| - 1;
      assert ps[..|ps| - 1] == [first] + rest[..last];
      GetCons(first, rest[..last], key);
    }
  }

  /** A set key reads as its new value; no other key changes. */
  lemma {:induction false} GetSet(ps: Pairs, key: string, value: string, k: string)
    ensures Get(Set(ps, key, value), k) == if k == key then Some(value) else Get(ps, k)
  {
    if ps == [] {
      GetCons((key, value), [], k);
    } else {
      assert [ps[0]] + ps[1..] == ps;
      GetCons(ps[0], ps[1..], k);
      if ps[0].0 == key {
        GetCons((key, value), ps[1..], k);
      } else {
        GetSet(ps[1..], key, value, k);
        GetCons(ps[0], Set(ps[1..], key, value), k);
      }
    }
  }

  lemma GetSnoc(ps: Pairs, pair: (string, string), k: string)
    ensures Get(ps + [pair], k) == if Get(ps, k).None? && pair.0 == k then Some(pair.1) else Get(ps, k)
  {
    assert (ps + [pair])[..|ps|] == ps;
  }

  /** A key that was set keeps its value; the others read as in `other`. */
  lemma {:induction false} GetFill(ps: Pairs, other: Pairs, k: string)
    ensures Get(Fill(ps, other), k) == if Get(ps, k).Some? then Get(ps, k) else Get(other, k)
  {
    if other != [] {
      var last := |other| - 1;
      GetFill(ps, other[..last], k);
      GetSnoc(Fill(ps, other[..last]), other[last], k);
    }
  }

  /** Filling leaves every pair already there as it is, in place. */
  lemma {:induction false} FillExtends(ps: Pairs, other: Pairs)
    ensures ps <= Fill(ps, other)
  {
    if other != [] {
      FillExtends(ps, other[..|other| - 1]);
    }
  }

  lemma {:induction false} GetRetained(ps: Pairs, keep: string -> bool, k: string)
    ensures Get(Retained(ps, keep), k) == if keep(k) then Get(ps, k) else None
  {
    if ps != [] {
      var last := |ps| - 1;
      GetRetained(ps[..last], keep, k);
      GetSnoc(Retained(ps[..last], keep), ps[last], k);
    }
  }

  /** What a key is set to when the last entry that sets it wins. */
  function Reading(entries: seq<string>, key: string): Option<string> {
    if entries == [] then None
    else
      var last := |entries| - 1;
      var setting := Setting(entries[last]);
      if setting.Some? && setting.value.0 == key then Some(setting.value.1) else Reading(entries[..last], key)
  }

  /** Parsing keeps, for every key, the value of the last entry that sets it. */
  lemma {:induction false} ParseIsLastWins(entries: seq<string>, key: string)
    ensures Get(SetEntries(entries), key) == Reading(entries, key)
  {
    if entries != [] {
      var last := |entries| - 1;
      ParseIsLastWins(entries[..last], key);
      var setting := Setting(entries[last]);
      if setting.Some? {
        GetSet(SetEntries(entries[..last]), setting.value.0, setting.value.1, key);
      }
    }
  }

  lemma {:induction false} ReadingConcat(a: seq<string>, b: seq<string>, key: string)
    ensures Reading(a + b, key) == if Reading(b, key).Some? then Reading(b, key) else Reading(a, key)
  {
    if b == [] {
      assert a + b == a;
    } else {
      var last := |b| - 1;
      assert (a + b)[..|a + b| - 1] == a + b[..last];
      ReadingConcat(a, b[..last], key);
    }
  }

  // ----- unique keys

  predicate Unique(ps: Pairs) {
    ps == [] || (Get(ps[..|ps| - 1], ps[|ps| - 1].0).None? && Unique(ps[..|ps| - 1]))
  }

  lemma {:induction false} UniqueCons(first: (string, string), rest: Pairs)
    ensures Unique([first] + rest) <==> Unique(rest) && Get(rest, first.0).None?
  {
    var ps := [first] + rest;
    if rest == [] {
      assert ps[..0] == [];
    } else {
      var last := |rest| - 1;
      assert ps[..|ps| - 1] == [first] + rest[..last];
      UniqueCons(first, rest[..last]);
      GetCons(first, rest[..last], rest[last].0);
    }
  }

  lemma {:induction false} SetKeepsUnique(ps: Pairs, key: string, value: string)
    requires Unique(ps)
    ensures Unique(Set(ps, key, value))
  {
    if ps == [] {
      UniqueCons((key, value), []);
    } else {
      assert [ps[0]] + ps[1..] == ps;
      UniqueCons(ps[0], ps[1..]);
      if ps[0].0 == key {
        UniqueCons((key, value), ps[1..]);
      } else {
        SetKeepsUnique(ps[1..], key, value);
        GetSet(ps[1..], key, value, ps[0].0);
        UniqueCons(ps[0], Set(ps[1..], key, value));
      }
    }
  }

  lemma {:induction false} FillKeepsUnique(ps: Pairs, other: Pairs)
    requires Unique(ps)
    ensures Unique(Fill(ps, other))
  {
    if other != [] {
      var last := |other| - 1;
      FillKeepsUnique(ps, other[..last]);
      var filled := Fill(ps, other[..last]);
      assert (filled + [other[last]])[..|filled|] == filled;
    }
  }

  lemma {:induction false} RetainKeepsUnique(ps: Pairs, keep: string -> bool)
    requires Unique(ps)
    ensures Unique(Retained(ps, keep))
  {
    if ps != [] {
      var last := |ps| - 1;
      RetainKeepsUnique(ps[..last], keep);
      GetRetained(ps[..last], keep, ps[last].0);
      var rest := Retained(ps[..last], keep);
      assert (rest + [ps[last]])[..|rest|] == rest;
    }
  }

  // ----- canonical text

  /** A pair that its own text sets: a trimmed key without separators, a trimmed value without
      commas. */
  predicate CleanPair(pair: (string, string)) {
    && pair.0 != "" && Trimmed(pair.0) && '=' !in pair.0 && ',' !in pair.0
    && Trimmed(pair.1) && ',' !in pair.1
  }

  predicate Clean(ps: Pairs) {
    ps == [] || (CleanPair(ps[|ps| - 1]) && Clean(ps[..|ps| - 1]))
  }

  predicate Canonical(ps: Pairs) {
    Unique(ps) && Clean(ps)
  }

  lemma SettingIsClean(entry: string)
    requires ',' !in entry && Setting(entry).Some?
    ensures CleanPair(Setting(entry).value)
  {
    var (k, v) := SplitOnce(entry, '=').value;
    TrimShape(k);
    TrimShape(v);
    assert forall c :: c in k || c in v ==> c in entry;
  }

  lemma CleanPairSets(pair: (string, string))
    requires CleanPair(pair)
    ensures Setting(Entry(pair)) == Some(pair) && ',' !in Entry(pair)
  {
    assert Entry(pair) == pair.0 + ['='] + pair.1;
    SplitOnceAt(pair.0, pair.1, '=');
    TrimmedStays(pair.0);
    TrimmedStays(pair.1);
  }

  lemma {:induction false} CleanCons(first: (string, string), rest: Pairs)
    ensures Clean([first] + rest) <==> CleanPair(first) && Clean(rest)
  {
    var ps := [first] + rest;
    if rest == [] {
      assert ps[..0] == [];
    } else {
      assert ps[..|ps| - 1] == [first] + rest[..|rest| - 1];
      CleanCons(first, rest[..|rest| - 1]);
    }
  }

  lemma {:induction false} SetKeepsClean(ps: Pairs, key: string, value: string)
    requires Clean(ps) && CleanPair((key, value))
    ensures Clean(Set(ps, key, value))
  {
    if ps == [] {
      CleanCons((key, value), []);
    } else {
      assert [ps[0]] + ps[1..] == ps;
      CleanCons(ps[0], ps[1..]);
      if ps[0].0 == key {
        CleanCons((key, value), ps[1..]);
      } else {
        SetKeepsClean(ps[1..], key, value);
        CleanCons(ps[0], Set(ps[1..], key, value));
      }
    }
  }

  lemma SetKeepsCanonical(ps: Pairs, key: string, value: string)
    requires Canonical(ps) && CleanPair((key, value))
    ensures Canonical(Set(ps, key, value))
  {
    SetKeepsUnique(ps, key, value);
    SetKeepsClean(ps, key, value);
  }

  lemma {:induction false} SetEntriesIsCanonical(entries: seq<string>)
    requires Without(entries, ',')
    ensures Canonical(SetEntries(entries))
  {
    if entries != [] {
      var last := |entries| - 1;
      SetEntriesIsCanonical(entries[..last]);
      var setting := Setting(entries[last]);
      if setting.Some? {
        SettingIsClean(entries[last]);
        SetKeepsCanonical(SetEntries(entries[..last]), setting.value.0, setting.value.1);
      }
    }
  }

  /** Whatever the text, what it parses to has unique, clean keys. */
  lemma ParseIsCanonical(raw: string)
    ensures Canonical(Parse(raw))
  {
    SplitPieces(raw, ',');
    WithoutAll(Split(raw, ','), ',');
    SetEntriesIsCanonical(Split(raw, ','));
  }

  lemma {:induction false} SetNew(ps: Pairs, key: string, value: string)
    requires Get(ps, key).None?
    ensures Set(ps, key, value) == ps + [(key, value)]
  {
    if ps != [] {
      assert [ps[0]] + ps[1..] == ps;
      GetCons(ps[0], ps[1..], key);
      SetNew(ps[1..], key, value);
    }
  }

  lemma {:induction false} EntriesSetBack(ps: Pairs)
    requires Canonical(ps)
    ensures SetEntries(Entries(ps)) == ps && Without(Entries(ps), ',')
  {
    hide Set, Get, Setting, CleanPair, Entry;
    if ps != [] {
      var last := |ps| - 1;
      EntriesSetBack(ps[..last]);
      assert Entries(ps)[..last] == Entries(ps[..last]);
      CleanPairSets(ps[last]);
      SetNew(ps[..last], ps[last].0, ps[last].1);
    }
  }

  /** Writing canonical settings and parsing the text gives them back. */
  lemma CanonicalRoundTrip(ps: Pairs)
    requires Canonical(ps)
    ensures Parse(Display(ps)) == ps
  {
    EntriesSetBack(ps);
    if ps == [] {
      assert Split("", ',') == [""];
      assert [""][..0] == [];
      assert SplitOnce("", '=').None?;
    } else {
      SplitJoin(Entries(ps), ',');
    }
  }

  /** For every string: displaying what it parses to and parsing again changes nothing. */
  lemma ParseDisplayParse(raw: string)
    ensures Parse(Display(Parse(raw))) == Parse(raw)
  {
    ParseIsCanonical(raw);
    CanonicalRoundTrip(Parse(raw));
  }

  /** For every string and key, the parsed value is that of the last entry setting the key. */
  lemma ParsedValueIsLast(raw: string, key: string)
    ensures Get(Parse(raw), key) == Reading(Split(raw, ','), key)
  {
    ParseIsLastWins(Split(raw, ','), key);
  }
}

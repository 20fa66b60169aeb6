/** The fixed table that encodes the 44 selectable cities as the integer
    codes the regressor was trained with, and the lookup of the selected city. */
module CityTable {
  import opened Wrappers

  /** Number of entries in the table. */
  const CityCount: nat := 44

  /** The entries of the city table in the order the application declares
      them: each pair is a city name and its code. */
  const CityEntries: seq<(string, int)> := [
    ("Shoreline", 1), ("Kent", 2), ("Bellevue", 3), ("Redmond", 4),
    ("Seattle", 5), ("Maple Valley", 6), ("North Bend", 7), ("Lake Forest Park", 8),
    ("Sammamish", 9), ("Auburn", 10), ("Des Moines", 11), ("Bothell", 12),
    ("Federal Way", 13), ("Kirkland", 14), ("Issaquah", 15), ("Woodinville", 16),
    ("Normandy Park", 17), ("Fall City", 18), ("Renton", 19), ("Carnation", 20),
    ("Snoqualmie", 21), ("Duvall", 22), ("Burien", 23), ("Covington", 24),
    ("Inglewood-Finn Hill", 25), ("Kenmore", 26), ("Newcastle", 27), ("Black Diamond", 28),
    ("Ravensdale", 29), ("Clyde Hill", 30), ("Algona", 31), ("Mercer Island", 32),
    ("Skykomish", 33), ("Tukwila", 34), ("Vashon", 35), ("SeaTac", 36),
    ("Enumclaw", 37), ("Snoqualmie Pass", 38), ("Pacific", 39), ("Beaux Arts Village", 40),
    ("Preston", 41), ("Milton", 42), ("Yarrow Point", 43), ("Medina", 44)
  ]

  /** No name occurs in two entries. */
  ghost predicate NamesDistinct(entries: seq<(string, int)>)
  {
    forall i, j | 0 <= i < j < |entries| :: entries[i].0 != entries[j].0
  }

  /** The dictionary a literal with these entries denotes: the entries are
      inserted in order, so a later entry for the same name would win. */
  function DictOf(entries: seq<(string, int)>): map<string, int>
  {
    if entries == [] then map[]
    else
      var last := entries[|entries| - 1];
      DictOf(entries[..|entries| - 1])[last.0 := last.1]
  }

  /** The name -> code dictionary of the application. */
  function CityMapping(): map<string, int>
  {
    DictOf(CityEntries)
  }

  /** The names of the entries in order. When the names are distinct
      (`NamesDistinct`, which holds of the city table) this is the keys of
      the dictionary in its iteration order; a Python dictionary would list
      a repeated name once, at its first position. */
  function KeysInOrder(entries: seq<(string, int)>): (names: seq<string>)
    ensures |names| == |entries|
    ensures (set x | x in names) == DictOf(entries).Keys
  {
    var names := seq(|entries|, i requires 0 <= i < |entries| => entries[i].0);
    DictOfKeySet(entries);
    assert forall x :: x in names <==> exists i :: 0 <= i < |entries| && entries[i].0 == x by {
      forall x | x in names ensures exists i :: 0 <= i < |entries| && entries[i].0 == x {
        var i :| 0 <= i < |names| && names[i] == x;
        assert entries[i].0 == x;
      }
      forall x, i | 0 <= i < |entries| && entries[i].0 == x ensures x in names {
        assert names[i] == x;
      }
    }
    names
  }

  /** The options of the city selector: the keys of the table in
      declaration order. */
  function CityNames(): seq<string>
  {
    KeysInOrder(CityEntries)
  }

  /** Each entry's code is its one-based position. */
  ghost predicate CodesPositional(entries: seq<(string, int)>)
  {
    forall i | 0 <= i < |entries| :: entries[i].1 == i + 1
  }

  /** Exact-match lookup of a city name, as the application does it for the
      selected city. A name outside the table is the dictionary's lookup
      error, reported as None. A found code is the one-based position of the
      name among the selector's options. */
  function CityCode(name: string): (r: Option<int>)
    ensures r.Some? <==> name in CityNames()
    ensures r.Some? ==> 1 <= r.value <= CityCount && CityNames()[r.value - 1] == name
  {
    EntryNamesDistinct();
    CodesArePositions();
    PositionalLookup(CityEntries, name);
    if name in CityMapping() then Some(CityMapping()[name]) else None
  }

  /** In a dictionary of positional codes, a key's code tells where the key
      stands in the key order, and the keys are exactly the names. */
  lemma PositionalLookup(entries: seq<(string, int)>, name: string)
    requires NamesDistinct(entries) && CodesPositional(entries)
    ensures name in DictOf(entries) <==> name in KeysInOrder(entries)
    ensures name in DictOf(entries) ==>
      1 <= DictOf(entries)[name] <= |entries| && KeysInOrder(entries)[DictOf(entries)[name] - 1] == name
  {
    DictOfKeys(entries, name);
    if name in KeysInOrder(entries) {
      var i :| 0 <= i < |entries| && KeysInOrder(entries)[i] == name;
      assert entries[i].0 == name;
    }
    if name in DictOf(entries) {
      var i :| 0 <= i < |entries| && entries[i].0 == name && DictOf(entries)[name] == entries[i].1;
      assert KeysInOrder(entries)[i] == name;
    }
  }

  /** With distinct names, every name of the entries is a key, mapped to the
      code beside it. */
  lemma {:induction false} DictOfLookup(entries: seq<(string, int)>, i: nat)
    requires NamesDistinct(entries) && i < |entries|
    ensures entries[i].0 in DictOf(entries) && DictOf(entries)[entries[i].0] == entries[i].1
  {
    var init := entries[..|entries| - 1];
    if i < |entries| - 1 {
      assert entries[i].0 != entries[|entries| - 1].0;
      assert NamesDistinct(init) by {
        forall p, q | 0 <= p < q < |init| ensures init[p].0 != init[q].0 {
          assert init[p] == entries[p] && init[q] == entries[q];
        }
      }
      assert init[i] == entries[i];
      DictOfLookup(init, i);
    }
  }

  /** The keys are exactly the names of the entries. */
  lemma DictOfKeySet(entries: seq<(string, int)>)
    ensures forall x :: x in DictOf(entries) <==> exists i :: 0 <= i < |entries| && entries[i].0 == x
  {
    forall x
      ensures x in DictOf(entries) <==> exists i :: 0 <= i < |entries| && entries[i].0 == x
    {
      DictOfKeys(entries, x);
    }
  }

  /** The keys are the names of the entries and nothing else, and each key
      is mapped to the code of some entry with that name. */
  lemma {:induction false} DictOfKeys(entries: seq<(string, int)>, name: string)
    ensures name in DictOf(entries) <==> exists i :: 0 <= i < |entries| && entries[i].0 == name
    ensures name in DictOf(entries) ==>
      exists i :: 0 <= i < |entries| && entries[i].0 == name && DictOf(entries)[name] == entries[i].1
  {
    if entries != [] {
      var n := |entries| - 1;
      var init := entries[..n];
      DictOfKeys(init, name);
      if name == entries[n].0 {
        assert entries[n].0 == name && DictOf(entries)[name] == entries[n].1;
      } else {
        if i :| 0 <= i < n && init[i].0 == name && DictOf(init)[name] == init[i].1 {
          assert entries[i] == init[i];
        }
        if i :| 0 <= i < |entries| && entries[i].0 == name {
          assert init[i] == entries[i];
        }
      }
    }
  }

  /** The k-th option of the selector is encoded as k + 1. */
  lemma CodeOfPosition(k: nat)
    requires k < CityCount
    ensures CityCode(CityNames()[k]) == Some(k + 1)
  {
    EntryNamesDistinct();
    CodesArePositions();
    DictOfLookup(CityEntries, k);
  }

  /** Distinct names get distinct codes. */
  lemma CityCodeInjective(a: string, b: string)
    requires CityCode(a).Some? && CityCode(a) == CityCode(b)
    ensures a == b
  {
  }

  /** The codes in use are exactly 1..44. */
  lemma CityCodesOnto()
    ensures forall c :: c in CityMapping().Values <==> 1 <= c <= CityCount
  {
    EntryNamesDistinct();
    CodesArePositions();
    PositionalOnto(CityEntries);
  }

  /** The table has exactly 44 keys, the selector's options. */
  lemma CityTableSize()
    ensures CityMapping().Keys == set x | x in CityNames()
    ensures |CityMapping()| == CityCount
  {
    EntryNamesDistinct();
    CodesArePositions();
    DictOfSize(CityEntries);
  }

  lemma PositionalOnto(entries: seq<(string, int)>)
    requires NamesDistinct(entries) && CodesPositional(entries)
    ensures forall c :: c in DictOf(entries).Values <==> 1 <= c <= |entries|
  {
    forall c | 1 <= c <= |entries|
      ensures c in DictOf(entries).Values
    {
      DictOfLookup(entries, c - 1);
    }
    forall c | c in DictOf(entries).Values
      ensures 1 <= c <= |entries|
    {
      var a :| a in DictOf(entries) && DictOf(entries)[a] == c;
      PositionalLookup(entries, a);
    }
  }

  lemma DictOfSize(entries: seq<(string, int)>)
    requires NamesDistinct(entries)
    ensures DictOf(entries).Keys == set x | x in KeysInOrder(entries)
    ensures |DictOf(entries)| == |entries|
  {
    var names := KeysInOrder(entries);
    forall x
      ensures x in DictOf(entries) <==> x in names
    {
      DictOfKeys(entries, x);
      if x in names {
        var i :| 0 <= i < |names| && names[i] == x;
        assert entries[i].0 == x;
      }
      if x in DictOf(entries) {
        var i :| 0 <= i < |entries| && entries[i].0 == x;
        assert names[i] == x;
      }
    }
    assert forall i, j | 0 <= i < j < |names| :: names[i] != names[j] by {
      forall i, j | 0 <= i < j < |names| ensures names[i] != names[j] {
        assert names[i] == entries[i].0 && names[j] == entries[j].0;
      }
    }
    DistinctElements(names);
  }

  /** A sequence without repetitions has as many distinct elements as it
      has positions. */
  lemma {:induction false} DistinctElements(s: seq<string>)
    requires forall i, j | 0 <= i < j < |s| :: s[i] != s[j]
    ensures |set x | x in s| == |s|
  {
    if s != [] {
      var init := s[..|s| - 1];
      DistinctElements(init);
      assert (set x | x in s) == (set x | x in init) + {s[|s| - 1]};
      assert s[|s| - 1] !in init;
    }
  }

  /** Every code is its entry's one-based position in the table. */
  lemma CodesArePositions()
    ensures |CityEntries| == CityCount && CodesPositional(CityEntries)
  {
  }

  // The 44 names are pairwise different; split by the first index so that
  // each part stays small for the solver.

  lemma NamesDistinctFrom0(i: nat, j: nat)
    requires i < j < CityCount && i < 6
    ensures |CityEntries| == CityCount && CityEntries[i].0 != CityEntries[j].0
  {
  }

  lemma NamesDistinctFrom6(i: nat, j: nat)
    requires i < j < CityCount && 6 <= i < 14
    ensures |CityEntries| == CityCount && CityEntries[i].0 != CityEntries[j].0
  {
  }

  lemma NamesDistinctFrom14(i: nat, j: nat)
    requires i < j < CityCount && 14 <= i < 24
    ensures |CityEntries| == CityCount && CityEntries[i].0 != CityEntries[j].0
  {
  }

  lemma NamesDistinctFrom24(i: nat, j: nat)
    requires i < j < CityCount && 24 <= i
    ensures |CityEntries| == CityCount && CityEntries[i].0 != CityEntries[j].0
  {
  }

  /** No city name is declared twice. */
  lemma EntryNamesDistinct()
    ensures NamesDistinct(CityEntries)
  {
    forall i, j | 0 <= i < j < |CityEntries|
      ensures CityEntries[i].0 != CityEntries[j].0
    {
      if i < 6 {
        NamesDistinctFrom0(i, j);
      } else if i < 14 {
        NamesDistinctFrom6(i, j);
      } else if i < 24 {
        NamesDistinctFrom14(i, j);
      } else {
        NamesDistinctFrom24(i, j);
      }
    }
  }
}

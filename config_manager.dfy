/** `AIProviderConfigManager`: the user-editable table of providers (enabled
    flag, priority, provider settings) and the preference order derived from
    it. The JSON file is an abstract record: what loading reads and what every
    change writes back. */
module ConfigManager {
  import opened Common
  import Dict

  /** `ProviderConfig`; a priority of 1 is the highest. */
  datatype ProviderConfig = ProviderConfig(name: string, enabled: bool, priority: int, config: Dict.Table<Value>)

  /** One entry of the file: a JSON object with the optional fields, or some
      other JSON value (on which `.get` raises). */
  datatype StoredEntry =
    | Record(enabled: Option<bool>, priority: Option<int>, config: Option<Dict.Table<Value>>)
    | NotARecord

  /** The configuration file: absent, unreadable as a JSON object, or its entries. */
  datatype StoredFile = Missing | Corrupt | Stored(entries: Dict.Table<StoredEntry>)

  /** The five built-in entries, in this order. */
  function Defaults(): (t: Dict.Table<ProviderConfig>)
    ensures Dict.Keys(t) == ["gpt-oss", "ollama", "openai", "huggingface", "simple"]
  {
    [ Dict.Entry("gpt-oss", ProviderConfig("gpt-oss", true, 1, [Dict.Entry("model", Str("gpt-oss:20b"))])),
      Dict.Entry("ollama", ProviderConfig("ollama", true, 2, [Dict.Entry("model", Str("llama2")),
                                                             Dict.Entry("host", Str("localhost")),
                                                             Dict.Entry("port", Num(11434))])),
      Dict.Entry("openai", ProviderConfig("openai", false, 3, [Dict.Entry("model", Str("gpt-3.5-turbo")),
                                                              Dict.Entry("api_key", Str(""))])),
      Dict.Entry("huggingface", ProviderConfig("huggingface", false, 4, [Dict.Entry("model", Str("microsoft/DialoGPT-medium"))])),
      Dict.Entry("simple", ProviderConfig("simple", true, 9, [])) ]
  }

  /** Every entry is stored under its own name, once. */
  predicate WellFormed(t: Dict.Table<ProviderConfig>)
  {
    Dict.Valid(t) && forall i :: 0 <= i < |t| ==> t[i].value.name == t[i].key
  }

  lemma DefaultsWellFormed()
    ensures WellFormed(Defaults())
  {
    var ks := Dict.Keys(Defaults());
    assert ks == ["gpt-oss", "ollama", "openai", "huggingface", "simple"];
  }

  // ---------------------------------------------------------------------------
  // Preferences: enabled names, stably sorted by priority
  // ---------------------------------------------------------------------------

  /** A `(name, priority)` pair of the list that is sorted. */
  datatype Ranked = Ranked(name: string, priority: int)

  /** The enabled entries as pairs, in table order. */
  function EnabledRanked(t: Dict.Table<ProviderConfig>): (r: seq<Ranked>)
    ensures |r| <= |t|
  {
    if t == [] then []
    else
      var e := t[|t| - 1];
      EnabledRanked(t[..|t| - 1]) + (if e.value.enabled then [Ranked(e.key, e.value.priority)] else [])
  }

  /** A pair is listed exactly when it is an enabled entry with that priority. */
  lemma {:induction false} EnabledRankedExact(t: Dict.Table<ProviderConfig>, x: Ranked)
    ensures x in EnabledRanked(t) <==> exists i :: 0 <= i < |t| && t[i].key == x.name && t[i].value.enabled && t[i].value.priority == x.priority
  {
    if t != [] {
      var m := |t| - 1;
      EnabledRankedExact(t[..m], x);
      if exists i :: 0 <= i < |t| && t[i].key == x.name && t[i].value.enabled && t[i].value.priority == x.priority {
        var i :| 0 <= i < |t| && t[i].key == x.name && t[i].value.enabled && t[i].value.priority == x.priority;
        if i < m {
          assert t[..m][i] == t[i];
        }
      }
    }
  }

  predicate SortedByPriority(s: seq<Ranked>)
  {
    forall i, j :: 0 <= i < j < |s| ==> s[i].priority <= s[j].priority
  }

  /** The pairs of priority `p`, in order. */
  function WithPriority(s: seq<Ranked>, p: int): seq<Ranked>
  {
    if s == [] then []
    else WithPriority(s[..|s| - 1], p) + (if s[|s| - 1].priority == p then [s[|s| - 1]] else [])
  }

  /** Insert after every pair whose priority is not greater: ties keep their order. */
  function Insert(x: Ranked, s: seq<Ranked>): (r: seq<Ranked>)
    ensures |r| == |s| + 1
  {
    if s == [] || s[|s| - 1].priority <= x.priority then s + [x]
    else Insert(x, s[..|s| - 1]) + [s[|s| - 1]]
  }

  /** `list.sort(key=priority)`: a stable sort, as an insertion sort. */
  function SortByPriority(s: seq<Ranked>): (r: seq<Ranked>)
    ensures |r| == |s|
  {
    if s == [] then [] else Insert(s[|s| - 1], SortByPriority(s[..|s| - 1]))
  }

  /** Inserting adds `x` and keeps every other pair. */
  lemma {:induction false} InsertPerm(x: Ranked, s: seq<Ranked>)
    ensures multiset(Insert(x, s)) == multiset(s) + multiset{x}
  {
    if s != [] && s[|s| - 1].priority > x.priority {
      var m := |s| - 1;
      InsertPerm(x, s[..m]);
      assert s == s[..m] + [s[m]];
    }
  }

  /** Inserting into a sorted list keeps it sorted. */
  lemma {:induction false} InsertSorted(x: Ranked, s: seq<Ranked>)
    requires SortedByPriority(s)
    ensures SortedByPriority(Insert(x, s))
  {
    if s != [] && s[|s| - 1].priority > x.priority {
      var m := |s| - 1;
      var r := Insert(x, s[..m]);
      InsertSorted(x, s[..m]);
      InsertPerm(x, s[..m]);
      forall i | 0 <= i < |r| ensures r[i].priority <= s[m].priority {
        assert r[i] in multiset(r);
        if r[i] != x {
          assert r[i] in multiset(s[..m]);
          var k :| 0 <= k < m && s[..m][k] == r[i];
        }
      }
      assert Insert(x, s) == r + [s[m]];
    }
  }

  /** Inserting into a sorted list puts `x` after every pair of its own priority. */
  lemma {:induction false} InsertBand(x: Ranked, s: seq<Ranked>, p: int)
    ensures WithPriority(Insert(x, s), p) == WithPriority(s, p) + (if x.priority == p then [x] else [])
  {
    if s == [] || s[|s| - 1].priority <= x.priority {
      assert (s + [x])[..|s|] == s;
    } else {
      var m := |s| - 1;
      InsertBand(x, s[..m], p);
      var r := Insert(x, s[..m]);
      assert (r + [s[m]])[..|r|] == r;
    }
  }

  /** The sort orders by priority, keeps exactly the same pairs, and keeps the
      relative order of every group of equal priority (stability). */
  lemma {:induction false} SortSpec(s: seq<Ranked>)
    ensures SortedByPriority(SortByPriority(s))
    ensures multiset(SortByPriority(s)) == multiset(s)
    ensures forall p :: WithPriority(SortByPriority(s), p) == WithPriority(s, p)
  {
    if s != [] {
      var m := |s| - 1;
      SortSpec(s[..m]);
      InsertSorted(s[m], SortByPriority(s[..m]));
      InsertPerm(s[m], SortByPriority(s[..m]));
      assert s == s[..m] + [s[m]];
      forall p ensures WithPriority(SortByPriority(s), p) == WithPriority(s, p) {
        InsertBand(s[m], SortByPriority(s[..m]), p);
      }
    }
  }

  function Names(s: seq<Ranked>): (r: seq<string>)
    ensures |r| == |s| && forall i :: 0 <= i < |s| ==> r[i] == s[i].name
  {
    seq(|s|, i requires 0 <= i < |s| => s[i].name)
  }

  /** `get_provider_preferences`. */
  function Preferences(t: Dict.Table<ProviderConfig>): (r: seq<string>)
  {
    Names(SortByPriority(EnabledRanked(t)))
  }

  /** Each sorted pair comes from an enabled entry of the table, found by its name. */
  lemma SortedPairOrigin(t: Dict.Table<ProviderConfig>, x: Ranked)
    requires Dict.Valid(t) && x in SortByPriority(EnabledRanked(t))
    ensures x in EnabledRanked(t)
    ensures Dict.Get(t, x.name).Some? && Dict.Get(t, x.name).value.enabled && Dict.Get(t, x.name).value.priority == x.priority
  {
    SortSpec(EnabledRanked(t));
    assert x in multiset(SortByPriority(EnabledRanked(t)));
    var i := IndexIn(t, x);
    Dict.GetAt(t, i);
  }

  /** A name is a preference exactly when it is an enabled entry. */
  lemma PreferencesExact(t: Dict.Table<ProviderConfig>, n: string)
    requires Dict.Valid(t)
    ensures n in Preferences(t) <==> Dict.Has(t, n) && Dict.Get(t, n).value.enabled
  {
    var s := EnabledRanked(t);
    var r := SortByPriority(s);
    if n in Preferences(t) {
      var i :| 0 <= i < |r| && Preferences(t)[i] == n;
      SortedPairOrigin(t, r[i]);
    }
    if Dict.Has(t, n) && Dict.Get(t, n).value.enabled {
      var i :| 0 <= i < |t| && t[i] == Dict.Entry(n, Dict.Get(t, n).value);
      var x := Ranked(n, t[i].value.priority);
      EnabledRankedExact(t, x);
      SortSpec(s);
      assert x in multiset(r);
      var k :| 0 <= k < |r| && r[k] == x;
      assert Preferences(t)[k] == n;
    }
  }

  /** The preferences go by non-decreasing priority of their entries. */
  lemma PreferencesOrdered(t: Dict.Table<ProviderConfig>, i: nat, j: nat)
    requires Dict.Valid(t) && i < j < |Preferences(t)|
    ensures Dict.Get(t, Preferences(t)[i]).Some? && Dict.Get(t, Preferences(t)[j]).Some?
    ensures Dict.Get(t, Preferences(t)[i]).value.priority <= Dict.Get(t, Preferences(t)[j]).value.priority
  {
    var r := SortByPriority(EnabledRanked(t));
    SortSpec(EnabledRanked(t));
    SortedPairOrigin(t, r[i]);
    SortedPairOrigin(t, r[j]);
  }

  /** The position of the entry an enabled pair comes from. */
  ghost function IndexIn(t: Dict.Table<ProviderConfig>, x: Ranked): (i: nat)
    requires x in EnabledRanked(t)
    ensures i < |t| && t[i].key == x.name && t[i].value.enabled && t[i].value.priority == x.priority
  {
    EnabledRankedExact(t, x);
    var i :| 0 <= i < |t| && t[i].key == x.name && t[i].value.enabled && t[i].value.priority == x.priority;
    i
  }

  /** With the built-in table the order is gpt-oss, ollama, simple. */
  lemma DefaultPreferences()
    ensures Preferences(Defaults()) == ["gpt-oss", "ollama", "simple"]
  {
    var d := Defaults();
    assert d[0].key == "gpt-oss" && d[0].value.enabled && d[0].value.priority == 1;
    assert d[1].key == "ollama" && d[1].value.enabled && d[1].value.priority == 2;
    assert !d[2].value.enabled && !d[3].value.enabled;
    assert d[4].key == "simple" && d[4].value.enabled && d[4].value.priority == 9;
    var s := DefaultRanked(d);
    SortKeepsSorted(s);
  }

  /** The enabled pairs of a table shaped like the built-in one. */
  lemma DefaultRanked(t: Dict.Table<ProviderConfig>) returns (s: seq<Ranked>)
    requires |t| == 5
    requires t[0].key == "gpt-oss" && t[0].value.enabled && t[0].value.priority == 1
    requires t[1].key == "ollama" && t[1].value.enabled && t[1].value.priority == 2
    requires !t[2].value.enabled && !t[3].value.enabled
    requires t[4].key == "simple" && t[4].value.enabled && t[4].value.priority == 9
    ensures s == EnabledRanked(t) == [Ranked("gpt-oss", 1), Ranked("ollama", 2), Ranked("simple", 9)]
  {
    assert t[..0] == [] && t[..5] == t;
    EnabledStep(t, 0);
    EnabledStep(t, 1);
    EnabledStep(t, 2);
    EnabledStep(t, 3);
    EnabledStep(t, 4);
    s := EnabledRanked(t);
  }

  /** One more entry of the table: its pair, when enabled, is appended. */
  lemma EnabledStep(t: Dict.Table<ProviderConfig>, k: nat)
    requires k < |t|
    ensures EnabledRanked(t[..k + 1]) ==
      EnabledRanked(t[..k]) + (if t[k].value.enabled then [Ranked(t[k].key, t[k].value.priority)] else [])
  {
    assert t[..k + 1][..k] == t[..k];
  }

  /** A list already in priority order is left as it is. */
  lemma {:induction false} SortKeepsSorted(s: seq<Ranked>)
    requires SortedByPriority(s)
    ensures SortByPriority(s) == s
  {
    if s != [] {
      var m := |s| - 1;
      var init := s[..m];
      assert SortedByPriority(init) by {
        forall i, j | 0 <= i < j < m ensures init[i].priority <= init[j].priority {
          assert init[i] == s[i] && init[j] == s[j];
        }
      }
      SortKeepsSorted(init);
      if m > 0 {
        assert init[m - 1] == s[m - 1];
        assert s[m - 1].priority <= s[m].priority;
      }
      assert Insert(s[m], init) == init + [s[m]];
      assert s == init + [s[m]];
    }
  }

  // ---------------------------------------------------------------------------
  // Loading and saving
  // ---------------------------------------------------------------------------

  /** The entry built from one stored record: `enabled` defaults to true,
      `priority` to 5, `config` to `{}`. */
  function FromRecord(name: string, r: StoredEntry): (c: ProviderConfig)
    requires r.Record?
    ensures c.name == name
  {
    ProviderConfig(name, r.enabled.GetOr(true), r.priority.GetOr(5), r.config.GetOr([]))
  }

  /** Position of the first entry that is not a JSON object. */
  function FirstBad(es: Dict.Table<StoredEntry>): (k: nat)
    ensures k <= |es|
    ensures forall i :: 0 <= i < k ==> es[i].value.Record?
    ensures k < |es| ==> es[k].value.NotARecord?
  {
    if es == [] then 0
    else if es[0].value.NotARecord? then 0
    else 1 + FirstBad(es[1..])
  }

  /** Assign the records in order (entries that are not objects never reach
      here: loading stops before the first of them). */
  function PutAll(t: Dict.Table<ProviderConfig>, es: Dict.Table<StoredEntry>): Dict.Table<ProviderConfig>
  {
    if es == [] then t
    else
      var e := es[|es| - 1];
      var prior := PutAll(t, es[..|es| - 1]);
      if e.value.Record? then Dict.Put(prior, e.key, FromRecord(e.key, e.value)) else prior
  }

  /** `_create_default_config`: every built-in entry is assigned over `t`. */
  function WithDefaults(t: Dict.Table<ProviderConfig>): Dict.Table<ProviderConfig>
  {
    Dict.Update(t, Defaults())
  }

  /** What `load_config` leaves in table `t`: the built-in entries assigned over
      it when the file is missing or unreadable; otherwise the records assigned
      in order up to the first non-object entry, followed by the built-in
      entries when there is one. */
  function Reload(t: Dict.Table<ProviderConfig>, file: StoredFile): Dict.Table<ProviderConfig>
  {
    match file
    case Missing => WithDefaults(t)
    case Corrupt => WithDefaults(t)
    case Stored(es) =>
      var k := FirstBad(es);
      var t' := PutAll(t, es[..k]);
      if k < |es| then WithDefaults(t') else t'
  }

  /** What a new manager holds after loading the file. */
  function Load(file: StoredFile): Dict.Table<ProviderConfig>
  {
    Reload([], file)
  }

  /** Loading keeps every entry under its own name. */
  lemma ReloadWellFormed(t: Dict.Table<ProviderConfig>, file: StoredFile)
    requires WellFormed(t)
    ensures WellFormed(Reload(t, file))
  {
    if file.Stored? {
      ReloadStoredWellFormed(t, file.entries);
    } else {
      WithDefaultsWellFormed(t);
      assert Reload(t, file) == WithDefaults(t);
    }
  }

  lemma ReloadStoredWellFormed(t: Dict.Table<ProviderConfig>, es: Dict.Table<StoredEntry>)
    requires WellFormed(t)
    ensures WellFormed(Reload(t, Stored(es)))
  {
    var k := FirstBad(es);
    var t' := PutAll(t, es[..k]);
    PutAllWellFormed(t, es[..k]);
    if k < |es| {
      WithDefaultsWellFormed(t');
    }
  }

  lemma WithDefaultsWellFormed(t: Dict.Table<ProviderConfig>)
    requires WellFormed(t)
    ensures WellFormed(WithDefaults(t))
  {
    DefaultsWellFormed();
    UpdateWellFormed(t, Defaults());
  }

  /** Assigning a config under its own name keeps the table well formed. */
  lemma PutWellFormed(t: Dict.Table<ProviderConfig>, k: string, c: ProviderConfig)
    requires WellFormed(t) && c.name == k
    ensures WellFormed(Dict.Put(t, k, c))
  {
    var t' := Dict.Put(t, k, c);
    Dict.PutValid(t, k, c);
    forall i | 0 <= i < |t'| ensures t'[i].value.name == t'[i].key {
      Dict.GetAt(t', i);
      Dict.PutGet(t, k, c, t'[i].key);
      if t'[i].key != k {
        Dict.GetAt(t, IndexOfKey(t, t'[i].key));
      }
    }
  }

  lemma {:induction false} PutAllWellFormed(t: Dict.Table<ProviderConfig>, es: Dict.Table<StoredEntry>)
    requires WellFormed(t)
    ensures WellFormed(PutAll(t, es))
  {
    if es != [] {
      var e := es[|es| - 1];
      PutAllWellFormed(t, es[..|es| - 1]);
      if e.value.Record? {
        PutWellFormed(PutAll(t, es[..|es| - 1]), e.key, FromRecord(e.key, e.value));
      }
    }
  }

  lemma {:induction false} UpdateWellFormed(t: Dict.Table<ProviderConfig>, u: Dict.Table<ProviderConfig>)
    requires WellFormed(t) && WellFormed(u)
    ensures WellFormed(Dict.Update(t, u))
    decreases |u|
  {
    if u != [] {
      PutWellFormed(t, u[0].key, u[0].value);
      Dict.TailValid(u);
      UpdateWellFormed(Dict.Put(t, u[0].key, u[0].value), u[1..]);
    }
  }

  /** What `save_config` writes. */
  function Snapshot(t: Dict.Table<ProviderConfig>): (f: StoredFile)
    ensures f.Stored? && Dict.Keys(f.entries) == Dict.Keys(t)
  {
    Stored(Dict.MapValues(t, (c: ProviderConfig) => Record(Some(c.enabled), Some(c.priority), Some(c.config))))
  }

  /** Loading the written file gives the same table back. */
  lemma SaveLoad(t: Dict.Table<ProviderConfig>)
    requires WellFormed(t)
    ensures Load(Snapshot(t)) == t
  {
    var es := Snapshot(t).entries;
    forall i | 0 <= i < |es| ensures es[i].value.Record? {
      SnapshotAt(t, i);
    }
    FirstBadNone(es);
    assert es[..|es|] == es;
    PutAllSnapshot(t, |t|);
    assert t[..|t|] == t;
  }

  lemma FirstBadNone(es: Dict.Table<StoredEntry>)
    requires forall i :: 0 <= i < |es| ==> es[i].value.Record?
    ensures FirstBad(es) == |es|
  {
    if es != [] {
      FirstBadNone(es[1..]);
    }
  }

  /** The stored record of an entry reads back as the entry. */
  lemma SnapshotAt(t: Dict.Table<ProviderConfig>, j: nat)
    requires WellFormed(t) && j < |t|
    ensures Snapshot(t).entries[j].key == t[j].key
    ensures Snapshot(t).entries[j].value.Record?
    ensures FromRecord(t[j].key, Snapshot(t).entries[j].value) == t[j].value
  {
  }

  lemma {:induction false} PutAllSnapshot(t: Dict.Table<ProviderConfig>, k: nat)
    requires WellFormed(t) && k <= |t|
    ensures PutAll([], Snapshot(t).entries[..k]) == t[..k]
  {
    if k > 0 {
      var j := k - 1;
      PutAllSnapshot(t, j);
      SnapshotAt(t, j);
      PutAllStep([], Snapshot(t).entries, j);
      Dict.PutNext(t, j);
    }
  }

  /** One more stored entry: a record is assigned over what came before. */
  lemma PutAllStep(t: Dict.Table<ProviderConfig>, es: Dict.Table<StoredEntry>, j: nat)
    requires j < |es|
    ensures PutAll(t, es[..j + 1]) ==
      if es[j].value.Record? then Dict.Put(PutAll(t, es[..j]), es[j].key, FromRecord(es[j].key, es[j].value))
      else PutAll(t, es[..j])
  {
    assert es[..j + 1][..j] == es[..j];
  }

  /** Starting from nothing, the built-in entries are the whole table. */
  lemma DefaultsFromEmpty()
    ensures WithDefaults([]) == Defaults()
  {
    DefaultsWellFormed();
    Dict.UpdateFresh([], Defaults());
  }

  // ---------------------------------------------------------------------------
  // Summary
  // ---------------------------------------------------------------------------

  const SummaryHeader := "AIプロバイダー設定一覧:"

  /** The status mark of an entry. */
  function Mark(enabled: bool): string
  {
    if enabled then EnabledMark else DisabledMark
  }

  const EnabledMark := "🟢"
  const DisabledMark := "🔴"
  const NumberDot := ". "
  const Space := " "
  const PriorityOpen := " (優先度: "
  const PriorityClose := ")"

  /** A numbered line up to its priority. */
  function LineHead(i: nat, name: string, enabled: bool): string
  {
    NatToString(i) + NumberDot + Mark(enabled) + Space + name + PriorityOpen
  }

  /** One numbered line of `get_config_summary`, before rendering. */
  datatype Row = Row(number: nat, name: string, config: ProviderConfig)

  /** The rendered line `"{i}. {status} {name} (優先度: {priority})"`. */
  function Render(r: Row): string
  {
    LineHead(r.number, r.name, r.config.enabled) + (IntToString(r.config.priority) + PriorityClose)
  }

  /** The rows for `names`, numbered from 1, each looked up in `t`. */
  function SummaryRows(t: Dict.Table<ProviderConfig>, names: seq<string>): (rows: seq<Row>)
    requires forall i :: 0 <= i < |names| ==> Dict.Has(t, names[i])
    ensures |rows| == |names|
  {
    if names == [] then []
    else
      var m := |names| - 1;
      SummaryRows(t, names[..m]) + [Row(|names|, names[m], Dict.Get(t, names[m]).value)]
  }

  /** Row `k` (from 0) is numbered `k + 1` and describes the `k`-th name. */
  lemma {:induction false} SummaryRowsNumbered(t: Dict.Table<ProviderConfig>, names: seq<string>, k: nat)
    requires forall i :: 0 <= i < |names| ==> Dict.Has(t, names[i])
    requires k < |names|
    ensures SummaryRows(t, names)[k] == Row(k + 1, names[k], Dict.Get(t, names[k]).value)
  {
    var m := |names| - 1;
    var init := names[..m];
    var rows := SummaryRows(t, names);
    assert rows == SummaryRows(t, init) + [Row(|names|, names[m], Dict.Get(t, names[m]).value)];
    if k < m {
      SummaryRowsNumbered(t, init, k);
      assert rows[k] == SummaryRows(t, init)[k] && init[k] == names[k];
    } else {
      assert |SummaryRows(t, init)| == k;
    }
  }

  /** `get_config_summary` of a table. */
  function SummaryText(t: Dict.Table<ProviderConfig>, names: seq<string>): string
    requires forall i :: 0 <= i < |names| ==> Dict.Has(t, names[i])
  {
    Join([SummaryHeader] + Map(SummaryRows(t, names), Render), "\n")
  }

  /** A rendered line starts with its number, its mark and its name, and holds
      no newline when the name holds none. */
  lemma RenderShape(r: Row)
    requires '\n' !in r.name
    ensures IsPrefix(LineHead(r.number, r.name, r.config.enabled), Render(r))
    ensures '\n' !in Render(r)
  {
    var head := LineHead(r.number, r.name, r.config.enabled);
    var tail := IntToString(r.config.priority) + PriorityClose;
    PrefixOfConcat(head, tail);
    var digits := NatToString(r.number);
    assert '\n' !in digits;
    assert '\n' !in IntToString(r.config.priority);
    assert head == digits + NumberDot + Mark(r.config.enabled) + Space + r.name + PriorityOpen;
  }

  // ---------------------------------------------------------------------------
  // The manager
  // ---------------------------------------------------------------------------

  class AIProviderConfigManager {
    var providers: Dict.Table<ProviderConfig>
    /** The content of the configuration file. */
    var file: StoredFile

    ghost predicate Valid()
      reads this
    {
      WellFormed(providers)
    }

    /** `AIProviderConfigManager()`: load the file into an empty table; the
        built-in table is written back whenever it was used. */
    constructor (stored: StoredFile)
      ensures Valid()
      ensures providers == Load(stored)
      ensures file == (if stored.Stored? && FirstBad(stored.entries) == |stored.entries| then stored else Snapshot(providers))
    {
      providers := [];
      file := stored;
      new;
      LoadConfig();
    }

    /** `load_config`: read the file into the current table, one record at a
        time; entries already present and not in the file stay. */
    method LoadConfig()
      requires Valid()
      modifies this
      ensures Valid()
      ensures providers == Reload(old(providers), old(file))
      ensures file == (if old(file).Stored? && FirstBad(old(file).entries) == |old(file).entries| then old(file) else Snapshot(providers))
    {
      ReloadWellFormed(providers, file);
      if file.Stored? {
        var es := file.entries;
        var complete := LoadRecords(es);
        if !complete {
          CreateDefaultConfig();
        }
      } else {
        CreateDefaultConfig();
      }
    }

    /** The loop of `load_config`, stopping at the first entry that is not an object. */
    method LoadRecords(es: Dict.Table<StoredEntry>) returns (complete: bool)
      modifies this
      ensures complete <==> FirstBad(es) == |es|
      ensures providers == PutAll(old(providers), es[..FirstBad(es)]) && file == old(file)
    {
      var i := 0;
      while i < |es| && es[i].value.Record?
        invariant 0 <= i <= FirstBad(es)
        invariant providers == PutAll(old(providers), es[..i])
        invariant file == old(file)
      {
        PutAllStep(old(providers), es, i);
        providers := Dict.Put(providers, es[i].key, FromRecord(es[i].key, es[i].value));
        i := i + 1;
      }
      complete := i == |es|;
    }

    /** `_create_default_config`: assign the built-in entries, then save. */
    method CreateDefaultConfig()
      modifies this
      ensures providers == WithDefaults(old(providers))
      ensures file == Snapshot(providers)
    {
      providers := Dict.Update(providers, Defaults());
      SaveConfig();
    }

    /** `save_config`. */
    method SaveConfig()
      modifies this
      ensures file == Snapshot(providers) && providers == old(providers)
    {
      file := Snapshot(providers);
    }

    /** `set_provider_enabled`: only the flag of a known entry changes (and the
        file is rewritten); an unknown name changes nothing. */
    method SetProviderEnabled(name: string, enabled: bool)
      requires Valid()
      modifies this
      ensures Valid()
      ensures Dict.Keys(providers) == Dict.Keys(old(providers))
      ensures forall k :: k != name ==> Dict.Get(providers, k) == Dict.Get(old(providers), k)
      ensures Dict.Has(old(providers), name) ==>
        Dict.Get(providers, name) == Some(Dict.Get(old(providers), name).value.(enabled := enabled)) && file == Snapshot(providers)
      ensures !Dict.Has(old(providers), name) ==> providers == old(providers) && file == old(file)
    {
      if Dict.Has(providers, name) {
        ReplaceEntry(name, Dict.Get(providers, name).value.(enabled := enabled));
        SaveConfig();
      }
    }

    /** `set_provider_priority`: as for the flag, with the priority. */
    method SetProviderPriority(name: string, priority: int)
      requires Valid()
      modifies this
      ensures Valid()
      ensures Dict.Keys(providers) == Dict.Keys(old(providers))
      ensures forall k :: k != name ==> Dict.Get(providers, k) == Dict.Get(old(providers), k)
      ensures Dict.Has(old(providers), name) ==>
        Dict.Get(providers, name) == Some(Dict.Get(old(providers), name).value.(priority := priority)) && file == Snapshot(providers)
      ensures !Dict.Has(old(providers), name) ==> providers == old(providers) && file == old(file)
    {
      if Dict.Has(providers, name) {
        ReplaceEntry(name, Dict.Get(providers, name).value.(priority := priority));
        SaveConfig();
      }
    }

    /** `set_provider_config`: merge into a known entry's settings; an unknown
        name becomes a new enabled entry of priority 5. The file is rewritten. */
    method SetProviderConfig(name: string, config: Dict.Table<Value>)
      requires Valid()
      modifies this
      ensures Valid() && file == Snapshot(providers)
      ensures forall k :: k != name ==> Dict.Get(providers, k) == Dict.Get(old(providers), k)
      ensures Dict.Has(old(providers), name) ==>
        var c := Dict.Get(old(providers), name).value;
        Dict.Keys(providers) == Dict.Keys(old(providers))
        && Dict.Get(providers, name) == Some(c.(config := Dict.Update(c.config, config)))
      ensures !Dict.Has(old(providers), name) ==>
        providers == old(providers) + [Dict.Entry(name, ProviderConfig(name, true, 5, config))]
    {
      if Dict.Has(providers, name) {
        var c := Dict.Get(providers, name).value;
        ReplaceEntry(name, c.(config := Dict.Update(c.config, config)));
      } else {
        AddEntry(name, ProviderConfig(name, true, 5, config));
      }
      SaveConfig();
    }

    /** `get_provider_config`: `None` for an unknown name. */
    function GetProviderConfig(name: string): (r: Option<Dict.Table<Value>>)
      reads this
      ensures r.None? <==> !Dict.Has(providers, name)
      ensures r.Some? ==> exists i :: 0 <= i < |providers| && providers[i].key == name && providers[i].value.config == r.value
    {
      match Dict.Get(providers, name)
      case None => None
      case Some(c) => Some(c.config)
    }

    /** `get_all_configs`: every entry without its name, in table order. */
    function GetAllConfigs(): (r: Dict.Table<StoredEntry>)
      reads this
      ensures Dict.Keys(r) == Dict.Keys(providers)
      ensures forall i :: 0 <= i < |r| ==>
        r[i].value == Record(Some(providers[i].value.enabled), Some(providers[i].value.priority), Some(providers[i].value.config))
    {
      Snapshot(providers).entries
    }

    /** `add_provider`: assign (overwriting any entry of that name), then save. */
    method AddProvider(name: string, enabled: bool, priority: int, config: Option<Dict.Table<Value>>)
      requires Valid()
      modifies this
      ensures Valid() && file == Snapshot(providers)
      ensures Dict.Get(providers, name) == Some(ProviderConfig(name, enabled, priority, config.GetOr([])))
      ensures forall k :: k != name ==> Dict.Get(providers, k) == Dict.Get(old(providers), k)
      ensures Dict.Keys(providers) == if Dict.Has(old(providers), name) then Dict.Keys(old(providers))
                                      else Dict.Keys(old(providers)) + [name]
    {
      var c := ProviderConfig(name, enabled, priority, config.GetOr([]));
      if Dict.Has(providers, name) {
        ReplaceEntry(name, c);
      } else {
        AddEntry(name, c);
      }
      SaveConfig();
    }

    /** `remove_provider`: a known entry goes (and the file is rewritten); an
        unknown name changes nothing. */
    method RemoveProvider(name: string)
      requires Valid()
      modifies this
      ensures Valid()
      ensures !Dict.Has(providers, name)
      ensures forall k :: k != name ==> Dict.Get(providers, k) == Dict.Get(old(providers), k)
      ensures Dict.Has(old(providers), name) ==> file == Snapshot(providers)
      ensures !Dict.Has(old(providers), name) ==> providers == old(providers) && file == old(file)
    {
      if Dict.Has(providers, name) {
        Dict.RemoveValid(providers, name);
        providers := Dict.Remove(providers, name);
        forall i | 0 <= i < |providers| ensures providers[i].value.name == providers[i].key {
          Dict.GetAt(providers, i);
          assert Dict.Get(old(providers), providers[i].key) == Some(providers[i].value);
          var j :| 0 <= j < |old(providers)| && old(providers)[j] == Dict.Entry(providers[i].key, providers[i].value);
        }
        SaveConfig();
      }
    }

    /** `reset_to_defaults`: the built-in table, whatever came before. */
    method ResetToDefaults()
      modifies this
      ensures providers == Defaults() && Valid()
      ensures file == Snapshot(Defaults())
    {
      providers := [];
      CreateDefaultConfig();
      DefaultsFromEmpty();
      DefaultsWellFormed();
    }

    /** `export_config`: the copy `shutil.copy2` writes; `None` when the
        configuration file does not exist and the copy raises. */
    function ExportConfig(): (copy: Option<StoredFile>)
      reads this
      ensures copy.None? <==> file.Missing?
      ensures copy.Some? ==> copy.value == file
    {
      if file.Missing? then None else Some(file)
    }

    /** `import_config`: copy the given file over the configuration file and
        load it into the current table; a missing source raises before
        anything changes. */
    method ImportConfig(source: StoredFile)
      requires Valid()
      modifies this
      ensures Valid()
      ensures source.Missing? ==> providers == old(providers) && file == old(file)
      ensures !source.Missing? ==> providers == Reload(old(providers), source)
      ensures !source.Missing? ==>
        file == (if source.Stored? && FirstBad(source.entries) == |source.entries| then source else Snapshot(providers))
    {
      if !source.Missing? {
        file := source;
        LoadConfig();
      }
    }

    /** `get_config_summary`: the header, then one numbered line per preference. */
    method GetConfigSummary() returns (text: string)
      requires Valid()
      ensures forall i :: 0 <= i < |Preferences(providers)| ==> Dict.Has(providers, Preferences(providers)[i])
      ensures text == SummaryText(providers, Preferences(providers))
    {
      var prefs := Preferences(providers);
      forall i | 0 <= i < |prefs| ensures Dict.Has(providers, prefs[i]) {
        PreferencesExact(providers, prefs[i]);
      }
      var lines := RenderLines(prefs);
      text := Join([SummaryHeader] + lines, "\n");
    }

    /** The loop of `get_config_summary`. */
    method RenderLines(names: seq<string>) returns (lines: seq<string>)
      requires forall i :: 0 <= i < |names| ==> Dict.Has(providers, names[i])
      ensures lines == Map(SummaryRows(providers, names), Render)
    {
      lines := [];
      var i := 0;
      while i < |names|
        invariant 0 <= i <= |names|
        invariant lines == Map(SummaryRows(providers, names[..i]), Render)
      {
        assert names[..i + 1][..i] == names[..i];
        var c := Dict.Get(providers, names[i]).value;
        MapSnoc(SummaryRows(providers, names[..i]), Row(i + 1, names[i], c), Render);
        lines := lines + [Render(Row(i + 1, names[i], c))];
        i := i + 1;
      }
      assert names[..i] == names;
    }

    /** Assign a key not yet present: the entry goes at the end. */
    method AddEntry(name: string, c: ProviderConfig)
      requires Valid() && !Dict.Has(providers, name) && c.name == name
      modifies this
      ensures Valid() && file == old(file)
      ensures providers == old(providers) + [Dict.Entry(name, c)]
      ensures Dict.Keys(providers) == Dict.Keys(old(providers)) + [name]
      ensures Dict.Get(providers, name) == Some(c)
      ensures forall k :: k != name ==> Dict.Get(providers, k) == Dict.Get(old(providers), k)
    {
      var before := providers;
      Dict.PutNew(before, name, c);
      providers := Dict.Put(before, name, c);
      WellFormedSnoc(before, Dict.Entry(name, c));
      Dict.KeysSnoc(before, Dict.Entry(name, c));
      forall k ensures Dict.Get(providers, k) == if k == name then Some(c) else Dict.Get(before, k) {
        Dict.PutGet(before, name, c, k);
      }
    }

    /** Replace the value of a present key in place. */
    method ReplaceEntry(name: string, c: ProviderConfig)
      requires Valid() && Dict.Has(providers, name) && c.name == name
      modifies this
      ensures Valid() && file == old(file)
      ensures Dict.Keys(providers) == Dict.Keys(old(providers))
      ensures Dict.Get(providers, name) == Some(c)
      ensures forall k :: k != name ==> Dict.Get(providers, k) == Dict.Get(old(providers), k)
    {
      var before := providers;
      providers := Dict.Put(providers, name, c);
      PutWellFormed(before, name, c);
      forall k ensures Dict.Get(providers, k) == if k == name then Some(c) else Dict.Get(before, k) {
        Dict.PutGet(before, name, c, k);
      }
    }
  }

  /** The position of a present key. */
  ghost function IndexOfKey<V>(d: Dict.Table<V>, k: string): (i: nat)
    requires Dict.Has(d, k)
    ensures i < |d| && d[i].key == k
  {
    var i :| 0 <= i < |d| && Dict.Keys(d)[i] == k;
    i
  }

  lemma WellFormedSnoc(t: Dict.Table<ProviderConfig>, e: Dict.Entry<ProviderConfig>)
    requires WellFormed(t) && !Dict.Has(t, e.key) && e.value.name == e.key
    ensures WellFormed(t + [e])
  {
    Dict.KeysSnoc(t, e);
  }

  /** Line `k` of the rendered rows of enabled, newline-free names starts with
      number `k + 1` and the `k`-th name, and holds no newline. */
  lemma SummaryLineAt(t: Dict.Table<ProviderConfig>, names: seq<string>, k: nat)
    requires forall i :: 0 <= i < |names| ==> Dict.Has(t, names[i])
    requires k < |names| && Dict.Get(t, names[k]).value.enabled && '\n' !in names[k]
    ensures '\n' !in Map(SummaryRows(t, names), Render)[k]
    ensures IsPrefix(LineHead(k + 1, names[k], true), Map(SummaryRows(t, names), Render)[k])
  {
    var rows := SummaryRows(t, names);
    SummaryRowsNumbered(t, names, k);
    RenderShape(rows[k]);
  }

  /** The lines of the summary of enabled, newline-free names: none holds a
      newline, and line `k + 1` starts with number `k + 1` and the `k`-th name. */
  lemma SummaryParts(t: Dict.Table<ProviderConfig>, names: seq<string>)
    requires forall i :: 0 <= i < |names| ==> Dict.Has(t, names[i]) && Dict.Get(t, names[i]).value.enabled && '\n' !in names[i]
    ensures forall i :: 0 <= i < |names| + 1 ==> '\n' !in ([SummaryHeader] + Map(SummaryRows(t, names), Render))[i]
    ensures forall k :: 0 <= k < |names| ==>
      IsPrefix(LineHead(k + 1, names[k], true), ([SummaryHeader] + Map(SummaryRows(t, names), Render))[k + 1])
  {
    var lines := Map(SummaryRows(t, names), Render);
    forall k | 0 <= k < |names|
      ensures '\n' !in lines[k] && IsPrefix(LineHead(k + 1, names[k], true), lines[k])
    {
      SummaryLineAt(t, names, k);
    }
    assert '\n' !in SummaryHeader;
    HeadedLines(SummaryHeader, lines, names);
  }

  /** The header followed by the lines: line `k + 1` of the whole is line `k`. */
  lemma HeadedLines(h: string, lines: seq<string>, names: seq<string>)
    requires '\n' !in h && |lines| == |names|
    requires forall k :: 0 <= k < |lines| ==> '\n' !in lines[k] && IsPrefix(LineHead(k + 1, names[k], true), lines[k])
    ensures forall i :: 0 <= i < |names| + 1 ==> '\n' !in ([h] + lines)[i]
    ensures forall k :: 0 <= k < |names| ==> IsPrefix(LineHead(k + 1, names[k], true), ([h] + lines)[k + 1])
  {
    ConsFree(h, lines, '\n');
    forall k | 0 <= k < |names| ensures ([h] + lines)[k + 1] == lines[k] {
    }
  }

  /** Every summary line names a preference, in order, numbered from 1: the text
      splits back into the header and those lines when no name holds a newline. */
  lemma SummaryListsPreferences(t: Dict.Table<ProviderConfig>)
    requires Dict.Valid(t)
    requires forall i :: 0 <= i < |t| ==> '\n' !in t[i].key
    ensures forall i :: 0 <= i < |Preferences(t)| ==> Dict.Has(t, Preferences(t)[i])
    ensures |Split(SummaryText(t, Preferences(t)), '\n')| == |Preferences(t)| + 1
    ensures Split(SummaryText(t, Preferences(t)), '\n')[0] == SummaryHeader
    ensures forall k :: 0 <= k < |Preferences(t)| ==>
      IsPrefix(LineHead(k + 1, Preferences(t)[k], true), Split(SummaryText(t, Preferences(t)), '\n')[k + 1])
  {
    var names := Preferences(t);
    forall i | 0 <= i < |names| ensures Dict.Has(t, names[i]) && Dict.Get(t, names[i]).value.enabled && '\n' !in names[i] {
      PreferencesExact(t, names[i]);
      var j := IndexOfKey(t, names[i]);
    }
    SummaryParts(t, names);
    SplitJoin([SummaryHeader] + Map(SummaryRows(t, names), Render), '\n');
  }
}

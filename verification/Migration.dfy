/**
 The migration of strategy configurations to the composition architecture and its rollback. Parameter
 dictionaries keep insertion order, since a renaming that merges keys lets the last one win.
 */
module Migration {
  import opened Prelude

  /** A parameter value; the composition flag is the literal `True`. */
  datatype Value = True | Other(text: string)

  datatype Param = Param(key: string, value: Value)

  type Dict = seq<Param>

  function Get(d: Dict, key: string): Option<Value> {
    if d == [] then None else if d[0].key == key then Some(d[0].value) else Get(d[1..], key)
  }

  predicate HasKey(d: Dict, key: string) {
    Get(d, key).Some?
  }

  /** Dictionaries have no repeated key. */
  predicate IsDict(d: Dict) {
    d == [] || (!HasKey(d[1..], d[0].key) && IsDict(d[1..]))
  }

  /** `d[key] = value`: overwrite in place, or insert at the end. */
  function Put(d: Dict, key: string, value: Value): Dict {
    if d == [] then [Param(key, value)]
    else if d[0].key == key then [Param(key, value)] + d[1..]
    else [d[0]] + Put(d[1..], key, value)
  }

  function Remove(d: Dict, key: string): Dict {
    if d == [] then [] else if d[0].key == key then d[1..] else [d[0]] + Remove(d[1..], key)
  }

  /** A mapping table, in the order it is written down. */
  datatype Rule = Rule(from: string, to: string)

  type Table = seq<Rule>

  function Target(table: Table, key: string): Option<string> {
    if table == [] then None
    else if table[|table| - 1].from == key then Some(table[|table| - 1].to)
    else Target(table[..|table| - 1], key)
  }

  /** `{v: k for k, v in table.items()}`: of several sources of a target the last one wins. */
  function Origin(table: Table, target: string): Option<string> {
    if table == [] then None
    else if table[|table| - 1].to == target then Some(table[|table| - 1].from)
    else Origin(table[..|table| - 1], target)
  }

  function Forward(table: Table, key: string): string {
    if Target(table, key).Some? then Target(table, key).value else key
  }

  function Backward(table: Table, key: string): string {
    if Origin(table, key).Some? then Origin(table, key).value else key
  }

  function NewKey(table: Table, back: bool, key: string): string {
    if back then Backward(table, key) else Forward(table, key)
  }

  /** The loop over a dictionary's items that fills a new one under renamed keys. */
  function Rename(acc: Dict, d: Dict, table: Table, back: bool): Dict
    decreases |d|
  {
    if d == [] then acc
    else Rename(Put(acc, NewKey(table, back, d[0].key), d[0].value), d[1..], table, back)
  }

  // The tables.

  const FLAG := "use_composition"

  const TYPES: Table := [
    Rule("SimpleMomentumStrategy", "MomentumProcessor"),
    Rule("MomentumStrategy", "MomentumProcessor"),
    Rule("MeanReversionStrategy", "MeanReversionProcessor")]

  const MOMENTUM: Table := [Rule("lookback_period", "lookback_periods")]

  const MEAN_REVERSION: Table := [
    Rule("lookback_period", "lookback_periods"),
    Rule("window_size", "lookback_periods"),
    Rule("std_dev_threshold", "std_deviation_threshold"),
    Rule("entry_threshold", "std_deviation_threshold")]

  /** Renames for a composition type; other types keep their parameters. */
  function Parameters(kind: string): Table {
    if kind == "MomentumProcessor" then MOMENTUM
    else if kind == "MeanReversionProcessor" then MEAN_REVERSION
    else []
  }

  datatype Strategy = Strategy(kind: string, params: Dict)

  /** `hasColumn`: the row type has its own `use_composition` attribute, so no flag is added. */
  function Migrate(s: Strategy, hasColumn: bool): Strategy {
    var kind := Target(TYPES, s.kind);
    if kind.None? then s
    else
      var params := Rename([], s.params, Parameters(kind.value), false);
      Strategy(kind.value, if hasColumn then params else Put(params, FLAG, True))
  }

  function Rollback(s: Strategy): Strategy {
    var kind := Origin(TYPES, s.kind);
    if kind.None? then s
    else Strategy(kind.value, Rename([], Remove(s.params, FLAG), Parameters(s.kind), true))
  }

  /** A table is one-way when its sources are distinct and no target is also a source. */
  predicate OneWay(table: Table) {
    && (forall i, j :: 0 <= i < j < |table| ==> table[i].from != table[j].from)
    && (forall i, j :: 0 <= i < |table| && 0 <= j < |table| ==> table[i].from != table[j].to)
  }

  lemma TypesOneWay()
    ensures OneWay(TYPES)
  {
  }

  predicate AvoidsFlag(table: Table) {
    forall i :: 0 <= i < |table| ==> table[i].from != FLAG && table[i].to != FLAG
  }

  lemma MeanReversionOneWay()
    ensures OneWay(MEAN_REVERSION) && AvoidsFlag(MEAN_REVERSION)
  {
    // sources and targets differ in length, and the two sources of equal length in their first letter
    var table := MEAN_REVERSION;
    assert |table[0].from| == 15 && |table[1].from| == 11 && |table[2].from| == 17 && |table[3].from| == 15;
    assert table[0].from[0] == 'l' && table[3].from[0] == 'e' && FLAG[0] == 'u';
    assert forall i :: 0 <= i < |table| ==> |table[i].to| in {16, 23};
  }

  lemma MomentumOneWay()
    ensures OneWay(MOMENTUM) && AvoidsFlag(MOMENTUM)
  {
    assert |MOMENTUM[0].from| == 15 && |MOMENTUM[0].to| == 16 && |FLAG| == 15;
    assert MOMENTUM[0].from[0] == 'l' && FLAG[0] == 'u';
  }

  lemma ParametersOneWay(kind: string)
    ensures OneWay(Parameters(kind)) && AvoidsFlag(Parameters(kind))
  {
    MeanReversionOneWay();
    MomentumOneWay();
  }

  // Lookups.

  lemma {:induction false} TargetSpec(table: Table, key: string)
    ensures match Target(table, key)
      case None => forall i :: 0 <= i < |table| ==> table[i].from != key
      case Some(t) => exists i :: 0 <= i < |table| && table[i] == Rule(key, t)
  {
    if table != [] && table[|table| - 1].from != key {
      TargetSpec(table[..|table| - 1], key);
    }
  }

  lemma {:induction false} OriginSpec(table: Table, target: string)
    ensures match Origin(table, target)
      case None => forall i :: 0 <= i < |table| ==> table[i].to != target
      case Some(f) => exists i :: 0 <= i < |table| && table[i] == Rule(f, target)
  {
    if table != [] && table[|table| - 1].to != target {
      OriginSpec(table[..|table| - 1], target);
    }
  }

  predicate IsSource(table: Table, key: string) {
    Target(table, key).Some?
  }

  /** Renaming forward leaves no source behind; renaming back and forth is the identity off the sources. */
  lemma RenamesCancel(table: Table, key: string)
    requires OneWay(table)
    ensures !IsSource(table, Forward(table, key))
    ensures !IsSource(table, key) ==> Forward(table, Backward(table, key)) == key
  {
    TargetSpec(table, key);
    TargetSpec(table, Forward(table, key));
    OriginSpec(table, key);
    TargetSpec(table, Backward(table, key));
  }

  // Dictionaries.

  lemma {:induction false} PutGet(d: Dict, k: string, v: Value, x: string)
    ensures Get(Put(d, k, v), x) == if x == k then Some(v) else Get(d, x)
  {
    if d != [] && d[0].key != k {
      PutGet(d[1..], k, v, x);
    }
  }

  lemma {:induction false} PutIsDict(d: Dict, k: string, v: Value)
    requires IsDict(d)
    ensures IsDict(Put(d, k, v))
  {
    if d != [] && d[0].key != k {
      PutIsDict(d[1..], k, v);
      PutGet(d[1..], k, v, d[0].key);
    }
  }

  lemma {:induction false} PutFresh(d: Dict, k: string, v: Value)
    requires !HasKey(d, k)
    ensures Put(d, k, v) == d + [Param(k, v)]
  {
    if d != [] {
      PutFresh(d[1..], k, v);
    }
  }

  lemma {:induction false} RemoveGet(d: Dict, k: string, x: string)
    requires IsDict(d)
    ensures Get(Remove(d, k), x) == if x == k then None else Get(d, x)
    ensures IsDict(Remove(d, k))
  {
    if d != [] && d[0].key != k {
      RemoveGet(d[1..], k, x);
      RemoveGet(d[1..], k, d[0].key);
    }
  }

  lemma {:induction false} RemoveAbsent(d: Dict, k: string)
    requires !HasKey(d, k)
    ensures Remove(d, k) == d
  {
    if d != [] {
      RemoveAbsent(d[1..], k);
    }
  }

  lemma {:induction false} RemoveLast(d: Dict, k: string, v: Value)
    requires !HasKey(d, k)
    ensures Remove(d + [Param(k, v)], k) == d
  {
    var longer := d + [Param(k, v)];
    if d == [] {
      assert longer[1..] == [];
    } else {
      assert longer[0] == d[0] && longer[1..] == d[1..] + [Param(k, v)];
      RemoveLast(d[1..], k, v);
    }
  }

  // Renaming a dictionary.

  /** The value of the last item that is renamed to `key`, or what was there before. */
  function LastRenamed(acc: Dict, d: Dict, table: Table, back: bool, key: string): Option<Value>
    decreases |d|
  {
    if d == [] then Get(acc, key)
    else if NewKey(table, back, d[|d| - 1].key) == key then Some(d[|d| - 1].value)
    else LastRenamed(acc, d[..|d| - 1], table, back, key)
  }

  lemma {:induction false} RenameSnoc(acc: Dict, d: Dict, p: Param, table: Table, back: bool)
    ensures Rename(acc, d + [p], table, back) == Put(Rename(acc, d, table, back), NewKey(table, back, p.key), p.value)
    decreases |d|
  {
    if d == [] {
      assert d + [p] == [p];
    } else {
      assert (d + [p])[1..] == d[1..] + [p];
      RenameSnoc(Put(acc, NewKey(table, back, d[0].key), d[0].value), d[1..], p, table, back);
    }
  }

  /** Keys that collide under the renaming: the last one wins. */
  lemma {:induction false} LastWins(acc: Dict, d: Dict, table: Table, back: bool, key: string)
    ensures Get(Rename(acc, d, table, back), key) == LastRenamed(acc, d, table, back, key)
    decreases |d|
  {
    if d != [] {
      var n := |d| - 1;
      assert d == d[..n] + [d[n]];
      RenameSnoc(acc, d[..n], d[n], table, back);
      LastWins(acc, d[..n], table, back, key);
      PutGet(Rename(acc, d[..n], table, back), NewKey(table, back, d[n].key), d[n].value, key);
    }
  }

  lemma {:induction false} RenameIsDict(acc: Dict, d: Dict, table: Table, back: bool)
    requires IsDict(acc)
    ensures IsDict(Rename(acc, d, table, back))
    decreases |d|
  {
    if d != [] {
      PutIsDict(acc, NewKey(table, back, d[0].key), d[0].value);
      RenameIsDict(Put(acc, NewKey(table, back, d[0].key), d[0].value), d[1..], table, back);
    }
  }

  ghost predicate NoSources(d: Dict, table: Table) {
    forall k :: HasKey(d, k) ==> !IsSource(table, k)
  }

  lemma {:induction false} ForwardLeavesNoSources(acc: Dict, d: Dict, table: Table)
    requires OneWay(table) && NoSources(acc, table)
    ensures NoSources(Rename(acc, d, table, false), table)
    decreases |d|
  {
    if d != [] {
      var k := Forward(table, d[0].key);
      RenamesCancel(table, d[0].key);
      forall x | HasKey(Put(acc, k, d[0].value), x) ensures !IsSource(table, x) {
        PutGet(acc, k, d[0].value, x);
      }
      ForwardLeavesNoSources(Put(acc, k, d[0].value), d[1..], table);
    }
  }

  /** Item by item renaming, with no regard to collisions. */
  function MapKeys(d: Dict, table: Table, back: bool): Dict {
    if d == [] then [] else [Param(NewKey(table, back, d[0].key), d[0].value)] + MapKeys(d[1..], table, back)
  }

  lemma {:induction false} GetAppend(a: Dict, b: Dict, k: string)
    ensures Get(a + b, k) == if HasKey(a, k) then Get(a, k) else Get(b, k)
  {
    if a == [] {
      assert a + b == b;
    } else {
      assert (a + b)[1..] == a[1..] + b;
      GetAppend(a[1..], b, k);
    }
  }

  ghost predicate Disjoint(a: Dict, b: Dict) {
    forall k :: HasKey(a, k) ==> !HasKey(b, k)
  }

  /** Moving the head of one dictionary to the end of another keeps them disjoint. */
  lemma DisjointMove(a: Dict, b: Dict)
    requires a != [] && IsDict(a) && Disjoint(a, b)
    ensures Disjoint(a[1..], b + [a[0]]) && !HasKey(b, a[0].key)
  {
    assert HasKey(a, a[0].key);
    forall k | HasKey(a[1..], k) ensures !HasKey(b + [a[0]], k) {
      assert HasKey(a, k);
      GetAppend(b, [a[0]], k);
    }
  }

  /** Without collisions the loop is the item by item renaming, order included. */
  lemma {:induction false} RenameWithoutCollisions(acc: Dict, d: Dict, table: Table, back: bool)
    requires IsDict(MapKeys(d, table, back)) && Disjoint(MapKeys(d, table, back), acc)
    ensures Rename(acc, d, table, back) == acc + MapKeys(d, table, back)
    decreases |d|
  {
    if d != [] {
      var mapped := MapKeys(d, table, back);
      var rest := MapKeys(d[1..], table, back);
      assert mapped[1..] == rest;
      DisjointMove(mapped, acc);
      PutFresh(acc, mapped[0].key, mapped[0].value);
      RenameWithoutCollisions(acc + [mapped[0]], d[1..], table, back);
      assert acc + [mapped[0]] + rest == acc + mapped;
    }
  }

  /** The opposite renaming undoes this one on every key of the dictionary. */
  ghost predicate Undone(d: Dict, table: Table, back: bool) {
    forall k :: HasKey(d, k) ==> NewKey(table, !back, NewKey(table, back, k)) == k
  }

  lemma {:induction false} MappedKeyComesFrom(d: Dict, table: Table, back: bool, k: string)
    requires Undone(d, table, back) && NewKey(table, !back, NewKey(table, back, k)) == k
    ensures HasKey(MapKeys(d, table, back), NewKey(table, back, k)) ==> HasKey(d, k)
  {
    if d != [] {
      assert HasKey(d, d[0].key);
      assert forall x :: HasKey(d[1..], x) ==> HasKey(d, x);
      MappedKeyComesFrom(d[1..], table, back, k);
    }
  }

  lemma {:induction false} MapKeysUndone(d: Dict, table: Table, back: bool)
    requires IsDict(d) && Undone(d, table, back)
    ensures IsDict(MapKeys(d, table, back))
    ensures MapKeys(MapKeys(d, table, back), table, !back) == d
  {
    if d != [] {
      assert HasKey(d, d[0].key);
      assert forall x :: HasKey(d[1..], x) ==> HasKey(d, x);
      MapKeysUndone(d[1..], table, back);
      MappedKeyComesFrom(d[1..], table, back, d[0].key);
    }
  }

  /** Renaming a dictionary one way and back restores it, order included. */
  lemma RenameUndone(d: Dict, table: Table, back: bool)
    requires IsDict(d) && Undone(d, table, back)
    ensures Rename([], Rename([], d, table, back), table, !back) == d
  {
    MapKeysUndone(d, table, back);
    RenameWithoutCollisions([], d, table, back);
    assert [] + MapKeys(d, table, back) == MapKeys(d, table, back);
    RenameWithoutCollisions([], MapKeys(d, table, back), table, !back);
    assert [] + d == d;
  }

  lemma {:induction false} RenamedKeyComesFrom(acc: Dict, d: Dict, table: Table, back: bool, y: string)
    returns (x: string)
    requires HasKey(Rename(acc, d, table, back), y) && !HasKey(acc, y)
    ensures HasKey(d, x) && NewKey(table, back, x) == y
    decreases |d|
  {
    x := "";
    if d != [] {
      x := d[0].key;
      PutGet(acc, NewKey(table, back, x), d[0].value, y);
      if NewKey(table, back, x) != y {
        x := RenamedKeyComesFrom(Put(acc, NewKey(table, back, x), d[0].value), d[1..], table, back, y);
      }
    }
  }

  // Migration and rollback.

  ghost predicate Migratable(s: Strategy) {
    IsDict(s.params) && IsSource(TYPES, s.kind)
  }

  /** Two dictionaries are equal in Python when they agree on every key. */
  ghost predicate SameDict(a: Dict, b: Dict) {
    forall k :: Get(a, k) == Get(b, k)
  }

  lemma MigrateIdempotent(s: Strategy, hasColumn: bool)
    ensures Migrate(Migrate(s, hasColumn), hasColumn) == Migrate(s, hasColumn)
  {
    TypesOneWay();
    RenamesCancel(TYPES, s.kind);
  }

  /** The flag is no target of any renaming, so it is a parameter after one iff it was before. */
  lemma FlagUntouched(d: Dict, kind: string, back: bool)
    ensures HasKey(Rename([], d, Parameters(kind), back), FLAG) <==> HasKey(d, FLAG)
  {
    var table := Parameters(kind);
    ParametersOneWay(kind);
    TargetSpec(table, FLAG);
    OriginSpec(table, FLAG);
    if HasKey(Rename([], d, table, back), FLAG) {
      var x := RenamedKeyComesFrom([], d, table, back, FLAG);
      TargetSpec(table, x);
      OriginSpec(table, x);
    }
    if HasKey(d, FLAG) {
      RenamedStays([], d, table, back, FLAG);
    }
  }

  lemma {:induction false} RenamedStays(acc: Dict, d: Dict, table: Table, back: bool, k: string)
    requires HasKey(acc, NewKey(table, back, k)) || HasKey(d, k)
    ensures HasKey(Rename(acc, d, table, back), NewKey(table, back, k))
    decreases |d|
  {
    if d != [] {
      PutGet(acc, NewKey(table, back, d[0].key), d[0].value, NewKey(table, back, k));
      RenamedStays(Put(acc, NewKey(table, back, d[0].key), d[0].value), d[1..], table, back, k);
    }
  }

  /** The migrated parameters without the flag survive a rollback and another migration. */
  lemma CleanParamsRoundTrip(s: Strategy)
    requires Migratable(s)
    ensures var kind := Target(TYPES, s.kind).value;
      var table, clean := Parameters(kind), Remove(Rename([], s.params, Parameters(kind), false), FLAG);
      Rename([], Rename([], clean, table, true), table, false) == clean
  {
    var kind := Target(TYPES, s.kind).value;
    var table := Parameters(kind);
    ParametersOneWay(kind);
    var params := Rename([], s.params, table, false);
    RenameIsDict([], s.params, table, false);
    ForwardLeavesNoSources([], s.params, table);
    var clean := Remove(params, FLAG);
    RemoveGet(params, FLAG, FLAG);
    forall k | HasKey(clean, k) ensures Forward(table, Backward(table, k)) == k {
      RemoveGet(params, FLAG, k);
      RenamesCancel(table, k);
    }
    RenameUndone(clean, table, true);
  }

  lemma KindRoundTrip(kind: string)
    requires IsSource(TYPES, kind)
    ensures var target := Target(TYPES, kind).value;
      Origin(TYPES, target).Some? && Target(TYPES, Origin(TYPES, target).value) == Some(target)
  {
    var target := Target(TYPES, kind).value;
    TypesOneWay();
    TargetSpec(TYPES, kind);
    OriginSpec(TYPES, target);
    TargetSpec(TYPES, Origin(TYPES, target).value);
  }

  /**
   Rolling back and migrating again reproduces the migrated strategy, colliding keys or not, exactly
   when no parameter named like the flag is at the mercy of the rollback.
   */
  lemma MigrateRollbackMigrate(s: Strategy, hasColumn: bool)
    requires Migratable(s)
    ensures var m, again := Migrate(s, hasColumn), Migrate(Rollback(Migrate(s, hasColumn)), hasColumn);
      again.kind == m.kind && (SameDict(again.params, m.params) <==> !(hasColumn && HasKey(s.params, FLAG)))
  {
    var kind := Target(TYPES, s.kind).value;
    var table := Parameters(kind);
    var params := Rename([], s.params, table, false);
    var m := Migrate(s, hasColumn);
    KindRoundTrip(s.kind);
    CleanParamsRoundTrip(s);
    RenameIsDict([], s.params, table, false);
    var clean := Remove(params, FLAG);
    FlagUntouched(s.params, kind, false);
    RemoveGet(params, FLAG, FLAG);
    if !hasColumn {
      assert Remove(m.params, FLAG) == clean by { RemovePut(params, FLAG, True); }
      forall k ensures Get(Put(clean, FLAG, True), k) == Get(m.params, k) {
        PutGet(clean, FLAG, True, k);
        PutGet(params, FLAG, True, k);
        RemoveGet(params, FLAG, k);
      }
    } else if !HasKey(s.params, FLAG) {
      RemoveAbsent(params, FLAG);
    } else {
      assert Get(clean, FLAG) != Get(params, FLAG);
    }
  }

  lemma {:induction false} RemovePut(d: Dict, k: string, v: Value)
    requires IsDict(d)
    ensures Remove(Put(d, k, v), k) == Remove(d, k)
  {
    if d != [] && d[0].key != k {
      RemovePut(d[1..], k, v);
    }
  }

  /** Names a rollback can give back: not the flag, not a target of the table, and not a source that a
      later source of the same target shadows. */
  predicate Restorable(table: Table, key: string) {
    && key != FLAG && Origin(table, key).None?
    && (Target(table, key).Some? ==> Origin(table, Target(table, key).value) == Some(key))
  }

  /** Renaming back yields only names that can be given back. */
  lemma BackwardRestorable(table: Table, x: string)
    requires OneWay(table) && !IsSource(table, x) && x != FLAG
    requires AvoidsFlag(table)
    ensures Restorable(table, Backward(table, x))
  {
    OriginSpec(table, x);
    if Origin(table, x).Some? {
      var f := Origin(table, x).value;
      TargetSpec(table, f);
      OriginSpec(table, f);
    }
  }

  lemma RestoredKeyRestorable(s: Strategy, hasColumn: bool, key: string)
    requires Migratable(s) && HasKey(Rollback(Migrate(s, hasColumn)).params, key)
    ensures Restorable(Parameters(Target(TYPES, s.kind).value), key)
  {
    var kind := Target(TYPES, s.kind).value;
    var table, m := Parameters(kind), Migrate(s, hasColumn);
    KindRoundTrip(s.kind);
    ParametersOneWay(kind);
    var params := Rename([], s.params, table, false);
    RenameIsDict([], s.params, table, false);
    ForwardLeavesNoSources([], s.params, table);
    PutIsDict(params, FLAG, True);
    var x := RenamedKeyComesFrom([], Remove(m.params, FLAG), table, true, key);
    RemoveGet(m.params, FLAG, x);
    PutGet(params, FLAG, True, x);
    BackwardRestorable(table, x);
  }

  /** Rollback undoes migration exactly for the last legacy name of each type, with parameters whose
      names can be given back; then the order of the parameters is restored too. */
  lemma RollbackUndoesMigration(s: Strategy, hasColumn: bool)
    requires Migratable(s)
    ensures var kind := Target(TYPES, s.kind).value;
      Rollback(Migrate(s, hasColumn)) == s <==>
      && Origin(TYPES, kind) == Some(s.kind)
      && forall k :: HasKey(s.params, k) ==> Restorable(Parameters(kind), k)
  {
    var kind := Target(TYPES, s.kind).value;
    var table, m := Parameters(kind), Migrate(s, hasColumn);
    KindRoundTrip(s.kind);
    if Rollback(m) == s {
      forall k | HasKey(s.params, k) ensures Restorable(table, k) {
        RestoredKeyRestorable(s, hasColumn, k);
      }
    }
    if forall k :: HasKey(s.params, k) ==> Restorable(table, k) {
      var params := Rename([], s.params, table, false);
      forall k | HasKey(s.params, k) ensures Backward(table, Forward(table, k)) == k {
        assert Restorable(table, k);
      }
      assert !HasKey(s.params, FLAG);
      FlagUntouched(s.params, kind, false);
      RemoveAbsent(params, FLAG);
      RemoveLast(params, FLAG, True);
      PutFresh(params, FLAG, True);
      RenameUndone(s.params, table, false);
    }
  }

  /** What migration makes of each legacy type and of each parameter name. */
  lemma MigratedNames(params: Dict, key: string)
    ensures Migrate(Strategy("SimpleMomentumStrategy", params), true).kind == "MomentumProcessor"
    ensures Migrate(Strategy("MomentumStrategy", params), true).kind == "MomentumProcessor"
    ensures Migrate(Strategy("MeanReversionStrategy", params), true).kind == "MeanReversionProcessor"
    ensures Forward(Parameters("MomentumProcessor"), key) ==
            if key == "lookback_period" then "lookback_periods" else key
    ensures Forward(Parameters("MeanReversionProcessor"), key) ==
            if key in {"lookback_period", "window_size"} then "lookback_periods"
            else if key in {"std_dev_threshold", "entry_threshold"} then "std_deviation_threshold"
            else key
  {
    TargetSpec(MOMENTUM, key);
    TargetSpec(MEAN_REVERSION, key);
    MeanReversionOneWay();
    assert MEAN_REVERSION[0] == Rule("lookback_period", "lookback_periods");
    assert MEAN_REVERSION[1] == Rule("window_size", "lookback_periods");
    assert MEAN_REVERSION[2] == Rule("std_dev_threshold", "std_deviation_threshold");
    assert MEAN_REVERSION[3] == Rule("entry_threshold", "std_deviation_threshold");
    MigratedTypes();
  }

  lemma MigratedTypes()
    ensures Target(TYPES, "SimpleMomentumStrategy") == Some("MomentumProcessor")
    ensures Target(TYPES, "MomentumStrategy") == Some("MomentumProcessor")
    ensures Target(TYPES, "MeanReversionStrategy") == Some("MeanReversionProcessor")
  {
    TypesOneWay();
    TargetSpec(TYPES, "SimpleMomentumStrategy");
    TargetSpec(TYPES, "MomentumStrategy");
    TargetSpec(TYPES, "MeanReversionStrategy");
    assert TYPES[0].from == "SimpleMomentumStrategy" && TYPES[1].from == "MomentumStrategy";
    assert TYPES[2].from == "MeanReversionStrategy";
  }

  /** What migration does to the parameters, name by name: each new name gets the value of the last
      parameter renamed to it, and a row without the column gets the flag. */
  lemma MigratedParameters(s: Strategy, hasColumn: bool, key: string)
    requires Migratable(s)
    ensures var table := Parameters(Target(TYPES, s.kind).value);
      Get(Migrate(s, hasColumn).params, key) ==
      if key == "use_composition" && !hasColumn then Some(True) else LastRenamed([], s.params, table, false, key)
  {
    var table := Parameters(Target(TYPES, s.kind).value);
    LastWins([], s.params, table, false, key);
    PutGet(Rename([], s.params, table, false), FLAG, True, key);
  }

  /** Which names those are, for the two tables in use. */
  lemma RestorableNames(key: string)
    ensures Restorable(MOMENTUM, key) <==> key !in {FLAG, "lookback_periods"}
    ensures Restorable(MEAN_REVERSION, key) <==>
      key !in {FLAG, "lookback_periods", "std_deviation_threshold", "lookback_period", "std_dev_threshold"}
    ensures Origin(TYPES, "MomentumProcessor") == Some("MomentumStrategy")
    ensures Origin(TYPES, "MeanReversionProcessor") == Some("MeanReversionStrategy")
  {
    assert Origin(TYPES[..2], "MomentumProcessor") == Some("MomentumStrategy");
    assert MEAN_REVERSION[..3][..2] == MEAN_REVERSION[..2];
    assert Origin(MEAN_REVERSION[..2], "lookback_periods") == Some("window_size");
    assert Origin(MEAN_REVERSION[..3], "lookback_periods") == Some("window_size");
    assert Origin(MEAN_REVERSION, "lookback_periods") == Some("window_size");
    assert Origin(MEAN_REVERSION, "std_deviation_threshold") == Some("entry_threshold");
    assert MEAN_REVERSION[0].from == "lookback_period" && MEAN_REVERSION[1].from == "window_size";
    assert MEAN_REVERSION[2].from == "std_dev_threshold" && MEAN_REVERSION[3].from == "entry_threshold";
    TargetSpec(MOMENTUM, key);
    OriginSpec(MOMENTUM, key);
    TargetSpec(MEAN_REVERSION, key);
    OriginSpec(MEAN_REVERSION, key);
  }

  /** A row of the strategy table. */
  class Row {
    var kind: string
    var params: Dict

    constructor (kind: string, params: Dict)
      ensures this.kind == kind && this.params == params
    {
      this.kind, this.params := kind, params;
    }

    ghost function Abs(): Strategy
      reads this
    {
      Strategy(kind, params)
    }
  }

  /** The loop that rebuilds a row's parameters under new names. */
  method RenameParameters(d: Dict, table: Table, back: bool) returns (renamed: Dict)
    ensures renamed == Rename([], d, table, back)
  {
    renamed := [];
    for i := 0 to |d|
      invariant Rename(renamed, d[i..], table, back) == Rename([], d, table, back)
    {
      renamed := Put(renamed, NewKey(table, back, d[i].key), d[i].value);
    }
  }

  /** One turn of the migration loop. */
  method MigrateRow(row: Row, hasColumn: bool) returns (migrated: bool)
    modifies row
    ensures row.Abs() == Migrate(old(row.Abs()), hasColumn)
    ensures migrated <==> IsSource(TYPES, old(row.kind))
  {
    var target := Target(TYPES, row.kind);
    if target.None? { return false; }
    row.kind := target.value;
    row.params := RenameParameters(row.params, Parameters(target.value), false);
    if !hasColumn {
      row.params := Put(row.params, FLAG, True);
    }
    return true;
  }

  /** One turn of the rollback loop. */
  method RollbackRow(row: Row) returns (rolledBack: bool)
    modifies row
    ensures row.Abs() == Rollback(old(row.Abs()))
    ensures rolledBack <==> Origin(TYPES, old(row.kind)).Some?
  {
    var kind, legacy := row.kind, Origin(TYPES, row.kind);
    if legacy.None? { return false; }
    row.kind := legacy.value;
    row.params := Remove(row.params, FLAG);
    row.params := RenameParameters(row.params, Parameters(kind), true);
    return true;
  }

  method MigrateStrategyConfigurations(rows: seq<Row>, hasColumn: bool) returns (count: nat, ghost done: set<int>)
    requires forall i, j :: 0 <= i < j < |rows| ==> rows[i] != rows[j]
    modifies rows
    ensures forall i :: 0 <= i < |rows| ==> rows[i].Abs() == Migrate(old(rows[i].Abs()), hasColumn)
    ensures count == |done| && forall i :: i in done <==> 0 <= i < |rows| && IsSource(TYPES, old(rows[i].kind))
  {
    count := 0;
    done := {};
    for n := 0 to |rows|
      invariant forall i :: 0 <= i < n ==> rows[i].Abs() == Migrate(old(rows[i].Abs()), hasColumn)
      invariant forall i :: n <= i < |rows| ==> rows[i].Abs() == old(rows[i].Abs())
      invariant count == |done| && forall i :: i in done <==> 0 <= i < n && IsSource(TYPES, old(rows[i].kind))
    {
      label turn:
      var migrated := MigrateRow(rows[n], hasColumn);
      assert forall i :: 0 <= i < |rows| && i != n ==> rows[i].Abs() == old@turn(rows[i].Abs());
      if migrated {
        count := count + 1;
        done := done + {n};
      }
    }
  }

  method RollbackMigration(rows: seq<Row>) returns (count: nat, ghost done: set<int>)
    requires forall i, j :: 0 <= i < j < |rows| ==> rows[i] != rows[j]
    modifies rows
    ensures forall i :: 0 <= i < |rows| ==> rows[i].Abs() == Rollback(old(rows[i].Abs()))
    ensures count == |done| && forall i :: i in done <==> 0 <= i < |rows| && Origin(TYPES, old(rows[i].kind)).Some?
  {
    count := 0;
    done := {};
    for n := 0 to |rows|
      invariant forall i :: 0 <= i < n ==> rows[i].Abs() == Rollback(old(rows[i].Abs()))
      invariant forall i :: n <= i < |rows| ==> rows[i].Abs() == old(rows[i].Abs())
      invariant count == |done| && forall i :: i in done <==> 0 <= i < n && Origin(TYPES, old(rows[i].kind)).Some?
    {
      label turn:
      var rolledBack := RollbackRow(rows[n]);
      assert forall i :: 0 <= i < |rows| && i != n ==> rows[i].Abs() == old@turn(rows[i].Abs());
      if rolledBack {
        count := count + 1;
        done := done + {n};
      }
    }
  }
}

/**
 The driver option maps as the code fills them in place, and the options that create, update
 and the backup operations hand to a driver.
 */
module OptionMaps {
  import opened Base
  import opened DriverOptions
  import opened OptionOrder

  const NAME := "name"
  const DISPLAY_NAME := "displayName"
  const RKE_CONFIG := "rkeConfig"
  const STATE := "state"

  function AddStrings(o: Options, more: map<string, string>): (r: Options) {
    o.(strings := o.strings + more)
  }

  /** Create lays the saved metadata over the configuration. */
  function CreateOptions(config: Options, metadata: map<string, string>): (r: Options) {
    AddStrings(config, metadata)
  }

  /** Update and the backup operations: metadata first, then the configuration with the cluster
      name, then the saved state object in the gaps. */
  function UpdateOptions(style: Style, config: Options, name: string, metadata: map<string, string>,
                         saved: Option<seq<Field>>): (r: Options)
  {
    Merged(style, config.(strings := config.strings[NAME := name]), metadata, saved)
  }

  /** The options after visiting some entries of the metadata, the saved state being filled in
      where the entry "state" is met. */
  function Merged(style: Style, o: Options, metadata: map<string, string>, saved: Option<seq<Field>>): (r: Options) {
    Filled(style, if STATE in metadata then saved else None, AddStrings(o, metadata - {STATE}))
  }

  function Filled(style: Style, saved: Option<seq<Field>>, o: Options): (r: Options) {
    if saved.None? then o else FillGaps(Leaves(style, saved.value), o)
  }

  class OptionMaps {
    var ints: map<string, int>
    var strings: map<string, string>
    var bools: map<string, bool>
    var lists: map<string, seq<string>>

    function Value(): (r: Options)
      reads this
    {
      Options(ints, strings, bools, lists)
    }

    constructor (o: Options)
      ensures Value() == o
    {
      ints, strings, bools, lists := o.ints, o.strings, o.bools, o.lists;
    }

    /** service.flatten: later assignments overwrite earlier ones. */
    method Flatten(style: Style, data: seq<Field>)
      modifies this
      ensures Value() == Overwrite(Leaves(style, data), old(Value()))
      decreases data
    {
      hide Leaves, Overwrite, Entries, TextsOf;
      NothingVisited(style, data, Value());
      for i := 0 to |data|
        invariant Value() == Overwrite(Leaves(style, data[..i]), old(Value()))
      {
        var k, v := data[i].key, data[i].value;
        LeavesSnoc(style, data, i);
        OverwriteConcat(Leaves(style, data[..i]), FieldLeaves(style, data[i]), old(Value()));
        OverwriteOne(FieldLeaves(style, data[i]), Value());
        match v
        case Number(x) => ints := ints[k := Truncate(x)];
        case Text(s) => strings := strings[k := s];
        case Flag(b) => bools := bools[k := b];
        case Array(items) =>
          var texts := CollectTexts(items);
          if |texts| != 0 {
            lists := lists[k := texts];
          }
        case Texts(ts) => lists := lists[k := ts];
        case Object(sub) =>
          if k == style.listKey {
            var r := CollectEntries(style, sub);
            lists := lists[k := r];
          } else {
            Flatten(style, sub);
          }
        case Null =>
        case Foreign =>
      }
      assert data[..|data|] == data;
    }

    /** cluster.flattenIfNotExist: only gaps are filled. */
    method FlattenIfNotExist(style: Style, data: seq<Field>)
      modifies this
      ensures Value() == FillGaps(Leaves(style, data), old(Value()))
      decreases data
    {
      hide Leaves, FillGaps, Entries, TextsOf;
      NothingVisited(style, data, Value());
      for i := 0 to |data|
        invariant Value() == FillGaps(Leaves(style, data[..i]), old(Value()))
      {
        var k, v := data[i].key, data[i].value;
        LeavesSnoc(style, data, i);
        FillGapsConcat(Leaves(style, data[..i]), FieldLeaves(style, data[i]), old(Value()));
        FillGapsOne(FieldLeaves(style, data[i]), Value());
        match v
        case Number(x) =>
          if k !in ints {
            ints := ints[k := Truncate(x)];
          }
        case Text(s) =>
          if k !in strings {
            strings := strings[k := s];
          }
        case Flag(b) =>
          if k !in bools {
            bools := bools[k := b];
          }
        case Array(items) =>
          var texts := CollectTexts(items);
          if |texts| != 0 && k !in lists {
            lists := lists[k := texts];
          }
        case Texts(ts) =>
          if k !in lists {
            lists := lists[k := ts];
          }
        case Object(sub) =>
          if k == style.listKey {
            var r := CollectEntries(style, sub);
            if k !in lists {
              lists := lists[k := r];
            }
          } else {
            FlattenIfNotExist(style, sub);
          }
        case Null =>
        case Foreign =>
      }
      assert data[..|data|] == data;
    }

    /** The metadata loop of create, in whatever order the map is visited. */
    method OverlayMetadata(metadata: map<string, string>)
      modifies this
      ensures Value() == CreateOptions(old(Value()), metadata)
    {
      var rest := metadata.Keys;
      ghost var before := strings;
      assert before + (metadata - rest) == before;
      while rest != {}
        invariant rest <= metadata.Keys
        invariant Value() == old(Value()).(strings := before + (metadata - rest))
        decreases rest
      {
        var k :| k in rest;
        assert metadata - (rest - {k}) == (metadata - rest)[k := metadata[k]];
        strings := strings[k := metadata[k]];
        rest := rest - {k};
      }
      assert metadata - {} == metadata;
    }

    /** The metadata loop of Update and getDriverOps, in whatever order the map is visited:
        the saved state may be filled in before, between or after the other entries. */
    method MergeMetadata(style: Style, metadata: map<string, string>, saved: Option<seq<Field>>)
      modifies this
      ensures Value() == Merged(style, old(Value()), metadata, saved)
    {
      var rest := metadata.Keys;
      ghost var before := Value();
      MergedNothing(style, before, saved);
      assert metadata - rest == map[];
      while rest != {}
        invariant rest <= metadata.Keys
        invariant Value() == Merged(style, before, metadata - rest, saved)
        decreases rest
      {
        var k :| k in rest;
        var v := metadata[k];
        MergedStep(style, before, metadata - rest, saved, k, v);
        assert metadata - (rest - {k}) == (metadata - rest)[k := v];
        if k == STATE {
          if saved.Some? {
            FlattenIfNotExist(style, saved.value);
          }
        } else {
          strings := strings[k := v];
        }
        rest := rest - {k};
      }
      assert metadata - {} == metadata;
    }
  }

  method CollectTexts(items: seq<Json>) returns (texts: seq<string>)
    ensures texts == TextsOf(items)
  {
    texts := [];
    for i := 0 to |items|
      invariant texts == TextsOf(items[..i])
    {
      assert items[..i + 1][..i] == items[..i];
      if items[i].Text? {
        texts := texts + [items[i].text];
      }
    }
    assert items[..|items|] == items;
  }

  method CollectEntries(style: Style, fields: seq<Field>) returns (entries: seq<string>)
    ensures entries == Entries(style, fields)
  {
    entries := [];
    for i := 0 to |fields|
      invariant entries == Entries(style, fields[..i])
    {
      entries := entries + [fields[i].key + "=" + style.show(fields[i].value)];
      assert Entry(style, fields[i]) == fields[i].key + "=" + style.show(fields[i].value);
    }
    assert fields[..|fields|] == fields;
  }

  /** What the cluster specification gives the configuration getter: the JSON object of an
      imported or generic cluster (or the failure to convert it), or the RKE document. */
  datatype SpecConfig = JsonConfig(data: Result<seq<Field>, string>) | RkeConfig(document: Result<string, string>)

  /** The names that win in a configuration. */
  function NamesOf(clusterName: string, displayName: string): (r: map<string, string>) {
    map[NAME := clusterName, DISPLAY_NAME := if displayName == "" then clusterName else displayName]
  }

  /** controllerConfigGetter.GetConfig: whatever the configuration holds under "name" and
      "displayName", the cluster's own names win. */
  method GetConfig(show: Json -> string, spec: SpecConfig, clusterName: string, displayName: string)
    returns (r: Result<Options, string>)
    ensures r.Err? <==> (if spec.JsonConfig? then spec.data.Err? else spec.document.Err?)
    ensures r.Ok? ==>
              r.value == AddStrings(
                if spec.JsonConfig? then Overwrite(Leaves(Style(LABELS, show), spec.data.value), NoOptions)
                else NoOptions.(strings := map[RKE_CONFIG := spec.document.value]),
                NamesOf(clusterName, displayName))
    ensures r.Ok? ==>
              && "name" in r.value.strings && r.value.strings["name"] == clusterName
              && "displayName" in r.value.strings
              && r.value.strings["displayName"] == (if displayName == "" then clusterName else displayName)
  {
    hide Leaves, Overwrite;
    var options := new OptionMaps(NoOptions);
    match spec {
      case JsonConfig(Err(e)) => return Err(e);
      case JsonConfig(Ok(data)) => options.Flatten(Style(LABELS, show), data);
      case RkeConfig(Err(e)) => return Err(e);
      case RkeConfig(Ok(document)) => options.strings := options.strings[RKE_CONFIG := document];
    }
    ghost var before := options.Value();
    options.strings := options.strings[NAME := clusterName];
    var shown := displayName;
    if shown == "" {
      shown := clusterName;
    }
    options.strings := options.strings[DISPLAY_NAME := shown];
    assert options.strings == before.strings + map[NAME := clusterName, DISPLAY_NAME := shown];
    return Ok(options.Value());
  }

  /** The configuration of an imported or generic cluster is the same for every visit of its
      specification exactly when the repeated keys of one type in it agree, the names aside. */
  lemma ConfigOrderFree(style: Style, data: seq<Field>, clusterName: string, displayName: string)
    requires ShowsSorted(style)
    ensures (forall other :: SameFields(data, other) ==>
               SameOptions(AddStrings(Overwrite(Leaves(style, data), NoOptions), NamesOf(clusterName, displayName)),
                           AddStrings(Overwrite(Leaves(style, other), NoOptions), NamesOf(clusterName, displayName))))
       <==> Agreeing(Leaves(style, data), NoOptions.(strings := NamesOf(clusterName, displayName)))
  {
    hide NamesOf, ShowsSorted, SameFields, SameOptions, Overwrite, Leaves, Agreeing;
    var names := NamesOf(clusterName, displayName);
    forall o: Options ensures AddStrings(o, names) == Beneath(o, NoOptions.(strings := names)) {
      BeneathNothing(o);
    }
    FlattenOrderFree(style, data, NoOptions.(strings := names));
  }

  lemma NothingVisited(style: Style, data: seq<Field>, o: Options)
    ensures Overwrite(Leaves(style, data[..0]), o) == o == FillGaps(Leaves(style, data[..0]), o)
  {
  }

  lemma LeavesSnoc(style: Style, data: seq<Field>, i: nat)
    requires i < |data|
    ensures Leaves(style, data[..i + 1]) == Leaves(style, data[..i]) + FieldLeaves(style, data[i])
  {
    assert data[..i + 1] == data[..i] + [data[i]];
    LeavesConcat(style, data[..i], [data[i]]);
    LeavesOfOne(style, data[i]);
  }

  lemma OverwriteOne(ls: seq<Leaf>, o: Options)
    ensures ls == [] ==> Overwrite(ls, o) == o
    ensures |ls| == 1 ==> Overwrite(ls, o) == Put(ls[0], o)
  {
    if |ls| == 1 {
      assert ls[..0] == [];
    }
  }

  lemma FillGapsOne(ls: seq<Leaf>, o: Options)
    ensures ls == [] ==> FillGaps(ls, o) == o
    ensures |ls| == 1 ==> FillGaps(ls, o) == if Taken(ls[0], o) then o else Put(ls[0], o)
  {
    if |ls| == 1 {
      assert ls[..0] == [];
    }
  }

  lemma MergedNothing(style: Style, o: Options, saved: Option<seq<Field>>)
    ensures Merged(style, o, map[], saved) == o
  {
    assert o.strings + (map[] - {STATE}) == o.strings;
  }

  lemma MergedStep(style: Style, o: Options, done: map<string, string>, saved: Option<seq<Field>>, k: string, v: string)
    requires k !in done
    ensures Merged(style, o, done[k := v], saved)
         == if k == STATE then Filled(style, saved, Merged(style, o, done, saved))
            else Put(TextLeaf(k, v), Merged(style, o, done, saved))
  {
    if k == STATE {
      assert done[k := v] - {STATE} == done - {STATE};
    } else {
      var before := AddStrings(o, done - {STATE});
      assert done[k := v] - {STATE} == (done - {STATE})[k := v];
      assert o.strings + (done - {STATE})[k := v] == before.strings[k := v];
      if STATE in done && saved.Some? {
        FillThenPut(style, saved.value, before, k, v);
      }
    }
  }

  /** A later metadata entry ends up the same whether the state was filled in before or after. */
  lemma FillThenPut(style: Style, saved: seq<Field>, o: Options, k: string, v: string)
    ensures Put(TextLeaf(k, v), FillGaps(Leaves(style, saved), o))
         == FillGaps(Leaves(style, saved), Put(TextLeaf(k, v), o))
  {
    var ls := Leaves(style, saved);
    FillIsOverwriteBeneath(ls, o);
    FillIsOverwriteBeneath(ls, Put(TextLeaf(k, v), o));
    PutBeneath(TextLeaf(k, v), Overwrite(Reverse(ls), NoOptions), o);
  }

  /** The saved state as one layer: its first occurrence of a key wins. */
  function SavedLayer(style: Style, metadata: map<string, string>, saved: Option<seq<Field>>): (r: Options) {
    if STATE in metadata && saved.Some?
    then Overwrite(Leaves(style, Mirror(style, saved.value)), NoOptions) else NoOptions
  }

  lemma MergedIsLayered(style: Style, o: Options, metadata: map<string, string>, saved: Option<seq<Field>>)
    ensures Merged(style, o, metadata, saved) == Beneath(SavedLayer(style, metadata, saved), AddStrings(o, metadata - {STATE}))
  {
    if STATE in metadata && saved.Some? {
      FlattenDuality(style, saved.value, AddStrings(o, metadata - {STATE}));
    } else {
      BeneathNothing(AddStrings(o, metadata - {STATE}));
    }
  }

  lemma LayersUnderName(a: map<string, string>, b: map<string, string>, k: string, v: string, c: map<string, string>)
    ensures a + (b[k := v] + c) == a + b + map[k := v] + c
  {
  }

  /** Metadata entries win, then the cluster name and the configuration, then the saved state. */
  lemma UpdatePriorities(style: Style, config: Options, name: string, metadata: map<string, string>,
                         saved: Option<seq<Field>>)
    ensures var u := UpdateOptions(style, config, name, metadata, saved);
            var layer := SavedLayer(style, metadata, saved);
            && u.strings == layer.strings + config.strings + map[NAME := name] + (metadata - {STATE})
            && u.ints == layer.ints + config.ints
            && u.bools == layer.bools + config.bools
            && u.lists == layer.lists + config.lists
  {
    MergedIsLayered(style, config.(strings := config.strings[NAME := name]), metadata, saved);
    LayersUnderName(SavedLayer(style, metadata, saved).strings, config.strings, NAME, name, metadata - {STATE});
  }

  /** The options of Update (and of the backup operations) are the same for every visit of the
      saved state exactly when the repeated keys of one type in it agree, or are given anyway by
      the metadata, the name or the configuration. */
  lemma UpdateOptionsOrderFree(style: Style, config: Options, name: string, metadata: map<string, string>, saved: seq<Field>)
    requires ShowsSorted(style) && STATE in metadata
    ensures (forall other :: SameFields(saved, other) ==>
               SameOptions(UpdateOptions(style, config, name, metadata, Some(saved)),
                           UpdateOptions(style, config, name, metadata, Some(other))))
       <==> Agreeing(Leaves(style, saved), UpdateOptions(style, config, name, metadata, None))
  {
    FillOrderFree(style, saved, UpdateOptions(style, config, name, metadata, None));
  }

  /** Order does matter otherwise: one saved state, visited in two orders, gives two node counts. */
  lemma RepeatedKeyDependsOnVisit(style: Style, x: string, y: string)
    requires x != style.listKey && y != style.listKey && x != y
    ensures var one, two := Object([Field("count", Number(1.0))]), Object([Field("count", Number(2.0))]);
            var a, b := [Field(x, one), Field(y, two)], [Field(y, two), Field(x, one)];
            && SameFields(a, b)
            && FillGaps(Leaves(style, a), NoOptions).ints == map["count" := 1]
            && FillGaps(Leaves(style, b), NoOptions).ints == map["count" := 2]
  {
    var f, g := Field("count", Number(1.0)), Field("count", Number(2.0));
    var p, q := Field(x, Object([f])), Field(y, Object([g]));
    var a, b := [p, q], [q, p];
    SameFieldReflexive(p);
    SameFieldsReflexive([q]);
    assert a[1..] == [q] == Without(b, 1);
    LeavesOfOne(style, f);
    LeavesOfOne(style, g);
    LeavesOfOne(style, q);
    LeavesOfOne(style, p);
    LeavesConcat(style, [p], [q]);
    LeavesConcat(style, [q], [p]);
    assert a == [p] + [q] && b == [q] + [p];
    var m, n := IntLeaf("count", 1), IntLeaf("count", 2);
    FirstWins([m, n], NoOptions);
    FirstWins([n, m], NoOptions);
    assert Leaves(style, a) == [m, n];
    assert Leaves(style, b) == [n, m];
    assert [m, n][..1] == [m] && [n, m][..1] == [n] && [m][..0] == [] && [n][..0] == [];
  }
}

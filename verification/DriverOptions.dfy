/**
 Flattening of nested JSON objects into the four typed option maps of a driver.

 A JSON object is a Go map, visited in an arbitrary order: here it is a sequence of fields
 in the order in which one visit meets them.
 */
module DriverOptions {
  import opened Base

  datatype Json =
    | Null
    | Number(value: real)
    | Text(text: string)
    | Flag(on: bool)
    | Array(items: seq<Json>)
    | Texts(texts: seq<string>)
    | Object(fields: seq<Field>)
    | Foreign  // any other Go type

  datatype Field = Field(key: string, value: Json)

  /** How one flattening function treats objects: the one key whose object becomes a list of
      "k=v" entries ("labels" or "tags"), and Go's `%v` rendering of the values in it. */
  datatype Style = Style(listKey: string, show: Json -> string)

  const TAGS := "tags"
  const LABELS := "labels"

  datatype Options = Options(
    ints: map<string, int>,
    strings: map<string, string>,
    bools: map<string, bool>,
    lists: map<string, seq<string>>)

  const NoOptions := Options(map[], map[], map[], map[])

  /** One typed option, as a leaf of the visited object tree. */
  datatype Leaf =
    | IntLeaf(key: string, n: int)
    | TextLeaf(key: string, text: string)
    | FlagLeaf(key: string, on: bool)
    | ListLeaf(key: string, items: seq<string>)

  /** Go's int64(float64): truncation toward zero. */
  function Truncate(x: real): (n: int) {
    if x >= 0.0 then x.Floor else -((-x).Floor)
  }

  function TextsOf(items: seq<Json>): (r: seq<string>) {
    if items == [] then []
    else TextsOf(items[..|items| - 1]) + (if items[|items| - 1].Text? then [items[|items| - 1].text] else [])
  }

  function Entry(style: Style, f: Field): (r: string) {
    f.key + "=" + style.show(f.value)
  }

  function Entries(style: Style, fields: seq<Field>): (r: seq<string>)
    ensures |r| == |fields|
    ensures forall i :: 0 <= i < |fields| ==> r[i] == Entry(style, fields[i])
  {
    seq(|fields|, i requires 0 <= i < |fields| => Entry(style, fields[i]))
  }

  /** The options met by one visit, in visiting order. */
  function Leaves(style: Style, fields: seq<Field>): (r: seq<Leaf>)
    decreases fields
  {
    if fields == [] then [] else FieldLeaves(style, fields[0]) + Leaves(style, fields[1..])
  }

  function FieldLeaves(style: Style, f: Field): (r: seq<Leaf>)
    decreases f
  {
    match f.value
    case Number(v) => [IntLeaf(f.key, Truncate(v))]
    case Text(s) => [TextLeaf(f.key, s)]
    case Flag(b) => [FlagLeaf(f.key, b)]
    case Array(items) => if TextsOf(items) == [] then [] else [ListLeaf(f.key, TextsOf(items))]
    case Texts(ts) => [ListLeaf(f.key, ts)]
    case Object(sub) => if f.key == style.listKey then [ListLeaf(f.key, Entries(style, sub))] else Leaves(style, sub)
    case Null => []
    case Foreign => []
  }

  function Put(l: Leaf, o: Options): (r: Options) {
    match l
    case IntLeaf(k, n) => o.(ints := o.ints[k := n])
    case TextLeaf(k, s) => o.(strings := o.strings[k := s])
    case FlagLeaf(k, b) => o.(bools := o.bools[k := b])
    case ListLeaf(k, ts) => o.(lists := o.lists[k := ts])
  }

  /** True when the options already hold a value of the leaf's type under the leaf's key. */
  predicate Taken(l: Leaf, o: Options) {
    match l
    case IntLeaf(k, _) => k in o.ints
    case TextLeaf(k, _) => k in o.strings
    case FlagLeaf(k, _) => k in o.bools
    case ListLeaf(k, _) => k in o.lists
  }

  /** Every leaf assigned in turn: the last one of a key wins. */
  function Overwrite(ls: seq<Leaf>, o: Options): (r: Options) {
    if ls == [] then o else Put(ls[|ls| - 1], Overwrite(ls[..|ls| - 1], o))
  }

  /** Every leaf assigned only where nothing is present: the first one of a key wins. */
  function FillGaps(ls: seq<Leaf>, o: Options): (r: Options) {
    if ls == [] then o
    else
      var done := FillGaps(ls[..|ls| - 1], o);
      if Taken(ls[|ls| - 1], done) then done else Put(ls[|ls| - 1], done)
  }

  /** `below` seen through the gaps of `above`. */
  function Beneath(below: Options, above: Options): (r: Options) {
    Options(below.ints + above.ints, below.strings + above.strings, below.bools + above.bools, below.lists + above.lists)
  }

  /** The visit that meets the fields in the opposite order at every level. */
  function Mirror(style: Style, fields: seq<Field>): (r: seq<Field>)
    decreases fields
  {
    if fields == [] then [] else Mirror(style, fields[1..]) + [MirrorField(style, fields[0])]
  }

  function MirrorField(style: Style, f: Field): (r: Field)
    decreases f
  {
    if f.value.Object? && f.key != style.listKey
    then Field(f.key, Object(Mirror(style, f.value.fields)))
    else f
  }

  lemma {:induction false} LeavesConcat(style: Style, a: seq<Field>, b: seq<Field>)
    ensures Leaves(style, a + b) == Leaves(style, a) + Leaves(style, b)
  {
    if a == [] {
      assert a + b == b;
    } else {
      assert (a + b)[1..] == a[1..] + b;
      LeavesConcat(style, a[1..], b);
    }
  }

  lemma LeavesOfOne(style: Style, f: Field)
    ensures Leaves(style, [f]) == FieldLeaves(style, f)
  {
    assert [f][1..] == [];
  }

  lemma {:induction false} OverwriteConcat(a: seq<Leaf>, b: seq<Leaf>, o: Options)
    ensures Overwrite(a + b, o) == Overwrite(b, Overwrite(a, o))
  {
    if b == [] {
      assert a + b == a;
    } else {
      assert (a + b)[..|a + b| - 1] == a + b[..|b| - 1];
      OverwriteConcat(a, b[..|b| - 1], o);
    }
  }

  lemma {:induction false} FillGapsConcat(a: seq<Leaf>, b: seq<Leaf>, o: Options)
    ensures FillGaps(a + b, o) == FillGaps(b, FillGaps(a, o))
  {
    if b == [] {
      assert a + b == a;
    } else {
      assert (a + b)[..|a + b| - 1] == a + b[..|b| - 1];
      FillGapsConcat(a, b[..|b| - 1], o);
    }
  }

  lemma {:induction false} MirrorLeaves(style: Style, fields: seq<Field>)
    ensures Leaves(style, Mirror(style, fields)) == Reverse(Leaves(style, fields))
    decreases fields
  {
    if fields != [] {
      var f, rest := fields[0], fields[1..];
      MirrorLeaves(style, rest);
      MirrorFieldLeaves(style, f);
      LeavesConcat(style, Mirror(style, rest), [MirrorField(style, f)]);
      LeavesOfOne(style, MirrorField(style, f));
      ReverseConcat(FieldLeaves(style, f), Leaves(style, rest));
    }
  }

  lemma {:induction false} MirrorFieldLeaves(style: Style, f: Field)
    ensures FieldLeaves(style, MirrorField(style, f)) == Reverse(FieldLeaves(style, f))
    decreases f
  {
    if f.value.Object? && f.key != style.listKey {
      MirrorLeaves(style, f.value.fields);
    }
  }

  lemma PutBeneath(l: Leaf, o: Options, above: Options)
    ensures Put(l, Beneath(o, above)) == Beneath(o, Put(l, above))
  {
    match l
    case IntLeaf(k, n) => assert (o.ints + above.ints)[k := n] == o.ints + above.ints[k := n];
    case TextLeaf(k, s) => assert (o.strings + above.strings)[k := s] == o.strings + above.strings[k := s];
    case FlagLeaf(k, b) => assert (o.bools + above.bools)[k := b] == o.bools + above.bools[k := b];
    case ListLeaf(k, ts) => assert (o.lists + above.lists)[k := ts] == o.lists + above.lists[k := ts];
  }

  lemma BeneathNothing(o: Options)
    ensures Beneath(o, NoOptions) == o == Beneath(NoOptions, o)
  {
    assert o.ints + map[] == o.ints == map[] + o.ints;
    assert o.strings + map[] == o.strings == map[] + o.strings;
    assert o.bools + map[] == o.bools == map[] + o.bools;
    assert o.lists + map[] == o.lists == map[] + o.lists;
  }

  lemma LayersAssociate<K, V>(a: map<K, V>, b: map<K, V>, c: map<K, V>)
    ensures (a + b) + c == a + (b + c)
  {
  }

  lemma BeneathAssociates(a: Options, b: Options, c: Options)
    ensures Beneath(Beneath(a, b), c) == Beneath(a, Beneath(b, c))
  {
    LayersAssociate(a.ints, b.ints, c.ints);
    LayersAssociate(a.strings, b.strings, c.strings);
    LayersAssociate(a.bools, b.bools, c.bools);
    LayersAssociate(a.lists, b.lists, c.lists);
  }

  /** Assigning a leaf only into a gap is laying it beneath. */
  lemma FillOne(l: Leaf, o: Options)
    ensures (if Taken(l, o) then o else Put(l, o)) == Beneath(Put(l, NoOptions), o)
  {
    match l
    case IntLeaf(k, n) =>
      BeneathNothing(o);
      assert map[k := n] + o.ints == if k in o.ints then o.ints else o.ints[k := n];
    case TextLeaf(k, s) =>
      BeneathNothing(o);
      assert map[k := s] + o.strings == if k in o.strings then o.strings else o.strings[k := s];
    case FlagLeaf(k, b) =>
      BeneathNothing(o);
      assert map[k := b] + o.bools == if k in o.bools then o.bools else o.bools[k := b];
    case ListLeaf(k, ts) =>
      BeneathNothing(o);
      assert map[k := ts] + o.lists == if k in o.lists then o.lists else o.lists[k := ts];
  }

  /** Filling gaps from the front is overwriting from the back, laid under what was there. */
  lemma {:induction false} FillIsOverwriteBeneath(ls: seq<Leaf>, o: Options)
    ensures FillGaps(ls, o) == Beneath(Overwrite(Reverse(ls), NoOptions), o)
  {
    if ls == [] {
      BeneathNothing(o);
    } else {
      var last, before := ls[|ls| - 1], ls[..|ls| - 1];
      var one, back := Put(last, NoOptions), Overwrite(Reverse(before), NoOptions);
      FillIsOverwriteBeneath(before, o);
      FillOne(last, FillGaps(before, o));
      BeneathAssociates(one, back, o);
      assert Reverse(ls) == [last] + Reverse(before) by {
        assert ls == before + [last];
        ReverseConcat(before, [last]);
        assert [last][1..] == [];
      }
      OverwriteConcat([last], Reverse(before), NoOptions);
      assert Overwrite([last], NoOptions) == one by { assert [last][..0] == []; }
      OverwriteOnto(Reverse(before), one);
    }
  }

  /** What was there before overwriting only shows through the gaps. */
  lemma {:induction false} OverwriteOnto(ls: seq<Leaf>, o: Options)
    ensures Overwrite(ls, o) == Beneath(o, Overwrite(ls, NoOptions))
  {
    if ls == [] {
      BeneathNothing(o);
    } else {
      var last, before := ls[|ls| - 1], ls[..|ls| - 1];
      OverwriteOnto(before, o);
      PutBeneath(last, o, Overwrite(before, NoOptions));
    }
  }

  // ---------------------------------------------------------------- what one field becomes

  lemma {:induction false} TextsConcat(a: seq<Json>, b: seq<Json>)
    ensures TextsOf(a + b) == TextsOf(a) + TextsOf(b)
  {
    if b == [] {
      assert a + b == a;
    } else {
      assert (a + b)[..|a + b| - 1] == a + b[..|b| - 1];
      TextsConcat(a, b[..|b| - 1]);
    }
  }

  lemma TextsOfOne(x: Json)
    ensures TextsOf([x]) == if x.Text? then [x.text] else []
  {
    assert [x][..0] == [];
  }

  function ArrayOf(texts: seq<string>): (r: seq<Json>)
    ensures |r| == |texts| && forall i :: 0 <= i < |texts| ==> r[i] == Text(texts[i])
  {
    seq(|texts|, i requires 0 <= i < |texts| => Text(texts[i]))
  }

  /** An array of strings is kept whole and in order, and only strings are kept of any array. */
  lemma {:induction false} TextsComeWhole(texts: seq<string>)
    ensures TextsOf(ArrayOf(texts)) == texts
  {
    if texts != [] {
      var before := texts[..|texts| - 1];
      TextsComeWhole(before);
      assert ArrayOf(texts)[..|texts| - 1] == ArrayOf(before);
      assert texts == before + [texts[|texts| - 1]];
    }
  }

  /** Go's conversion rounds toward zero. */
  lemma TruncateTowardZero(x: real)
    ensures x >= 0.0 ==> 0 <= Truncate(x) && Truncate(x) as real <= x < Truncate(x) as real + 1.0
    ensures x <= 0.0 ==> Truncate(x) <= 0 && Truncate(x) as real - 1.0 < x <= Truncate(x) as real
  {
  }

  lemma TruncateKeepsWhole(n: int)
    ensures Truncate(n as real) == n
  {
  }

  /** The options after one more field has been flattened. */
  function AfterField(style: Style, k: string, v: Json, before: Options): (r: Options) {
    match v
    case Number(x) => before.(ints := before.ints[k := Truncate(x)])
    case Text(s) => before.(strings := before.strings[k := s])
    case Flag(b) => before.(bools := before.bools[k := b])
    case Array(items) => if TextsOf(items) == [] then before else before.(lists := before.lists[k := TextsOf(items)])
    case Texts(ts) => before.(lists := before.lists[k := ts])
    case Object(sub) =>
      if k == style.listKey then before.(lists := before.lists[k := Entries(style, sub)])
      else Overwrite(Leaves(style, sub), before)
    case Null => before
    case Foreign => before
  }

  /** The options after the gaps have been filled from one more field: a value is taken only where its
      type has none under the key. */
  function AfterFill(style: Style, k: string, v: Json, before: Options): (r: Options) {
    match v
    case Number(x) => if k in before.ints then before else before.(ints := before.ints[k := Truncate(x)])
    case Text(s) => if k in before.strings then before else before.(strings := before.strings[k := s])
    case Flag(b) => if k in before.bools then before else before.(bools := before.bools[k := b])
    case Array(items) =>
      if TextsOf(items) == [] || k in before.lists then before else before.(lists := before.lists[k := TextsOf(items)])
    case Texts(ts) => if k in before.lists then before else before.(lists := before.lists[k := ts])
    case Object(sub) =>
      if k != style.listKey then FillGaps(Leaves(style, sub), before)
      else if k in before.lists then before
      else before.(lists := before.lists[k := Entries(style, sub)])
    case Null => before
    case Foreign => before
  }

  /** Flattening one field after some others, whatever its type. */
  lemma FlattenOne(style: Style, fields: seq<Field>, k: string, v: Json, o: Options)
    ensures Overwrite(Leaves(style, fields + [Field(k, v)]), o) == AfterField(style, k, v, Overwrite(Leaves(style, fields), o))
  {
    hide Leaves, TextsOf, Entries, Overwrite;
    var f := Field(k, v);
    LeavesConcat(style, fields, [f]);
    LeavesOfOne(style, f);
    OverwriteConcat(Leaves(style, fields), FieldLeaves(style, f), o);
    OverwriteSingle(FieldLeaves(style, f), Overwrite(Leaves(style, fields), o));
  }

  lemma OverwriteSingle(ls: seq<Leaf>, o: Options)
    ensures ls == [] ==> Overwrite(ls, o) == o == FillGaps(ls, o)
    ensures |ls| == 1 ==> Overwrite(ls, o) == Put(ls[0], o) && FillGaps(ls, o) == if Taken(ls[0], o) then o else Put(ls[0], o)
  {
    if |ls| == 1 {
      assert ls[..0] == [];
    }
  }

  lemma FillField(style: Style, fields: seq<Field>, k: string, v: Json, o: Options)
    ensures FillGaps(Leaves(style, fields + [Field(k, v)]), o) == AfterFill(style, k, v, FillGaps(Leaves(style, fields), o))
  {
    hide Leaves, TextsOf, Entries, FillGaps;
    var f := Field(k, v);
    LeavesConcat(style, fields, [f]);
    LeavesOfOne(style, f);
    FillGapsConcat(Leaves(style, fields), FieldLeaves(style, f), o);
    OverwriteSingle(FieldLeaves(style, f), FillGaps(Leaves(style, fields), o));
  }

  /** An object with one array of strings, flattened or filled into empty options. */
  lemma ArrayBecomesList(style: Style, k: string, texts: seq<string>)
    requires texts != []
    ensures Overwrite(Leaves(style, [Field(k, Array(ArrayOf(texts)))]), NoOptions) == Options(map[], map[], map[], map[k := texts])
    ensures FillGaps(Leaves(style, [Field(k, Array(ArrayOf(texts)))]), NoOptions) == Options(map[], map[], map[], map[k := texts])
  {
    var v := Array(ArrayOf(texts));
    TextsComeWhole(texts);
    FlattenOne(style, [], k, v, NoOptions);
    FillField(style, [], k, v, NoOptions);
    assert [] + [Field(k, v)] == [Field(k, v)];
  }

  /** Flattening duality: `flattenIfNotExist` is `flatten` of the mirrored visit into empty
      options, laid under the existing ones; in particular no option already present changes. */
  lemma FlattenDuality(style: Style, fields: seq<Field>, o: Options)
    ensures FillGaps(Leaves(style, fields), o)
         == Beneath(Overwrite(Leaves(style, Mirror(style, fields)), NoOptions), o)
  {
    MirrorLeaves(style, fields);
    FillIsOverwriteBeneath(Leaves(style, fields), o);
  }
}

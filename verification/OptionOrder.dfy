/**
 When do the options filled from a saved object not depend on the order in which the object,
 at any of its levels, is visited?  Exactly when repeated keys of one type agree.
 */
module OptionOrder {
  import opened Base
  import opened DriverOptions

  /** `b` is another visit of the object visited by `a`: its fields, and those of the objects
      nested in it, in any order. */
  ghost predicate SameFields(a: seq<Field>, b: seq<Field>)
    decreases a
  {
    && |a| == |b|
    && (a == [] || exists j :: 0 <= j < |b| && SameField(a[0], b[j]) && SameFields(a[1..], Without(b, j)))
  }

  ghost predicate SameField(f: Field, g: Field)
    decreases f
  {
    && f.key == g.key
    && if f.value.Object? then g.value.Object? && SameFields(f.value.fields, g.value.fields) else f.value == g.value
  }

  /** Go's fmt prints maps in sorted key order: what `%v` prints does not depend on a visit. */
  ghost predicate ShowsSorted(style: Style) {
    forall f, g :: SameField(f, g) ==> style.show(f.value) == style.show(g.value)
  }

  /** A leaf up to the order of the entries of a list. */
  datatype Norm =
    | IntNorm(key: string, n: int)
    | TextNorm(key: string, text: string)
    | FlagNorm(key: string, on: bool)
    | ListNorm(key: string, items: multiset<string>)

  function NormOf(l: Leaf): (r: Norm) {
    match l
    case IntLeaf(k, n) => IntNorm(k, n)
    case TextLeaf(k, s) => TextNorm(k, s)
    case FlagLeaf(k, b) => FlagNorm(k, b)
    case ListLeaf(k, ts) => ListNorm(k, multiset(ts))
  }

  predicate SameSlot(l: Leaf, m: Leaf) {
    && l.key == m.key
    && l.IntLeaf? == m.IntLeaf? && l.TextLeaf? == m.TextLeaf? && l.FlagLeaf? == m.FlagLeaf? && l.ListLeaf? == m.ListLeaf?
  }

  ghost function Norms(ls: seq<Leaf>): (r: set<Norm>) {
    set l | l in ls :: NormOf(l)
  }

  /** Leaves of one type and key that the options leave open all carry the same value. */
  ghost predicate Agreeing(ls: seq<Leaf>, o: Options) {
    forall l, m :: l in ls && m in ls && SameSlot(l, m) && !Taken(l, o) ==> NormOf(l) == NormOf(m)
  }

  /** Equal options, up to the order of the entries of lists. */
  ghost predicate SameOptions(p: Options, q: Options) {
    && p.ints == q.ints
    && p.strings == q.strings
    && p.bools == q.bools
    && p.lists.Keys == q.lists.Keys
    && forall k :: k in p.lists ==> multiset(p.lists[k]) == multiset(q.lists[k])
  }

  /** What the options hold in the slot of a leaf. */
  function Current(l: Leaf, o: Options): (c: Leaf)
    requires Taken(l, o)
    ensures SameSlot(l, c)
  {
    match l
    case IntLeaf(k, _) => IntLeaf(k, o.ints[k])
    case TextLeaf(k, _) => TextLeaf(k, o.strings[k])
    case FlagLeaf(k, _) => FlagLeaf(k, o.bools[k])
    case ListLeaf(k, _) => ListLeaf(k, o.lists[k])
  }

  lemma {:induction false} SameFieldsReflexive(a: seq<Field>)
    ensures SameFields(a, a)
    decreases a
  {
    if a != [] {
      SameFieldReflexive(a[0]);
      SameFieldsReflexive(a[1..]);
      assert Without(a, 0) == a[1..];
    }
  }

  lemma {:induction false} SameFieldReflexive(f: Field)
    ensures SameField(f, f)
    decreases f
  {
    if f.value.Object? {
      SameFieldsReflexive(f.value.fields);
    }
  }

  lemma NormsConcat(a: seq<Leaf>, b: seq<Leaf>)
    ensures Norms(a + b) == Norms(a) + Norms(b)
  {
    forall n | n in Norms(a) + Norms(b) ensures n in Norms(a + b) {
      var l :| l in a + b && NormOf(l) == n;
    }
  }

  lemma SplitAt(style: Style, b: seq<Field>, j: nat)
    requires j < |b|
    ensures Norms(Leaves(style, b)) == Norms(FieldLeaves(style, b[j])) + Norms(Leaves(style, Without(b, j)))
  {
    var before, after := b[..j], b[j + 1..];
    assert b == before + ([b[j]] + after);
    LeavesConcat(style, before, [b[j]] + after);
    LeavesConcat(style, [b[j]], after);
    LeavesOfOne(style, b[j]);
    LeavesConcat(style, before, after);
    NormsConcat(Leaves(style, before), FieldLeaves(style, b[j]) + Leaves(style, after));
    NormsConcat(FieldLeaves(style, b[j]), Leaves(style, after));
    NormsConcat(Leaves(style, before), Leaves(style, after));
  }

  lemma MultisetMiddle(x: seq<string>, m: string, y: seq<string>)
    ensures multiset(x + ([m] + y)) == multiset{m} + multiset(x + y)
  {
  }

  lemma EntriesSplitAt(style: Style, b: seq<Field>, j: nat)
    requires j < |b|
    ensures multiset(Entries(style, b)) == multiset{Entry(style, b[j])} + multiset(Entries(style, Without(b, j)))
  {
    var x, y := Entries(style, b[..j]), Entries(style, b[j + 1..]);
    assert Entries(style, Without(b, j)) == x + y;
    assert Entries(style, b) == x + ([Entry(style, b[j])] + y);
    MultisetMiddle(x, Entry(style, b[j]), y);
  }

  lemma SameEntry(style: Style, f: Field, g: Field)
    requires ShowsSorted(style) && SameField(f, g)
    ensures Entry(style, f) == Entry(style, g)
  {
  }

  lemma {:induction false} SameEntries(style: Style, a: seq<Field>, b: seq<Field>)
    requires ShowsSorted(style) && SameFields(a, b)
    ensures multiset(Entries(style, a)) == multiset(Entries(style, b))
  {
    hide SameField, Entries;
    if a == [] {
      assert a == b;
    } else {
      var j :| 0 <= j < |b| && SameField(a[0], b[j]) && SameFields(a[1..], Without(b, j));
      SameEntries(style, a[1..], Without(b, j));
      SameEntry(style, a[0], b[j]);
      assert Without(a, 0) == a[1..];
      EntriesSplitAt(style, a, 0);
      EntriesSplitAt(style, b, j);
    }
  }

  lemma NormsOfOne(l: Leaf)
    ensures Norms([l]) == {NormOf(l)}
  {
    assert forall m :: m in [l] <==> m == l;
  }

  /** Two visits of one object meet the same leaves, up to the order of list entries. */
  lemma {:induction false} SameLeaves(style: Style, a: seq<Field>, b: seq<Field>)
    requires ShowsSorted(style) && SameFields(a, b)
    ensures Norms(Leaves(style, a)) == Norms(Leaves(style, b))
    decreases a
  {
    if a == [] {
    } else {
      var j :| 0 <= j < |b| && SameField(a[0], b[j]) && SameFields(a[1..], Without(b, j));
      SameFieldLeaves(style, a[0], b[j]);
      SameLeaves(style, a[1..], Without(b, j));
      NormsConcat(FieldLeaves(style, a[0]), Leaves(style, a[1..]));
      SplitAt(style, b, j);
    }
  }

  lemma {:induction false} SameFieldLeaves(style: Style, f: Field, g: Field)
    requires ShowsSorted(style) && SameField(f, g)
    ensures Norms(FieldLeaves(style, f)) == Norms(FieldLeaves(style, g))
    decreases f
  {
    hide ShowsSorted, SameFields, Entries, TextsOf;
    if f.value.Object? {
      if f.key == style.listKey {
        SameEntries(style, f.value.fields, g.value.fields);
        NormsOfOne(ListLeaf(f.key, Entries(style, f.value.fields)));
        NormsOfOne(ListLeaf(g.key, Entries(style, g.value.fields)));
      } else {
        SameLeaves(style, f.value.fields, g.value.fields);
      }
    }
  }

  /** Filling keeps what is there, takes every slot of a leaf, and adds nothing but leaves. */
  lemma {:induction false} FillMeets(ls: seq<Leaf>, o: Options, x: Leaf)
    ensures Taken(x, o) ==> Taken(x, FillGaps(ls, o)) && Current(x, FillGaps(ls, o)) == Current(x, o)
    ensures x in ls ==> Taken(x, FillGaps(ls, o))
    ensures Taken(x, FillGaps(ls, o)) && !Taken(x, o) ==> Current(x, FillGaps(ls, o)) in ls
  {
    if ls != [] {
      var before, last := ls[..|ls| - 1], ls[|ls| - 1];
      assert ls == before + [last];
      FillMeets(before, o, x);
    }
  }

  lemma FirstWins(ls: seq<Leaf>, o: Options)
    requires ls != [] && !Taken(ls[0], o)
    ensures Taken(ls[0], FillGaps(ls, o)) && Current(ls[0], FillGaps(ls, o)) == ls[0]
  {
    assert ls == [ls[0]] + ls[1..];
    FillGapsConcat([ls[0]], ls[1..], o);
    assert FillGaps([ls[0]], o) == Put(ls[0], o) by { assert [ls[0]][..0] == []; }
    FillMeets(ls[1..], Put(ls[0], o), ls[0]);
  }

  lemma AgreeingFill(ls: seq<Leaf>, ms: seq<Leaf>, o: Options, x: Leaf)
    requires Norms(ls) == Norms(ms) && Agreeing(ls, o) && Taken(x, FillGaps(ls, o))
    ensures Taken(x, FillGaps(ms, o))
    ensures NormOf(Current(x, FillGaps(ls, o))) == NormOf(Current(x, FillGaps(ms, o)))
  {
    FillMeets(ls, o, x);
    FillMeets(ms, o, x);
    if !Taken(x, o) {
      var c := Current(x, FillGaps(ls, o));
      assert NormOf(c) in Norms(ms);
      var d :| d in ms && NormOf(d) == NormOf(c);
      FillMeets(ms, o, d);
      var e := Current(x, FillGaps(ms, o));
      assert NormOf(e) in Norms(ls);
      var f :| f in ls && NormOf(f) == NormOf(e);
      assert SameSlot(c, f);
    }
  }

  lemma SlotwiseSame(p: Options, q: Options)
    requires forall x: Leaf :: Taken(x, p) ==> Taken(x, q) && NormOf(Current(x, p)) == NormOf(Current(x, q))
    requires forall x: Leaf :: Taken(x, q) ==> Taken(x, p)
    ensures SameOptions(p, q)
  {
    forall k ensures k in p.ints <==> k in q.ints ensures k in p.ints ==> p.ints[k] == q.ints[k] {
      assert Taken(IntLeaf(k, 0), p) <==> Taken(IntLeaf(k, 0), q);
    }
    assert p.ints == q.ints;
    forall k ensures k in p.strings <==> k in q.strings ensures k in p.strings ==> p.strings[k] == q.strings[k] {
      assert Taken(TextLeaf(k, ""), p) <==> Taken(TextLeaf(k, ""), q);
    }
    assert p.strings == q.strings;
    forall k ensures k in p.bools <==> k in q.bools ensures k in p.bools ==> p.bools[k] == q.bools[k] {
      assert Taken(FlagLeaf(k, true), p) <==> Taken(FlagLeaf(k, true), q);
    }
    assert p.bools == q.bools;
    forall k ensures k in p.lists <==> k in q.lists
      ensures k in p.lists ==> multiset(p.lists[k]) == multiset(q.lists[k])
    {
      assert Taken(ListLeaf(k, []), p) <==> Taken(ListLeaf(k, []), q);
    }
  }

  lemma SameSlotwise(p: Options, q: Options, x: Leaf)
    requires SameOptions(p, q) && Taken(x, p)
    ensures Taken(x, q) && NormOf(Current(x, p)) == NormOf(Current(x, q))
  {
  }

  lemma AgreeingSuffices(ls: seq<Leaf>, ms: seq<Leaf>, o: Options)
    requires Norms(ls) == Norms(ms) && Agreeing(ls, o)
    ensures SameOptions(FillGaps(ls, o), FillGaps(ms, o))
  {
    hide Norms, Agreeing;
    forall x | Taken(x, FillGaps(ls, o))
      ensures Taken(x, FillGaps(ms, o)) && NormOf(Current(x, FillGaps(ls, o))) == NormOf(Current(x, FillGaps(ms, o)))
    {
      AgreeingFill(ls, ms, o, x);
    }
    forall x | Taken(x, FillGaps(ms, o)) ensures Taken(x, FillGaps(ls, o)) {
      TakenBySome(ms, ls, o, x);
    }
    SlotwiseSame(FillGaps(ls, o), FillGaps(ms, o));
  }

  lemma TakenBySome(ms: seq<Leaf>, ls: seq<Leaf>, o: Options, x: Leaf)
    requires Norms(ls) == Norms(ms) && Taken(x, FillGaps(ms, o))
    ensures Taken(x, FillGaps(ls, o))
  {
    FillMeets(ms, o, x);
    FillMeets(ls, o, x);
    if !Taken(x, o) {
      var c := Current(x, FillGaps(ms, o));
      assert NormOf(c) in Norms(ls);
      var d :| d in ls && NormOf(d) == NormOf(c);
      FillMeets(ls, o, d);
    }
  }

  /** Some visit of the object meets any given one of its leaves first. */
  lemma {:induction false} BringFirst(style: Style, a: seq<Field>, l: Leaf) returns (b: seq<Field>)
    requires l in Leaves(style, a)
    ensures SameFields(a, b) && Leaves(style, b) != [] && Leaves(style, b)[0] == l
    decreases a
  {
    hide SameField, FieldLeaves;
    var f, rest := a[0], a[1..];
    if l in FieldLeaves(style, f) {
      var g := BringFirstIn(style, f, l);
      b := [g] + rest;
      SameFieldsReflexive(rest);
      assert Without(b, 0) == rest && b[1..] == rest;
    } else {
      var moved := BringFirst(style, rest, l);
      b := moved + [f];
      SameFieldReflexive(f);
      assert Without(b, |moved|) == moved;
      LeavesConcat(style, moved, [f]);
    }
  }

  lemma {:induction false} BringFirstIn(style: Style, f: Field, l: Leaf) returns (g: Field)
    requires l in FieldLeaves(style, f)
    ensures SameField(f, g) && FieldLeaves(style, g) != [] && FieldLeaves(style, g)[0] == l
    decreases f
  {
    if f.value.Object? && f.key != style.listKey {
      var sub := BringFirst(style, f.value.fields, l);
      g := Field(f.key, Object(sub));
    } else {
      g := f;
      SameFieldReflexive(f);
    }
  }

  /** Filling gaps from a saved object does not depend on the visit exactly when its repeated
      keys of one type, wherever they are nested, agree or are already taken. */
  lemma FillOrderFree(style: Style, a: seq<Field>, o: Options)
    requires ShowsSorted(style)
    ensures (forall b :: SameFields(a, b) ==>
               SameOptions(FillGaps(Leaves(style, a), o), FillGaps(Leaves(style, b), o)))
       <==> Agreeing(Leaves(style, a), o)
  {
    if Agreeing(Leaves(style, a), o) {
      forall b | SameFields(a, b)
        ensures SameOptions(FillGaps(Leaves(style, a), o), FillGaps(Leaves(style, b), o))
      {
        SameLeaves(style, a, b);
        AgreeingSuffices(Leaves(style, a), Leaves(style, b), o);
      }
    } else {
      var l, m :| l in Leaves(style, a) && m in Leaves(style, a) && SameSlot(l, m) && !Taken(l, o) && NormOf(l) != NormOf(m);
      var b := BringFirst(style, a, l);
      var c := BringFirst(style, a, m);
      FillMeets(Leaves(style, a), o, l);
      FirstsDisagree(FillGaps(Leaves(style, a), o), Leaves(style, b), Leaves(style, c), o);
    }
  }

  /** Two visits that meet different values of one open slot first cannot both give the same. */
  lemma FirstsDisagree(p: Options, ls: seq<Leaf>, ms: seq<Leaf>, o: Options)
    requires ls != [] && ms != [] && SameSlot(ls[0], ms[0]) && !Taken(ls[0], o) && NormOf(ls[0]) != NormOf(ms[0])
    requires Taken(ls[0], p)
    ensures !SameOptions(p, FillGaps(ls, o)) || !SameOptions(p, FillGaps(ms, o))
  {
    FirstWins(ls, o);
    FirstWins(ms, o);
    if SameOptions(p, FillGaps(ls, o)) && SameOptions(p, FillGaps(ms, o)) {
      SameSlotwise(p, FillGaps(ls, o), ls[0]);
      SameSlotwise(p, FillGaps(ms, o), ms[0]);
      assert false;
    }
  }

  // ---------------------------------------------------------------- overwriting

  lemma FirstFieldAt(a: seq<Field>, b: seq<Field>, j: nat)
    requires a != [] && |a| == |b| && j < |b| && SameField(a[0], b[j]) && SameFields(a[1..], Without(b, j))
    ensures SameFields(a, b)
  {
    hide SameField;
  }

  lemma LeavesWithLast(style: Style, rest: seq<Field>, g: Field)
    ensures Leaves(style, rest + [g]) == Leaves(style, rest) + FieldLeaves(style, g)
  {
    LeavesConcat(style, rest, [g]);
    LeavesOfOne(style, g);
  }

  lemma LeavesWithFirst(style: Style, f: Field, rest: seq<Field>)
    ensures Leaves(style, [f] + rest) == FieldLeaves(style, f) + Leaves(style, rest)
  {
    LeavesConcat(style, [f], rest);
    LeavesOfOne(style, f);
  }

  predicate EndsWith(ls: seq<Leaf>, l: Leaf) {
    ls != [] && ls[|ls| - 1] == l
  }

  lemma EndsConcat(a: seq<Leaf>, b: seq<Leaf>, l: Leaf)
    requires EndsWith(b, l)
    ensures EndsWith(a + b, l)
  {
  }

  /** Some visit of the object meets any given one of its leaves last. */
  lemma {:induction false} BringLast(style: Style, a: seq<Field>, l: Leaf) returns (b: seq<Field>)
    requires l in Leaves(style, a)
    ensures SameFields(a, b) && EndsWith(Leaves(style, b), l)
    decreases a
  {
    assert a != [];
    hide SameField, SameFields, Leaves, FieldLeaves, EndsWith;
    var f, rest := a[0], a[1..];
    assert a == [f] + rest;
    LeavesWithFirst(style, f, rest);
    if l in FieldLeaves(style, f) {
      var g := BringLastIn(style, f, l);
      b := rest + [g];
      MovedLast(f, g, rest);
      LeavesWithLast(style, rest, g);
      EndsConcat(Leaves(style, rest), FieldLeaves(style, g), l);
    } else {
      var moved := BringLast(style, rest, l);
      b := [f] + moved;
      KeptFirst(f, rest, moved);
      LeavesWithFirst(style, f, moved);
      EndsConcat(FieldLeaves(style, f), Leaves(style, moved), l);
    }
  }

  lemma MovedLast(f: Field, g: Field, rest: seq<Field>)
    requires SameField(f, g)
    ensures SameFields([f] + rest, rest + [g])
  {
    hide SameField;
    SameFieldsReflexive(rest);
    assert Without(rest + [g], |rest|) == rest == ([f] + rest)[1..];
    FirstFieldAt([f] + rest, rest + [g], |rest|);
  }

  lemma KeptFirst(f: Field, rest: seq<Field>, moved: seq<Field>)
    requires SameFields(rest, moved)
    ensures SameFields([f] + rest, [f] + moved)
  {
    hide SameField;
    SameFieldReflexive(f);
    SameLength(rest, moved);
    assert Without([f] + moved, 0) == moved && ([f] + rest)[1..] == rest;
    FirstFieldAt([f] + rest, [f] + moved, 0);
  }

  lemma SameLength(a: seq<Field>, b: seq<Field>)
    requires SameFields(a, b)
    ensures |a| == |b|
  {
  }

  lemma {:induction false} BringLastIn(style: Style, f: Field, l: Leaf) returns (g: Field)
    requires l in FieldLeaves(style, f)
    ensures SameField(f, g) && EndsWith(FieldLeaves(style, g), l)
    decreases f
  {
    if f.value.Object? && f.key != style.listKey {
      var sub := BringLast(style, f.value.fields, l);
      g := Field(f.key, Object(sub));
    } else {
      g := f;
      SameFieldReflexive(f);
    }
  }

  /** Flattened options under others: the gaps filled from the back. */
  lemma OverwrittenBeneath(ls: seq<Leaf>, o: Options)
    ensures Beneath(Overwrite(ls, NoOptions), o) == FillGaps(Reverse(ls), o)
    ensures Norms(Reverse(ls)) == Norms(ls)
    ensures Agreeing(Reverse(ls), o) <==> Agreeing(ls, o)
  {
    FillIsOverwriteBeneath(Reverse(ls), o);
    ReverseTwice(ls);
    ReverseKeeps(ls);
  }

  /** Flattening an object, under options that win anyway, does not depend on the visit exactly when
      the repeated keys of one type that those options leave open agree. */
  lemma FlattenOrderFree(style: Style, a: seq<Field>, o: Options)
    requires ShowsSorted(style)
    ensures (forall b :: SameFields(a, b) ==>
               SameOptions(Beneath(Overwrite(Leaves(style, a), NoOptions), o), Beneath(Overwrite(Leaves(style, b), NoOptions), o)))
       <==> Agreeing(Leaves(style, a), o)
  {
    hide ShowsSorted, SameOptions, Norms, Beneath, Overwrite;
    var ls := Leaves(style, a);
    OverwrittenBeneath(ls, o);
    if Agreeing(ls, o) {
      forall b | SameFields(a, b)
        ensures SameOptions(Beneath(Overwrite(ls, NoOptions), o), Beneath(Overwrite(Leaves(style, b), NoOptions), o))
      {
        OverwrittenBeneath(Leaves(style, b), o);
        SameLeaves(style, a, b);
        AgreeingSuffices(Reverse(ls), Reverse(Leaves(style, b)), o);
      }
    } else {
      var l, m :| l in ls && m in ls && SameSlot(l, m) && !Taken(l, o) && NormOf(l) != NormOf(m);
      var b := BringLast(style, a, l);
      var c := BringLast(style, a, m);
      OverwrittenBeneath(Leaves(style, b), o);
      OverwrittenBeneath(Leaves(style, c), o);
      ReverseKeeps(Leaves(style, b));
      ReverseKeeps(Leaves(style, c));
      ReverseKeeps(ls);
      FillMeets(Reverse(ls), o, l);
      FirstsDisagree(FillGaps(Reverse(ls), o), Reverse(Leaves(style, b)), Reverse(Leaves(style, c)), o);
    }
  }
}

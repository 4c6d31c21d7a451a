/** Labels and tags travel as a list of "k=v" entries and are split back into a map. */
module Labels {
  import opened Base

  /** strings.Split(s, "="). */
  function Split(s: string): (parts: seq<string>)
    ensures |parts| > 0
  {
    if s == "" then [""]
    else
      var rest := Split(s[1..]);
      if s[0] == '=' then [""] + rest else [[s[0]] + rest[0]] + rest[1..]
  }

  function EntryOf(k: string, v: string): (r: string) {
    k + "=" + v
  }

  function EntriesOf(m: map<string, string>, order: seq<string>): (r: seq<string>)
    requires forall k :: k in order ==> k in m
    ensures |r| == |order|
    ensures forall i :: 0 <= i < |order| ==> r[i] == EntryOf(order[i], m[order[i]])
  {
    seq(|order|, i requires 0 <= i < |order| => EntryOf(order[i], m[order[i]]))
  }

  /** An entry counts only when it splits into exactly two parts; later entries overwrite. */
  function Parse(parts: seq<string>): (r: map<string, string>) {
    if parts == [] then map[]
    else
      var before, kv := Parse(parts[..|parts| - 1]), Split(parts[|parts| - 1]);
      if |kv| == 2 then before[kv[0] := kv[1]] else before
  }

  /** The label loop of the drivers' option readers. */
  method ReadLabels(parts: seq<string>) returns (labels: map<string, string>)
    ensures labels == Parse(parts)
  {
    labels := map[];
    for i := 0 to |parts|
      invariant labels == Parse(parts[..i])
    {
      assert parts[..i + 1][..i] == parts[..i];
      var kv := Split(parts[i]);
      if |kv| == 2 {
        labels := labels[kv[0] := kv[1]];
      }
    }
    assert parts[..|parts|] == parts;
  }

  predicate Splittable(k: string, v: string) {
    '=' !in k && '=' !in v
  }

  /** What survives: the entries whose key and value are free of '='. */
  function Splittables(m: map<string, string>): (r: map<string, string>) {
    map k | k in m && Splittable(k, m[k]) :: m[k]
  }

  lemma {:induction false} SplitWhole(s: string)
    ensures |Split(s)| == 1 <==> '=' !in s
    ensures |Split(s)| == 1 ==> Split(s) == [s]
  {
    if s != "" {
      SplitWhole(s[1..]);
      assert s == [s[0]] + s[1..];
    }
  }

  /** An entry splits into exactly two parts when neither side holds a further '='. */
  lemma {:induction false} SplitEntry(k: string, v: string)
    ensures |Split(EntryOf(k, v))| == 2 <==> Splittable(k, v)
    ensures Splittable(k, v) ==> Split(EntryOf(k, v)) == [k, v]
  {
    var e := EntryOf(k, v);
    if k == "" {
      assert e[1..] == v;
      SplitWhole(v);
    } else {
      assert e[1..] == EntryOf(k[1..], v);
      SplitEntry(k[1..], v);
      assert k == [k[0]] + k[1..];
      if k[0] == '=' {
        SplitAtLeastTwo(k[1..], v);
      }
    }
  }

  lemma {:induction false} SplitAtLeastTwo(k: string, v: string)
    ensures |Split(EntryOf(k, v))| >= 2
  {
    var e := EntryOf(k, v);
    if k != "" {
      assert e[1..] == EntryOf(k[1..], v);
      SplitAtLeastTwo(k[1..], v);
    }
  }

  lemma {:induction false} ParseOfEntries(m: map<string, string>, order: seq<string>)
    requires forall k :: k in order ==> k in m
    ensures Parse(EntriesOf(m, order)) == map k | k in m && k in order && Splittable(k, m[k]) :: m[k]
  {
    if order == [] {
    } else {
      var before, k := order[..|order| - 1], order[|order| - 1];
      var es := EntriesOf(m, order);
      assert es[..|es| - 1] == EntriesOf(m, before);
      ParseOfEntries(m, before);
      SplitEntry(k, m[k]);
      assert forall x :: x in order <==> x in before || x == k;
    }
  }

  /** Whatever the order of the entries, exactly the splittable ones come back; so the round
      trip is the identity exactly on maps without '=' in any key or value. */
  lemma LabelRoundTrip(m: map<string, string>, order: seq<string>)
    requires Lists(order, m.Keys)
    ensures Parse(EntriesOf(m, order)) == Splittables(m)
    ensures Parse(EntriesOf(m, order)) == m <==> forall k :: k in m ==> Splittable(k, m[k])
  {
    ParseOfEntries(m, order);
    if Splittables(m) == m {
      forall k | k in m ensures Splittable(k, m[k]) {
        assert k in Splittables(m);
      }
    }
  }

  /** An entry counts exactly when it splits in two, and then it wins over all earlier ones of its key. */
  lemma LastEntryWins(parts: seq<string>, entry: string)
    ensures Parse(parts + [entry]) ==
            if |Split(entry)| == 2 then Parse(parts)[Split(entry)[0] := Split(entry)[1]] else Parse(parts)
  {
    assert (parts + [entry])[..|parts|] == parts;
  }
}

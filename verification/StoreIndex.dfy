/**
 The index of all stored clusters, built by scanning the directories, against the lookup of one.
 */
module StoreIndex {
  import opened Base
  import opened Lifecycle
  import opened CliStore
  import opened DiskHistory
  import opened KubeConfig

  /** What ReadDir and ReadFile return. */
  datatype FileEntry = FileEntry(name: string, isDir: bool, content: Content)
  datatype DirInfo = DirInfo(isDir: bool, files: seq<FileEntry>)

  type DirEntry = Named<DirInfo>

  predicate Hidden(name: string) {
    "." <= name
  }

  /** Scanning one directory on top of the clusters found so far. */
  function ScanDir(files: seq<FileEntry>, found: map<string, Record>): (r: Result<map<string, Record>, string>) {
    if files == [] then Ok(found)
    else
      var before, f := ScanDir(files[..|files| - 1], found), files[|files| - 1];
      if before.Err? || f.isDir || !HasSuffix(f.name, CONFIG) then before
      else
        match f.content
        case ClusterFile(rec) => Ok(before.value[rec.name := rec])
        case Bytes(_) => Err("invalid record")
  }

  function Scan(listing: seq<DirEntry>): (r: Result<map<string, Record>, string>) {
    if listing == [] then Ok(map[])
    else
      var before, d := Scan(listing[..|listing| - 1]), listing[|listing| - 1];
      if before.Err? || !d.data.isDir || Hidden(d.name) then before else ScanDir(d.data.files, before.value)
  }

  lemma {:induction false} ScanDirStops(files: seq<FileEntry>, i: nat, found: map<string, Record>)
    requires i <= |files| && ScanDir(files[..i], found).Err?
    ensures ScanDir(files, found) == ScanDir(files[..i], found)
  {
    if i == |files| {
      assert files[..i] == files;
    } else {
      assert files[..|files| - 1][..i] == files[..i];
      ScanDirStops(files[..|files| - 1], i, found);
    }
  }

  lemma {:induction false} ScanStops(listing: seq<DirEntry>, i: nat)
    requires i <= |listing| && Scan(listing[..i]).Err?
    ensures Scan(listing) == Scan(listing[..i])
  {
    if i == |listing| {
      assert listing[..i] == listing;
    } else {
      assert listing[..|listing| - 1][..i] == listing[..i];
      ScanStops(listing[..|listing| - 1], i);
    }
  }

  method GetAllClusterFromStore(listing: seq<DirEntry>) returns (r: Result<map<string, Record>, string>)
    ensures r == Scan(listing)
  {
    var clusters: map<string, Record> := map[];
    for i := 0 to |listing|
      invariant Scan(listing[..i]) == Ok(clusters)
    {
      var d := listing[i];
      assert listing[..i + 1][..i] == listing[..i];
      if d.data.isDir && !Hidden(d.name) {
        ghost var found := clusters;
        for k := 0 to |d.data.files|
          invariant ScanDir(d.data.files[..k], found) == Ok(clusters)
        {
          var f := d.data.files[k];
          assert d.data.files[..k + 1][..k] == d.data.files[..k];
          if !f.isDir && HasSuffix(f.name, CONFIG) {
            match f.content {
              case ClusterFile(rec) => clusters := clusters[rec.name := rec];
              case Bytes(_) =>
                ScanDirStops(d.data.files, k + 1, found);
                ScanStops(listing, i + 1);
                return Err("invalid record");
            }
          }
        }
        assert d.data.files[..|d.data.files|] == d.data.files;
      }
    }
    assert listing[..|listing|] == listing;
    r := Ok(clusters);
  }

  /** An entry shows a directory of the home: all its files, in some order. */
  ghost predicate ShowsDir(d: DirEntry, h: Home) {
    && d.data.isDir && d.name in h.dirs
    && Shows(d.data.files, h.dirs[d.name])
    && forall f :: f in h.dirs[d.name] ==> HasFile(d.data.files, f)
  }

  /** The listing shows the directories of the home, each once, in some order. */
  ghost predicate ListsHome(listing: seq<DirEntry>, h: Home) {
    && Lists(Names(listing), h.dirs.Keys)
    && forall d :: d in listing ==> ShowsDir(d, h)
  }

  predicate Shows(files: seq<FileEntry>, d: Dir) {
    forall f :: f in files ==> !f.isDir && f.name in d && f.content == d[f.name]
  }

  predicate HasFile(files: seq<FileEntry>, name: string) {
    exists f :: f in files && f.name == name
  }

  lemma {:induction false} ScanDirFinds(files: seq<FileEntry>, n: string, d: Dir, found: map<string, Record>)
    requires TidyDir(n, d) && Shows(files, d)
    ensures HasFile(files, CONFIG) ==> CONFIG in d
    ensures ScanDir(files, found) == Ok(if HasFile(files, CONFIG) then found[n := d[CONFIG].rec] else found)
  {
    if files != [] {
      var before, f := files[..|files| - 1], files[|files| - 1];
      assert files == before + [f];
      ScanDirFinds(before, n, d, found);
      if f.name == CONFIG {
        assert HasSuffix(f.name, CONFIG);
        assert found[n := d[CONFIG].rec][n := d[CONFIG].rec] == found[n := d[CONFIG].rec];
      } else {
        assert HasFile(files, CONFIG) <==> HasFile(before, CONFIG);
      }
    }
  }

  /** The visible records among some directories. */
  function VisibleRecords(h: Home, names: seq<string>): (r: map<string, Record>)
    requires Tidy(h)
  {
    map n | n in RecordsOn(h) && n in names && !Hidden(n) :: RecordsOn(h)[n]
  }

  lemma VisibleStep(h: Home, names: seq<string>, n: string)
    requires Tidy(h) && n in h.dirs
    ensures CONFIG in h.dirs[n] ==> h.dirs[n][CONFIG].ClusterFile?
    ensures VisibleRecords(h, names + [n])
         == if Hidden(n) || CONFIG !in h.dirs[n] then VisibleRecords(h, names)
            else VisibleRecords(h, names)[n := h.dirs[n][CONFIG].rec]
  {
    assert TidyDir(n, h.dirs[n]);
  }

  lemma {:induction false} ScanFinds(listing: seq<DirEntry>, h: Home)
    requires Tidy(h) && forall d :: d in listing ==> ShowsDir(d, h)
    ensures Scan(listing) == Ok(VisibleRecords(h, Names(listing)))
  {
    hide VisibleRecords, Hidden, ScanDir;
    if listing == [] {
      assert VisibleRecords(h, Names(listing)) == map[] by { NothingVisible(h, Names(listing)); }
    } else {
      var before, d := listing[..|listing| - 1], listing[|listing| - 1];
      ScanFinds(before, h);
      assert d in listing && TidyDir(d.name, h.dirs[d.name]);
      ScanDirFinds(d.data.files, d.name, h.dirs[d.name], Scan(before).value);
      assert Names(listing) == Names(before) + [d.name];
      VisibleStep(h, Names(before), d.name);
    }
  }

  lemma NothingVisible(h: Home, names: seq<string>)
    requires Tidy(h) && names == []
    ensures VisibleRecords(h, names) == map[]
  {
  }

  /** After any history of the store, the scan of the home finds exactly the records that a lookup
      finds, except those whose name starts with a dot, which only the lookup finds. */
  lemma IndexAgrees(j: Journal, steps: seq<Step>, decode: string -> Option<string>, listing: seq<DirEntry>, n: string)
    requires History(j, steps, decode) && ListsHome(listing, HomeAfter(j, steps, decode))
    ensures var h := HomeAfter(j, steps, decode);
            && Scan(listing).Ok?
            && (n in Scan(listing).value <==> Get(h, n).Ok? && !(n != "" && n[0] == '.'))
            && (n in Scan(listing).value ==> Get(h, n) == Ok(Scan(listing).value[n]))
            && (Get(h, n).Ok? <==> n in Records(j))
            && (Get(h, n).Ok? ==> Get(h, n).value == Records(j)[n])
  {
    var h := HomeAfter(j, steps, decode);
    DiskRefinesRecords(j, steps, decode);
    ScanFinds(listing, h);
    assert n in RecordsOn(h) ==> n in Names(listing);
    assert n in h.dirs ==> TidyDir(n, h.dirs[n]);
  }

  /** A file looks like a record when its name ends in the name of the record file. */
  lemma SuffixExactly(s: string, suffix: string)
    ensures HasSuffix(s, suffix) <==> exists p :: s == p + suffix
  {
    if HasSuffix(s, suffix) {
      assert s == s[..|s| - |suffix|] + suffix;
    }
  }

  /** A file that looks like a record and does not decode. */
  predicate Undecodable(f: FileEntry) {
    !f.isDir && HasSuffix(f.name, CONFIG) && f.content.Bytes?
  }

  predicate Spoiled(d: DirEntry) {
    d.data.isDir && !Hidden(d.name) && exists f :: f in d.data.files && Undecodable(f)
  }

  lemma {:induction false} ScanDirFails(files: seq<FileEntry>, found: map<string, Record>)
    ensures ScanDir(files, found).Err? <==> exists f :: f in files && Undecodable(f)
  {
    if files != [] {
      var before, last := files[..|files| - 1], files[|files| - 1];
      ScanDirFails(before, found);
      assert files == before + [last];
      assert Undecodable(last) ==> last in files;
    }
  }

  /** The scan fails exactly when a visible directory holds a file that looks like a record and does
      not decode. */
  lemma {:induction false} ScanFailsExactly(listing: seq<DirEntry>)
    ensures Scan(listing).Err? <==> exists d :: d in listing && Spoiled(d)
  {
    hide Hidden, ScanDir;
    if listing != [] {
      var before, last := listing[..|listing| - 1], listing[|listing| - 1];
      ScanFailsExactly(before);
      assert listing == before + [last];
      assert Spoiled(last) ==> last in listing;
      if Scan(before).Ok? {
        ScanDirFails(last.data.files, Scan(before).value);
      }
    }
  }
}

/**
 Replacing a file in several calls to the operating system, any of which may fail, and after any
 of which the process may stop.
 */
module FileWrite {
  import opened Base

  /** Paths and whole contents. */
  type Files = map<string, string>

  /** The operating system: whether the i-th call fails, what a failed write leaves in the file (if
      it creates it at all), and the name given to a temporary file. */
  datatype System = System(fails: nat -> bool, partial: nat -> Option<string>, temp: nat -> string)

  /** The files after each call, in order, and whether nil is returned. */
  datatype Trace = Trace(states: seq<Files>, ok: bool)

  function Written(fs: Files, file: string, data: string, os: System, now: nat): (r: Files) {
    if !os.fails(now) then fs[file := data]
    else if os.partial(now).Some? then fs[file := os.partial(now).value]
    else fs
  }

  function Removed(fs: Files, file: string, os: System, now: nat): (r: Files) {
    if os.fails(now) then fs else fs - {file}
  }

  /** WriteToFile; the calls are MkdirAll, Stat and then either one write or a replacement. */
  function WriteTrace(fs: Files, file: string, data: string, os: System, now: nat): (r: Trace) {
    if os.fails(now) then Trace([fs], false)
    else if file !in fs && !os.fails(now + 1) then
      Trace([fs, fs, Written(fs, file, data, os, now + 2)], !os.fails(now + 2))
    else
      var r := ReplaceTrace(fs, file, data, os, now + 2);
      Trace([fs, fs] + r.states, r.ok)
  }

  /** TempFile and WriteFile of the temporary file. */
  function ReplaceTrace(fs: Files, file: string, data: string, os: System, now: nat): (r: Trace) {
    var tmp := os.temp(now);
    if os.fails(now) then Trace([fs], false)
    else
      var made := fs[tmp := ""];
      var filled := Written(made, tmp, data, os, now + 1);
      if os.fails(now + 1) then Trace([made, filled, Removed(filled, tmp, os, now + 2)], false)
      else
        var r := SwapTrace(filled, file, tmp, os, now + 2);
        Trace([made, filled] + r.states, r.ok)
  }

  /** Close, Remove, Rename, and the deferred removal of the temporary file. */
  function SwapTrace(fs: Files, file: string, tmp: string, os: System, now: nat): (r: Trace)
    requires tmp in fs
  {
    if os.fails(now) then Trace([fs, Removed(fs, tmp, os, now + 1)], false)
    else if os.fails(now + 1) || file !in fs then
      Trace([fs, Removed(fs, file, os, now + 1), Removed(Removed(fs, file, os, now + 1), tmp, os, now + 2)], false)
    else
      var bare := fs - {file};
      var moved := if os.fails(now + 2) || tmp !in bare then bare else (bare - {tmp})[file := fs[tmp]];
      Trace([fs, bare, moved, Removed(moved, tmp, os, now + 3)], !os.fails(now + 2))
  }

  class FileSystem {
    var files: Files
    var calls: nat
    ghost var history: seq<Files>
    const os: System

    constructor (files: Files, os: System)
      ensures this.files == files && this.os == os && calls == 0 && history == []
    {
      this.files, this.os, calls, history := files, os, 0, [];
    }

    /** Any call that leaves the files as given. */
    method Call(after: Files) returns (failed: bool)
      modifies this
      ensures failed == os.fails(old(calls)) && calls == old(calls) + 1
      ensures files == after && history == old(history) + [after]
    {
      failed := os.fails(calls);
      files, calls := after, calls + 1;
      history := history + [files];
    }

    method WriteFile(file: string, data: string) returns (failed: bool)
      modifies this
      ensures failed == os.fails(old(calls)) && calls == old(calls) + 1
      ensures files == Written(old(files), file, data, os, old(calls)) && history == old(history) + [files]
    {
      failed := Call(Written(files, file, data, os, calls));
    }

    method Remove(file: string) returns (failed: bool)
      modifies this
      ensures failed == (os.fails(old(calls)) || file !in old(files)) && calls == old(calls) + 1
      ensures files == Removed(old(files), file, os, old(calls)) && history == old(history) + [files]
    {
      var absent := file !in files;
      failed := Call(Removed(files, file, os, calls));
      failed := failed || absent;
    }

    method Rename(from: string, to: string) returns (failed: bool)
      requires from in files
      modifies this
      ensures failed == os.fails(old(calls)) && calls == old(calls) + 1
      ensures files == if failed then old(files) else (old(files) - {from})[to := old(files)[from]]
      ensures history == old(history) + [files]
    {
      failed := Call(if os.fails(calls) then files else (files - {from})[to := files[from]]);
    }

    method WriteToFile(file: string, data: string) returns (ok: bool)
      requires os.temp(calls + 2) !in files && os.temp(calls + 2) != file
      modifies this
      ensures history == old(history) + WriteTrace(old(files), file, data, os, old(calls)).states
      ensures ok == WriteTrace(old(files), file, data, os, old(calls)).ok
      ensures history != [] && files == history[|history| - 1]
    {
      var failed := Call(files);
      if failed {
        return false;
      }
      var missing := file !in files;
      failed := Call(files);
      if missing && !failed {
        failed := WriteFile(file, data);
        return !failed;
      }
      ok := ReplaceFile(file, data);
    }

    method ReplaceFile(file: string, data: string) returns (ok: bool)
      requires os.temp(calls) !in files && os.temp(calls) != file
      modifies this
      ensures history == old(history) + ReplaceTrace(old(files), file, data, os, old(calls)).states
      ensures ok == ReplaceTrace(old(files), file, data, os, old(calls)).ok
      ensures history != [] && files == history[|history| - 1]
    {
      ghost var before := history;
      var tmp := os.temp(calls);
      var failed := Call(if os.fails(calls) then files else files[tmp := ""]);
      if failed {
        return false;
      }
      ghost var made := files;
      failed := WriteFile(tmp, data);
      if failed {
        ghost var filled := files;
        var _ := Remove(tmp);
        assert history == before + [made, filled, files];
        return false;
      }
      ok := SwapIn(file, tmp);
    }

    method SwapIn(file: string, tmp: string) returns (ok: bool)
      requires tmp in files && tmp != file
      modifies this
      ensures history == old(history) + SwapTrace(old(files), file, tmp, os, old(calls)).states
      ensures ok == SwapTrace(old(files), file, tmp, os, old(calls)).ok
      ensures history != [] && files == history[|history| - 1]
    {
      var failed := Call(files);
      if failed {
        var _ := Remove(tmp);
        return false;
      }
      failed := Remove(file);
      if failed {
        var _ := Remove(tmp);
        return false;
      }
      failed := Rename(tmp, file);
      var _ := Remove(tmp);
      ok := !failed;
    }
  }

  /** The target is the whole old content, or absent with the whole new content in the temporary
      file, or the whole new content. */
  predicate Whole(s: Files, file: string, tmp: string, before: string, data: string) {
    if file in s then s[file] == before || s[file] == data else tmp in s && s[tmp] == data
  }

  /** The rename is reached and fails, and the temporary file is then removed. */
  predicate LosesBoth(os: System, now: nat) {
    && !os.fails(now) && !os.fails(now + 2) && !os.fails(now + 3) && !os.fails(now + 4) && !os.fails(now + 5)
    && os.fails(now + 6) && !os.fails(now + 7)
  }

  /** On an existing target, one of the two whole contents can be found after every call, exactly
      unless a failed rename is followed by the removal of the temporary file, which leaves neither. */
  lemma ReplacementIsWhole(fs: Files, file: string, data: string, os: System, now: nat)
    requires file in fs && os.temp(now + 2) !in fs
    ensures var r := WriteTrace(fs, file, data, os, now);
            && ((forall s :: s in r.states ==> Whole(s, file, os.temp(now + 2), fs[file], data)) <==> !LosesBoth(os, now))
            && (LosesBoth(os, now) ==> r.states[|r.states| - 1] == fs - {file} && !r.ok)
  {
    var r := WriteTrace(fs, file, data, os, now);
    var tmp := os.temp(now + 2);
    if LosesBoth(os, now) {
      var last := r.states[|r.states| - 1];
      assert last == fs - {file};
      assert last in r.states && !Whole(last, file, tmp, fs[file], data);
    } else {
      forall i | 0 <= i < |r.states| ensures Whole(r.states[i], file, tmp, fs[file], data) {
      }
    }
  }

  /** A nil return means the new content in the target, no temporary file, and nothing else
      touched, whether the target existed or not. */
  lemma NilMeansReplaced(fs: Files, file: string, data: string, os: System, now: nat)
    requires os.temp(now + 2) !in fs && os.temp(now + 2) != file
    ensures var r := WriteTrace(fs, file, data, os, now);
            r.ok ==> r.states[|r.states| - 1] == fs[file := data]
  {
    var tmp := os.temp(now + 2);
    assert fs[tmp := ""][tmp := data] - {file} - {tmp} == fs - {file};
    assert (fs - {file})[file := data] == fs[file := data];
    assert fs[file := data] - {tmp} == fs[file := data];
  }

  /** The file is as it was. */
  predicate SameAt(fs: Files, s: Files, other: string) {
    (other in s <==> other in fs) && (other in fs ==> s[other] == fs[other])
  }

  lemma SwapUntouched(fs: Files, file: string, tmp: string, os: System, now: nat, other: string)
    requires tmp in fs && other != file && other != tmp
    ensures forall s :: s in SwapTrace(fs, file, tmp, os, now).states ==> SameAt(fs, s, other)
  {
  }

  lemma ReplaceUntouched(fs: Files, file: string, data: string, os: System, now: nat, other: string)
    requires other != file && other != os.temp(now)
    ensures forall s :: s in ReplaceTrace(fs, file, data, os, now).states ==> SameAt(fs, s, other)
  {
    hide SwapTrace;
    var filled := Written(fs[os.temp(now) := ""], os.temp(now), data, os, now + 1);
    SwapUntouched(filled, file, os.temp(now), os, now + 2, other);
  }

  /** No call touches any other file. */
  lemma OthersUntouched(fs: Files, file: string, data: string, os: System, now: nat, other: string)
    requires other != file && other != os.temp(now + 2)
    ensures forall s :: s in WriteTrace(fs, file, data, os, now).states ==> SameAt(fs, s, other)
  {
    hide ReplaceTrace;
    ReplaceUntouched(fs, file, data, os, now + 2, other);
  }

  /** Nil is returned exactly when: the directory can be made; and a target that is found missing is
      written; or, on a target that is there, the temporary file is made, written and closed, the
      target removed and the rename done, whatever Stat said. */
  lemma NilExactly(fs: Files, file: string, data: string, os: System, now: nat)
    requires os.temp(now + 2) !in fs && os.temp(now + 2) != file
    ensures WriteTrace(fs, file, data, os, now).ok <==>
              && !os.fails(now)
              && if file !in fs then !os.fails(now + 1) && !os.fails(now + 2)
                 else !os.fails(now + 2) && !os.fails(now + 3) && !os.fails(now + 4) && !os.fails(now + 5) && !os.fails(now + 6)
  {
  }
}

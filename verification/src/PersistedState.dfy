/** The enabled-set on disk: a temporary file renamed over `enabled.json`.

    A directory is a map from file names to contents. Every file operation records the contents it
    leaves in `history`, so a process that dies between two operations leaves one of those. */
module PersistedState {
  import opened Bytes
  import opened Options

  type Content = seq<byte>
  type Files = map<string, Content>

  const ENABLED_FILE := "enabled.json"
  const TEMP_PREFIX := ".state-tmp-"
  const MAX_ATTEMPTS := 100

  datatype StateError = Io | Parse

  datatype Result<+T> = Ok(value: T) | Err(error: StateError)

  /** The JSON codec of the set: whatever is written reads back, and is never empty. */
  datatype Codec = Codec(encode: set<string> -> Content, decode: Content -> Option<set<string>>)

  ghost predicate Faithful(c: Codec)
  {
    forall names :: c.encode(names) != [] && c.decode(c.encode(names)) == Some(names)
  }

  /** What loading gives for these directory contents; a missing or empty file is an empty set. */
  function Loads(c: Codec, files: Files): Result<set<string>>
  {
    if ENABLED_FILE !in files || files[ENABLED_FILE] == [] then Ok({})
    else match c.decode(files[ENABLED_FILE])
      case None => Err(Parse)
      case Some(names) => Ok(names)
  }

  function HexDigit(d: nat): char
    requires d < 16
  {
    "0123456789abcdef"[d]
  }

  /** A number in lower-case hexadecimal, as a random suffix is printed. */
  function Hex(v: nat): (s: string)
    ensures |s| >= 1
  {
    if v < 16 then [HexDigit(v)] else Hex(v / 16) + [HexDigit(v % 16)]
  }

  /** Lower-case hexadecimal read back. */
  function HexValue(s: string): int
  {
    if s == "" then 0
    else
      var c := s[|s| - 1];
      16 * HexValue(s[..|s| - 1]) +
      if '0' <= c <= '9' then c as int - '0' as int else if 'a' <= c <= 'f' then c as int - 'a' as int + 10 else -1
  }

  /** The suffix names the draw, without leading zeros; so different draws give different names. */
  lemma {:induction false} HexReads(v: nat)
    ensures HexValue(Hex(v)) == v && (v > 0 ==> Hex(v)[0] != '0')
  {
    if v >= 16 {
      HexReads(v / 16);
      assert Hex(v)[..|Hex(v)| - 1] == Hex(v / 16);
    } else {
      assert Hex(v)[..0] == "";
    }
  }

  lemma TempNames(draw: nat, other: nat)
    ensures TempName(draw) == ".state-tmp-" + Hex(draw)
    ensures TempName(draw) == TempName(other) <==> draw == other
  {
    HexReads(draw);
    HexReads(other);
    assert TempName(draw)[|TEMP_PREFIX|..] == Hex(draw) && TempName(other)[|TEMP_PREFIX|..] == Hex(other);
  }

  function TempName(draw: nat): string
  {
    TEMP_PREFIX + Hex(draw)
  }

  lemma TempIsNotEnabled(draw: nat)
    ensures TempName(draw) != ENABLED_FILE
  {
    assert TempName(draw)[0] == '.';
  }

  class Directory {
    var files: Files
    ghost var history: seq<Files>

    constructor (files: Files)
      ensures this.files == files && history == []
    {
      this.files := files;
      history := [];
    }

    /** `create_new`: fails rather than open a file that exists. */
    method CreateNew(path: string) returns (created: bool)
      modifies this
      ensures created <==> path !in old(files)
      ensures files == if created then old(files)[path := []] else old(files)
      ensures history == old(history) + [files]
    {
      created := path !in files;
      if created {
        files := files[path := []];
      }
      history := history + [files];
    }

    method Append(path: string, data: Content)
      requires path in files
      modifies this
      ensures files == old(files)[path := old(files[path]) + data]
      ensures history == old(history) + [files]
    {
      files := files[path := files[path] + data];
      history := history + [files];
    }

    /** The outcome of a removal is ignored by its callers. */
    method Remove(path: string, works: bool)
      modifies this
      ensures files == if works then old(files) - {path} else old(files)
      ensures history == old(history) + [files]
    {
      if works {
        files := files - {path};
      }
      history := history + [files];
    }

    /** Renaming replaces the target in one step. */
    method Rename(from: string, to: string)
      requires from in files && from != to
      modifies this
      ensures files == old(files)[to := old(files[from])] - {from}
      ensures history == old(history) + [files]
    {
      files := files[to := files[from]] - {from};
      history := history + [files];
    }
  }

  /** How the file system behaves during one save. `draws` are the random suffixes, `openErrors` the
      attempts whose open fails for another reason than an existing file. */
  datatype World = World(
    mkdirOk: bool,
    draws: seq<nat>,
    openErrors: set<nat>,
    chmodOk: bool,
    writes: seq<Written>,
    removeOk: bool,
    renameOk: bool)

  /** One `write` call accepts some bytes or fails. */
  datatype Written = Accepted(count: nat) | WriteFailed

  /** Attempt `k` creates the temporary file: no earlier one hit an error, all their names were taken,
      and this one's is free. */
  predicate CreatesAt(draws: seq<nat>, openErrors: set<nat>, files: Files, k: nat)
    requires |draws| == MAX_ATTEMPTS
  {
    && k < MAX_ATTEMPTS && k !in openErrors && TempName(draws[k]) !in files
    && (forall j :: 0 <= j < k ==> j !in openErrors && TempName(draws[j]) in files)
  }

  ghost predicate Creates(draws: seq<nat>, openErrors: set<nat>, files: Files)
    requires |draws| == MAX_ATTEMPTS
  {
    exists k: nat :: CreatesAt(draws, openErrors, files, k)
  }

  /** Writing `need` bytes goes through: no `write` fails or takes nothing before all of them are
      taken. Writes beyond the given ones take everything. */
  predicate WritesGoThrough(writes: seq<Written>, need: nat)
  {
    need == 0 || writes == [] ||
    (writes[0].Accepted? && writes[0].count > 0
     && WritesGoThrough(writes[1..], if writes[0].count <= need then need - writes[0].count else 0))
  }

  /** Creates a uniquely named temporary file. */
  method CreateTempFile(dir: Directory, draws: seq<nat>, openErrors: set<nat>) returns (path: Option<string>)
    requires |draws| == 100
    modifies dir
    ensures path.Some? <==> Creates(draws, openErrors, old(dir.files))
    ensures path.Some? ==>
      exists k: nat :: CreatesAt(draws, openErrors, old(dir.files), k) && path.value == TempName(draws[k])
    ensures path.Some? ==>
      && path.value !in old(dir.files) && path.value != "enabled.json" && ".state-tmp-" <= path.value
      && dir.files == old(dir.files)[path.value := []]
      && 0 < |dir.history| && dir.history[|dir.history| - 1] == dir.files
    ensures path.None? ==> dir.files == old(dir.files)
    ensures old(dir.history) <= dir.history
    ensures forall i :: old(|dir.history|) <= i < |dir.history| ==>
      dir.history[i] == old(dir.files) || dir.history[i] == dir.files
  {
    var attempt := 0;
    while attempt < MAX_ATTEMPTS
      invariant attempt <= MAX_ATTEMPTS && dir.files == old(dir.files) && old(dir.history) <= dir.history
      invariant forall i :: old(|dir.history|) <= i < |dir.history| ==> dir.history[i] == old(dir.files)
      invariant forall k :: 0 <= k < attempt ==> k !in openErrors && TempName(draws[k]) in old(dir.files)
    {
      var candidate := TempName(draws[attempt]);
      if attempt in openErrors {
        return None;
      }
      var created := dir.CreateNew(candidate);
      if created {
        TempIsNotEnabled(draws[attempt]);
        assert CreatesAt(draws, openErrors, old(dir.files), attempt);
        return Some(candidate);
      }
      attempt := attempt + 1;
    }
    return None;
  }

  /** Directory contents a crash may leave: `enabled.json` reads as before or as after, and every
      other file that was there is as it was. */
  ghost predicate CrashSafe(c: Codec, before: Files, names: set<string>, now: Files)
  {
    && (Loads(c, now) == Loads(c, before) || Loads(c, now) == Ok(names))
    && (forall p :: p in before && p != ENABLED_FILE ==> p in now && now[p] == before[p])
  }

  /** The directory as it was, but for the temporary file. */
  ghost predicate OnlyTemp(before: Files, path: string, now: Files)
  {
    now - {path} == before - {path} && path !in before && path != ENABLED_FILE
  }

  lemma OnlyTempIsSafe(c: Codec, before: Files, path: string, names: set<string>, now: Files)
    requires OnlyTemp(before, path, now)
    ensures CrashSafe(c, before, names, now) && Loads(c, now) == Loads(c, before)
    ensures (path in now <==> now != before) && (ENABLED_FILE in now <==> ENABLED_FILE in before)
  {
    if path !in now { assert now - {path} == now && before - {path} == before; }
    assert forall p :: p in before ==> p in before - {path};
    forall p | p in before ensures p in now && now[p] == before[p] {
    }
    if ENABLED_FILE in now { assert ENABLED_FILE in now - {path}; }
  }

  /** Writes all of `data`, in as many writes as the file system takes. */
  method WriteAll(dir: Directory, path: string, data: Content, writes: seq<Written>, ghost before: Files)
    returns (ok: bool)
    requires path in dir.files && dir.files[path] == [] && OnlyTemp(before, path, dir.files)
    modifies dir
    ensures path in dir.files && OnlyTemp(before, path, dir.files)
    ensures ok <==> WritesGoThrough(writes, |data|)
    ensures ok ==> dir.files[path] == data
    ensures old(dir.history) <= dir.history
    ensures forall i :: old(|dir.history|) <= i < |dir.history| ==> OnlyTemp(before, path, dir.history[i])
  {
    var done := 0;
    var calls := 0;
    assert writes[calls..] == writes;
    while done < |data|
      invariant done <= |data| && path in dir.files && dir.files[path] == data[..done]
      invariant calls <= |writes|
      invariant WritesGoThrough(writes, |data|) <==> WritesGoThrough(writes[calls..], |data| - done)
      invariant OnlyTemp(before, path, dir.files) && old(dir.history) <= dir.history
      invariant forall i :: old(|dir.history|) <= i < |dir.history| ==> OnlyTemp(before, path, dir.history[i])
    {
      var w := if calls < |writes| then writes[calls] else Accepted(|data| - done);
      assert calls < |writes| ==> writes[calls..][1..] == writes[calls + 1..];
      calls := if calls < |writes| then calls + 1 else calls;
      if w.WriteFailed? || w.count == 0 {
        return false;
      }
      var count := if w.count <= |data| - done then w.count else |data| - done;
      dir.Append(path, data[done..done + count]);
      assert data[..done] + data[done..done + count] == data[..done + count];
      done := done + count;
    }
    return true;
  }

  class PersistedState {
    var enabled: set<string>

    constructor ()
      ensures enabled == {}
    {
      enabled := {};
    }

    method Add(name: string) returns (fresh': bool)
      modifies this
      ensures enabled == old(enabled) + {name} && (fresh' <==> name !in old(enabled))
    {
      fresh' := name !in enabled;
      enabled := enabled + {name};
    }

    method Remove(name: string) returns (present: bool)
      modifies this
      ensures enabled == old(enabled) - {name} && (present <==> name in old(enabled))
    {
      present := name in enabled;
      enabled := enabled - {name};
    }

    /** Reads the enabled-set from the directory. */
    static method Load(c: Codec, dir: Directory, readable: bool) returns (r: Result<set<string>>)
      ensures r == if readable || ENABLED_FILE !in dir.files then Loads(c, dir.files) else Err(Io)
      ensures "enabled.json" !in dir.files ==> r == Ok({})
      ensures "enabled.json" in dir.files && !readable ==> r == Err(Io)
      ensures "enabled.json" in dir.files && readable ==>
        var data := dir.files["enabled.json"];
        if data == [] then r == Ok({})
        else if c.decode(data).None? then r == Err(Parse)
        else r == Ok(c.decode(data).value)
    {
      if ENABLED_FILE !in dir.files {
        return Ok({});
      }
      if !readable {
        return Err(Io);
      }
      var data := dir.files[ENABLED_FILE];
      if data == [] {
        return Ok({});
      }
      match c.decode(data) {
        case None => return Err(Parse);
        case Some(names) => return Ok(names);
      }
    }

    ghost predicate Writes(c: Codec, w: World)
      reads this
    {
      WritesGoThrough(w.writes, |c.encode(enabled)|)
    }

    /** Saves atomically. Dying after any file operation leaves a directory that loads as before or as
        after; a save that returns an error leaves `enabled.json` as it was, and nothing else behind
        unless the temporary file exists and is not removed, which a failed rename never does. */
    method Save(c: Codec, dir: Directory, w: World) returns (r: Result<()>)
      requires Faithful(c) && |w.draws| == MAX_ATTEMPTS
      modifies dir
      ensures enabled == old(enabled) && old(dir.history) <= dir.history
      ensures forall i :: old(|dir.history|) <= i < |dir.history| ==>
        CrashSafe(c, old(dir.files), enabled, dir.history[i])
      ensures CrashSafe(c, old(dir.files), enabled, dir.files)
      ensures Loads(c, dir.files) == if r.Ok? then Ok(enabled) else Loads(c, old(dir.files))
      ensures r.Ok? <==>
        w.mkdirOk && Creates(w.draws, w.openErrors, old(dir.files)) && w.chmodOk && Writes(c, w) && w.renameOk
      ensures r.Ok? ==> dir.files == old(dir.files)[ENABLED_FILE := c.encode(enabled)]
      ensures r.Err? ==>
        (dir.files == old(dir.files) <==>
          || !w.mkdirOk || !Creates(w.draws, w.openErrors, old(dir.files))
          || (w.removeOk && (!w.chmodOk || !Writes(c, w))))
      ensures r.Err? && dir.files != old(dir.files) ==> exists k: nat ::
        && CreatesAt(w.draws, w.openErrors, old(dir.files), k) && TempName(w.draws[k]) in dir.files
        && OnlyTemp(old(dir.files), TempName(w.draws[k]), dir.files)
    {
      ghost var before := dir.files;
      if !w.mkdirOk {
        return Err(Io);
      }
      var data := c.encode(enabled);
      var temp := CreateTempFile(dir, w.draws, w.openErrors);
      if temp.None? {
        return Err(Io);
      }
      OnlyTempIsSafe(c, before, temp.value, enabled, dir.files);
      var done := Commit(c, dir, temp.value, data, w, before);
      if !done { OnlyTempIsSafe(c, before, temp.value, enabled, dir.files); }
      return if done then Ok(()) else Err(Io);
    }

    /** Fills the new temporary file and renames it over `enabled.json`. */
    method Commit(c: Codec, dir: Directory, path: string, data: Content, w: World, ghost before: Files)
      returns (done: bool)
      requires Faithful(c) && data == c.encode(enabled)
      requires path in dir.files && dir.files[path] == [] && OnlyTemp(before, path, dir.files)
      modifies dir
      ensures enabled == old(enabled) && old(dir.history) <= dir.history
      ensures forall i :: old(|dir.history|) <= i < |dir.history| ==> CrashSafe(c, before, enabled, dir.history[i])
      ensures CrashSafe(c, before, enabled, dir.files)
      ensures done <==> w.chmodOk && Writes(c, w) && w.renameOk
      ensures done ==> dir.files == before[ENABLED_FILE := data]
      ensures !done ==> OnlyTemp(before, path, dir.files) && Loads(c, dir.files) == Loads(c, before)
      ensures !done ==> (path !in dir.files <==> w.removeOk && (!w.chmodOk || !Writes(c, w)))
    {
      if !w.chmodOk {
        dir.Remove(path, w.removeOk);
        OnlyTempIsSafe(c, before, path, enabled, dir.files);
        return false;
      }
      ghost var start := |dir.history|;
      var ok := WriteAll(dir, path, data, w.writes, before);
      forall i | start <= i < |dir.history| ensures CrashSafe(c, before, enabled, dir.history[i]) {
        OnlyTempIsSafe(c, before, path, enabled, dir.history[i]);
      }
      OnlyTempIsSafe(c, before, path, enabled, dir.files);
      if !ok {
        dir.Remove(path, w.removeOk);
        OnlyTempIsSafe(c, before, path, enabled, dir.files);
        return false;
      }
      if !w.renameOk {
        return false;
      }
      Renamed(before, path, dir.files);
      dir.Rename(path, ENABLED_FILE);
      return true;
    }
  }

  /** A save into an empty directory whose rename fails leaves its temporary file there. */
  method FailedRenameLeavesFile(c: Codec) returns (dir: Directory, r: Result<()>)
    requires Faithful(c)
    ensures r.Err? && TempName(0) in dir.files && ENABLED_FILE !in dir.files
  {
    dir := new Directory(map[]);
    var state := new PersistedState();
    var draws := seq(MAX_ATTEMPTS, _ => 0);
    assert CreatesAt(draws, {}, map[], 0);
    r := state.Save(c, dir, World(true, draws, {}, true, [], true, false));
    OnlyTempIsSafe(c, map[], TempName(0), {}, dir.files);
  }

  lemma Renamed(before: Files, path: string, mid: Files)
    requires OnlyTemp(before, path, mid) && path in mid
    ensures mid[ENABLED_FILE := mid[path]] - {path} == before[ENABLED_FILE := mid[path]]
  {
    var now := mid[ENABLED_FILE := mid[path]] - {path};
    var want := before[ENABLED_FILE := mid[path]];
    forall p ensures p in now <==> p in want {
      assert p in mid && p != path <==> p in mid - {path};
    }
    forall p | p in now ensures now[p] == want[p] {
      if p != ENABLED_FILE { assert (mid - {path})[p] == (before - {path})[p]; }
    }
  }
}

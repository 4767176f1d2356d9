/**
 The local credential files of the CLI: atomic writes (cmd/jamsesh/state/state.go),
 the migration to per-session tokens (migrate.go), and the refresh that rewrites
 them (cmd/jamsesh/portalclient).

 Every change to the disk is appended to `history`, so "at every crash point" is "in
 every state of the history". Failing system calls are nondeterministic choices.
 */
module CredentialStore {
  import opened Wrappers

  datatype Path =
    | Token
    | RefreshToken
    | SessionToken(sid: string)
    | InstanceId(sid: string)
    | Temp(n: nat)

  /** A file that exists can still fail to be read. */
  datatype File = Text(data: string) | Unreadable

  type Files = map<Path, File>

  const MIGRATED_STUB := "MIGRATED_TO_PER_SESSION"

  datatype ReadError = NotExist | Failed

  function Read(fs: Files, p: Path): Result<string, ReadError> {
    if p !in fs then Failure(NotExist)
    else if fs[p].Unreadable? then Failure(Failed)
    else Success(fs[p].data)
  }

  function TrimLeft(s: string): string {
    if s != [] && IsSpace(s[0]) then TrimLeft(s[1..]) else s
  }

  function TrimRight(s: string): string {
    if s != [] && IsSpace(s[|s| - 1]) then TrimRight(s[..|s| - 1]) else s
  }

  function TrimSpace(s: string): string {
    TrimRight(TrimLeft(s))
  }

  function Trimmed(r: Result<string, ReadError>): Result<string, ReadError> {
    if r.Success? then Success(TrimSpace(r.value)) else r
  }

  /** ReadCurrentBearer: the session's own token if it can be read, else the account-wide one. */
  function Bearer(fs: Files, sid: string): Result<string, ReadError> {
    if sid != "" && Read(fs, SessionToken(sid)).Success?
    then Trimmed(Read(fs, SessionToken(sid)))
    else Trimmed(Read(fs, Token))
  }

  /** Two disks agree on every real file except possibly p. */
  ghost predicate SameExcept(a: Files, b: Files, p: Path) {
    forall q: Path | !q.Temp? && q != p :: Read(a, q) == Read(b, q)
  }

  ghost predicate SameFiles(a: Files, b: Files) {
    forall q: Path | !q.Temp? :: Read(a, q) == Read(b, q)
  }

  /** Atomicity of one write: p has its old content or the new one, nothing else moves. */
  ghost predicate OldOrNew(fs: Files, before: Files, p: Path, data: string) {
    SameExcept(fs, before, p) && (Read(fs, p) == Read(before, p) || Read(fs, p) == Success(data))
  }

  /** The states added to a history all satisfy OldOrNew. */
  ghost predicate AtomicSince(history: seq<Files>, mark: seq<Files>, before: Files, p: Path, data: string) {
    mark <= history && forall i | |mark| <= i < |history| :: OldOrNew(history[i], before, p, data)
  }

  lemma {:induction false} AtomicStart(history: seq<Files>, before: Files, p: Path, data: string)
    ensures AtomicSince(history, history, before, p, data)
  {
  }

  lemma {:induction false} AtomicExtend(history: seq<Files>, fs: Files, mark: seq<Files>, before: Files, p: Path, data: string)
    requires AtomicSince(history, mark, before, p, data) && OldOrNew(fs, before, p, data)
    ensures AtomicSince(history + [fs], mark, before, p, data)
  {
  }

  lemma {:induction false} TempInvisible(fs: Files, tmp: Path, f: File)
    requires tmp.Temp?
    ensures SameFiles(fs[tmp := f], fs) && SameFiles(fs - {tmp}, fs)
  {
  }

  lemma {:induction false} SameToItself(fs: Files, p: Path)
    ensures SameFiles(fs, fs) && SameExcept(fs, fs, p)
  {
  }

  /** What a step on the temp file leaves: the old content everywhere. */
  lemma {:induction false} StillOld(fs: Files, prev: Files, before: Files, p: Path, data: string)
    requires !p.Temp? && SameFiles(fs, prev) && SameFiles(prev, before)
    ensures SameFiles(fs, before) && OldOrNew(fs, before, p, data) && Read(fs, p) == Read(before, p) && SameExcept(fs, before, p)
  {
  }

  /** What the rename leaves: the new content at p, the old one elsewhere. */
  lemma {:induction false} RenameLands(prev: Files, before: Files, tmp: Path, p: Path, data: string)
    requires !p.Temp? && tmp.Temp? && tmp in prev && prev[tmp] == Text(data) && SameFiles(prev, before)
    ensures var fs := prev[p := prev[tmp]] - {tmp};
            OldOrNew(fs, before, p, data) && Read(fs, p) == Success(data) && SameExcept(fs, before, p)
  {
  }

  class DataDir {
    var files: Files
    var dirs: set<string>     // session directories
    var loose: set<string>    // those with group or world permission bits
    ghost var history: seq<Files>

    constructor (files: Files, dirs: set<string>, loose: set<string>)
      ensures this.files == files && this.dirs == dirs && this.loose == loose && history == []
    {
      this.files, this.dirs, this.loose, history := files, dirs, loose, [];
    }

    method Put(p: Path, f: File)
      modifies this`files, this`history
      ensures files == old(files)[p := f] && history == old(history) + [files]
    {
      files := files[p := f];
      history := history + [files];
    }

    method Remove(p: Path)
      modifies this`files, this`history
      ensures files == old(files) - {p} && history == old(history) + [files]
    {
      files := files - {p};
      history := history + [files];
    }

    method Rename(from: Path, to: Path)
      requires from in files
      modifies this`files, this`history
      ensures files == old(files)[to := old(files)[from]] - {from} && history == old(history) + [files]
    {
      files := files[to := files[from]] - {from};
      history := history + [files];
    }

    /** os.CreateTemp: a name that is not taken. */
    method CreateTemp() returns (tmp: Path)
      modifies this`files, this`history
      ensures tmp.Temp? && tmp !in old(files) && files == old(files)[tmp := Text("")]
      ensures history == old(history) + [files]
    {
      var n := 0;
      ghost var left := files.Keys;
      while Temp(n) in files
        invariant left <= files.Keys && forall m: nat | m >= n && Temp(m) in files :: Temp(m) in left
        decreases left
      {
        left := left - {Temp(n)};
        n := n + 1;
      }
      tmp := Temp(n);
      Put(tmp, Text(""));
    }

    /** Temp file, content, mode, rename; any of them can fail, and so can the removal of the temp file. */
    method Write(p: Path, data: string) returns (ok: bool)
      requires !p.Temp?
      modifies this`files, this`history
      ensures AtomicSince(history, old(history), old(files), p, data)
      ensures SameExcept(files, old(files), p)
      ensures Read(files, p) == if ok then Success(data) else Read(old(files), p)
    {
      hide AtomicSince, OldOrNew, SameFiles;
      AtomicStart(history, files, p, data);
      SameToItself(files, p);
      var created: bool := *;
      if !created {
        return false;
      }
      var tmp := CreateTemp();
      TempInvisible(old(files), tmp, Text(""));
      StillOld(files, old(files), old(files), p, data);
      AtomicExtend(old(history), files, old(history), old(files), p, data);
      ghost var mark := history;
      var prepared: bool := *;
      if prepared {
        Put(tmp, Text(data));
        assert files == old(files)[tmp := Text(data)];
        TempInvisible(old(files), tmp, Text(data));
        StillOld(files, old(files), old(files), p, data);
        AtomicExtend(mark, files, old(history), old(files), p, data);
        mark := history;
        var renamed: bool := *;
        if renamed {
          ghost var before := files;
          Rename(tmp, p);
          RenameLands(before, old(files), tmp, p, data);
          AtomicExtend(mark, files, old(history), old(files), p, data);
          return true;
        }
      }
      var removed: bool := *;
      if removed {
        ghost var before := files;
        Remove(tmp);
        TempInvisible(before, tmp, Text(""));
        StillOld(files, before, old(files), p, data);
        AtomicExtend(mark, files, old(history), old(files), p, data);
      }
      ok := false;
    }

    /** Creates the session directory, refuses one with loose permissions. */
    method WriteSessionToken(sid: string, token: string) returns (ok: bool)
      modifies this
      ensures AtomicSince(history, old(history), old(files), SessionToken(sid), token)
      ensures SameExcept(files, old(files), SessionToken(sid))
      ensures Read(files, SessionToken(sid)) == if ok then Success(token) else Read(old(files), SessionToken(sid))
      ensures (dirs == old(dirs) || dirs == old(dirs) + {sid}) && loose == old(loose)
      ensures sid in old(loose) ==> !ok
    {
      var made: bool := *;
      if !made && sid !in dirs {
        return false;
      }
      dirs := dirs + {sid};
      if sid in loose {
        return false;
      }
      ok := Write(SessionToken(sid), token);
    }

    /** The session directories, in any order. */
    method ListSessions() returns (ids: seq<string>)
      ensures forall x :: x in ids <==> x in dirs
    {
      ids := [];
      var rest := dirs;
      while rest != {}
        invariant rest <= dirs && forall x :: x in ids <==> x in dirs && x !in rest
        decreases rest
      {
        var x :| x in rest;
        ids := ids + [x];
        rest := rest - {x};
      }
    }

    /** CurrentSessionID: the session whose instance_id is this CC instance. */
    method CurrentSessionID(ccID: string) returns (bound: Option<string>)
      ensures bound.Some? ==> BoundTo(files, dirs, ccID, bound.value)
      ensures bound.None? <==> forall x :: !BoundTo(files, dirs, ccID, x)
    {
      bound := None;
      if ccID == "" {
        return;
      }
      var rest := dirs;
      while rest != {}
        invariant rest <= dirs && forall x | x in dirs && x !in rest :: !BoundTo(files, dirs, ccID, x)
        decreases rest
      {
        var x :| x in rest;
        if Trimmed(Read(files, InstanceId(x))) == Success(ccID) {
          assert BoundTo(files, dirs, ccID, x);
          return Some(x);
        }
        rest := rest - {x};
      }
    }
  }

  predicate BoundTo(fs: Files, dirs: set<string>, ccID: string, sid: string) {
    ccID != "" && sid in dirs && Trimmed(Read(fs, InstanceId(sid))) == Success(ccID)
  }
}

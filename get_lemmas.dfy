/**
 * What `Get` returns when vswhere answers path queries consistently from
 * one set of installations: every installation is found again at its own
 * path, and a path with no installation is a `NotFound` naming it.
 */
module GetLemmas {
  import opened VsWhere

  /** The installations of `db` at `path`, in the order of `db`. */
  function AtPath(db: seq<Installation>, path: string): (r: seq<Installation>)
    ensures |r| <= |db|
    ensures forall k :: 0 <= k < |r| ==> r[k].installationPath == path
  {
    if db == [] then []
    else (if db[0].installationPath == path then [db[0]] else []) + AtPath(db[1..], path)
  }

  /** No two installations share a path. */
  predicate UniquePaths(db: seq<Installation>) {
    forall i, j :: 0 <= i < j < |db| ==> db[i].installationPath != db[j].installationPath
  }

  /** vswhere answers every `-path` query with the installations of `db`
      at that path. */
  ghost predicate AnswersFrom(vswhere: seq<string> -> ProcessOutcome, db: seq<Installation>) {
    forall path :: vswhere(PathArgs(path)) == Exited(Decoded(AtPath(db, path)))
  }

  lemma {:induction false} AtAbsentPath(db: seq<Installation>, path: string)
    requires forall k :: 0 <= k < |db| ==> db[k].installationPath != path
    ensures AtPath(db, path) == []
  {
    if db != [] {
      AtAbsentPath(db[1..], path);
    }
  }

  lemma {:induction false} AtUniquePath(db: seq<Installation>, i: int)
    requires UniquePaths(db) && 0 <= i < |db|
    ensures AtPath(db, db[i].installationPath) == [db[i]]
  {
    var path := db[i].installationPath;
    if i == 0 {
      AtAbsentPath(db[1..], path);
    } else {
      assert UniquePaths(db[1..]) by {
        forall a, b | 0 <= a < b < |db[1..]|
          ensures db[1..][a].installationPath != db[1..][b].installationPath
        {
          assert db[1..][a] == db[a + 1] && db[1..][b] == db[b + 1];
        }
      }
      assert db[1..][i - 1] == db[i];
      AtUniquePath(db[1..], i - 1);
      assert db[0].installationPath != path;
    }
  }

  /** Every installation is found again at its own path. */
  lemma GetFindsEveryInstall(db: seq<Installation>, vswhere: seq<string> -> ProcessOutcome, i: int)
    requires AnswersFrom(vswhere, db) && UniquePaths(db) && 0 <= i < |db|
    ensures Get(db[i].installationPath, vswhere) == Ok(db[i])
  {
    AtUniquePath(db, i);
    assert vswhere(PathArgs(db[i].installationPath)) == Exited(Decoded([db[i]]));
  }

  /** A path with no installation is an error whose message ends with the
      path. */
  lemma GetAbsentPathNamesIt(db: seq<Installation>, vswhere: seq<string> -> ProcessOutcome, path: string)
    requires AnswersFrom(vswhere, db)
    requires forall k :: 0 <= k < |db| ==> db[k].installationPath != path
    ensures Get(path, vswhere) == Err(NotFound(path))
    ensures var m := Message(Get(path, vswhere).error); |path| <= |m| && m[|m| - |path|..] == path
  {
    AtAbsentPath(db, path);
    assert vswhere(PathArgs(path)) == Exited(Decoded([]));
    assert Detail(NotFound(path)) == path;
  }

  /** Whatever vswhere does, `Get` succeeds exactly when the path query
      yields at least one record, and an error of the run is returned as
      it is. */
  lemma GetOkIffRecords(path: string, vswhere: seq<string> -> ProcessOutcome)
    ensures Get(path, vswhere).Ok? <==> Run(vswhere(PathArgs(path))).Ok? && |Run(vswhere(PathArgs(path))).value| > 0
    ensures Run(vswhere(PathArgs(path))).Err? ==> Get(path, vswhere).error == Run(vswhere(PathArgs(path))).error
  {
  }
}

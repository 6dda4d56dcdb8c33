/**
  The user registry (`load_users`, `add_user`, bot.py:170-201): users.txt
  holds one chat id per line, is backed up to the remote file store, only
  ever grows, and gets an id only when it is absent.
 */
module Users {
  import opened Wrappers
  import opened Numerals

  /** Lines 195-197: the lines after appending `id` if it is absent. */
  function Appended(lines: seq<string>, id: string): seq<string> {
    if id in lines then lines else lines + [id]
  }

  /** Adding keeps every existing line in place and makes `id` present. */
  lemma AppendedKeepsLines(lines: seq<string>, id: string)
    ensures var r := Appended(lines, id);
      id in r && lines <= r && |r| <= |lines| + 1
  {
  }

  /** Adding an id a second time changes nothing. */
  lemma AppendedIdempotent(lines: seq<string>, id: string)
    ensures Appended(Appended(lines, id), id) == Appended(lines, id)
  {
  }

  /** Adding an id that was absent leaves exactly one copy of it. */
  lemma AppendedOnce(lines: seq<string>, id: string)
    requires id !in lines
    ensures multiset(Appended(Appended(lines, id), id))[id] == 1
  {
    assert multiset(lines)[id] == 0;
  }

  predicate NoDuplicates(lines: seq<string>) {
    forall i, j :: 0 <= i < j < |lines| ==> lines[i] != lines[j]
  }

  /** Adding never introduces a repeated id. */
  lemma AppendedNoDuplicates(lines: seq<string>, id: string)
    requires NoDuplicates(lines)
    ensures NoDuplicates(Appended(lines, id))
  {
  }

  /**
    Under any sequence of adds the registry only grows, keeps no id twice,
    and ends up holding every added id.
   */
  lemma {:induction false} AddAllGrows(lines: seq<string>, ids: seq<int>)
    requires NoDuplicates(lines)
    ensures NoDuplicates(AddAll(lines, ids))
    ensures lines <= AddAll(lines, ids)
    ensures forall k :: 0 <= k < |ids| ==> IntToString(ids[k]) in AddAll(lines, ids)
    decreases |ids|
  {
    if ids != [] {
      var next := Appended(lines, IntToString(ids[0]));
      AppendedKeepsLines(lines, IntToString(ids[0]));
      AppendedNoDuplicates(lines, IntToString(ids[0]));
      AddAllGrows(next, ids[1..]);
      var r := AddAll(lines, ids);
      assert r == AddAll(next, ids[1..]);
      assert IntToString(ids[0]) in r by {
        var i :| 0 <= i < |next| && next[i] == IntToString(ids[0]);
        assert r[i] == next[i];
      }
      forall k | 1 <= k < |ids| ensures IntToString(ids[k]) in r {
        assert ids[1..][k - 1] == ids[k];
      }
    }
  }

  /** The lines after adding each id in turn. */
  function AddAll(lines: seq<string>, ids: seq<int>): seq<string>
    decreases |ids|
  {
    if ids == [] then lines else AddAll(Appended(lines, IntToString(ids[0])), ids[1..])
  }

  /** The local users.txt and its remote backup, each absent or a list of lines. */
  datatype Files = Files(local: Option<seq<string>>, remote: Option<seq<string>>)

  /**
    `add_user` as written: `load_users` fetches the remote copy only when
    there is no local file and the fetch works; the decimal id is appended
    when absent and the write works, creating the file if needed, and the
    file is then uploaded over the remote copy.
   */
  function AddUserAsWritten(f: Files, userId: int, downloadOk: bool, writeOk: bool, uploadOk: bool): Files {
    var loaded := if f.local.None? && downloadOk then f.remote else f.local;
    var lines := if loaded.Some? then loaded.value else [];
    var id := IntToString(userId);
    if id !in lines && writeOk then
      var local := Some(Appended(lines, id));
      Files(local, if uploadOk then local else f.remote)
    else Files(loaded, f.remote)
  }

  /**
    As written, a failed fetch with no local file creates a file holding
    only the new id and uploads it over the remote list: every id registered
    before is lost.
   */
  lemma RemoteOverwrittenAsWritten(remoteLines: seq<string>, userId: int)
    ensures AddUserAsWritten(Files(None, Some(remoteLines)), userId, false, true, true)
      == Files(Some([IntToString(userId)]), Some([IntToString(userId)]))
  {
    assert Appended([], IntToString(userId)) == [IntToString(userId)];
  }

  /** `add_user` that adds nothing when it could not fetch the remote list it would overwrite. */
  function AddUserGuarded(f: Files, userId: int, downloadOk: bool, writeOk: bool, uploadOk: bool): Files {
    if f.local.None? && f.remote.Some? && !downloadOk then f
    else AddUserAsWritten(f, userId, downloadOk, writeOk, uploadOk)
  }

  /**
    With the guard, a remote list in step with the local file (or with no
    local file at all) only grows: no registered id is ever lost.
   */
  lemma {:induction false} GuardedKeepsRemote(f: Files, userId: int, downloadOk: bool, writeOk: bool, uploadOk: bool)
    requires f.local.None? || f.local == f.remote
    requires f.remote.Some?
    ensures var g := AddUserGuarded(f, userId, downloadOk, writeOk, uploadOk);
      g.remote.Some? && f.remote.value <= g.remote.value
  {
    if !(f.local.None? && !downloadOk) {
      AppendedKeepsLines(f.remote.value, IntToString(userId));
    }
  }

  class UserRegistry {
    /** The lines of the local users.txt, if it exists. */
    var local: Option<seq<string>>
    /** The lines of the users.txt backup on the remote file store, if present. */
    var remote: Option<seq<string>>

    constructor (local: Option<seq<string>>, remote: Option<seq<string>>)
      ensures this.local == local && this.remote == remote
    {
      this.local := local;
      this.remote := remote;
    }

    /**
      `load_users`: without a local file the remote copy is fetched when the
      fetch works; the result is the file's lines, or none without a file.
     */
    method LoadUsers(downloadOk: bool) returns (users: seq<string>)
      modifies this
      ensures remote == old(remote)
      ensures local == if old(local).None? && downloadOk then old(remote) else old(local)
      ensures users == if local.Some? then local.value else []
    {
      if local.None? && downloadOk {
        local := remote;
      }
      users := if local.Some? then local.value else [];
    }

    /**
      `add_user`: after loading, the decimal id is appended when it is
      absent (creating the file if needed) and the file is uploaded; an id
      already present or a failed write adds nothing.
     */
    method AddUser(userId: int, downloadOk: bool, writeOk: bool, uploadOk: bool)
      modifies this
      ensures Files(local, remote) == AddUserAsWritten(Files(old(local), old(remote)), userId, downloadOk, writeOk, uploadOk)
    {
      var lines := LoadUsers(downloadOk);
      var id := IntToString(userId);
      if id !in lines && writeOk {
        local := Some(Appended(lines, id));
        if uploadOk {
          remote := local;
        }
      }
    }
  }
}

// Publishing staged files to content-addressed destinations (pliego-assets, lib.rs).
//
// A file store is a map from path to bytes.  Nothing else writes to it, but input and output may fail at any
// point of a publication: the faults say where.
module Publish {
  import opened Prelude

  // A file opened before, where it is staged, where it goes, and the digest it must have.
  datatype Candidate = Candidate(content: Bytes, staged: string, path: string, sha256: string)

  // What goes wrong with one file: the destination cannot be created; the copy breaks off after some bytes; the
  // bytes read are not the ones hashed before; the staged file cannot be removed.  Where a broken destination is
  // to be deleted, that may fail too.
  datatype Fault =
    | NoFault
    | OpenFails
    | CopyFails(partial: Bytes, deleted: bool)
    | Rereads(content: Bytes, deleted: bool)
    | RemoveFails

  type Store = map<string, Bytes>
  type Hash = Bytes -> string

  // ---- Publishing one file ---------------------------------------------------------------------------

  function Broken(files: Store, path: string, content: Bytes, deleted: bool): Store {
    if deleted then files else files[path := content]
  }

  // publish_open_file_no_clobber: the new store, and whether it succeeded.
  function PublishOne(hash: Hash, files: Store, c: Candidate, fault: Fault): (Store, bool) {
    if c.path in files then
      if hash(files[c.path]) != c.sha256 || fault.RemoveFails? then (files, false) else (files - {c.staged}, true)
    else
      match fault
      case OpenFails => (files, false)
      case CopyFails(partial, deleted) => (Broken(files, c.path, partial, deleted), false)
      case Rereads(content, deleted) =>
        if hash(content) != c.sha256 then (Broken(files, c.path, content, deleted), false)
        else (files[c.path := content] - {c.staged}, true)
      case NoFault =>
        if hash(c.content) != c.sha256 then (files, false) else (files[c.path := c.content] - {c.staged}, true)
      case RemoveFails => if hash(c.content) != c.sha256 then (files, false) else (files[c.path := c.content], false)
  }

  // Publishing in order, up to the first failure.
  function PublishTo(hash: Hash, files: Store, cs: seq<Candidate>, faults: seq<Fault>, n: nat): (Store, bool)
    requires n <= |cs| && |faults| == |cs|
  {
    if n == 0 then (files, true)
    else
      var (before, ok) := PublishTo(hash, files, cs, faults, n - 1);
      if ok then PublishOne(hash, before, cs[n - 1], faults[n - 1]) else (before, false)
  }

  lemma {:induction false} StaysFailed(hash: Hash, files: Store, cs: seq<Candidate>, faults: seq<Fault>, m: nat, n: nat)
    requires m <= n <= |cs| && |faults| == |cs| && !PublishTo(hash, files, cs, faults, m).1
    ensures PublishTo(hash, files, cs, faults, n) == PublishTo(hash, files, cs, faults, m)
    decreases n
  {
    if m < n {
      StaysFailed(hash, files, cs, faults, m, n - 1);
    }
  }

  class FileStore {
    var files: Store

    method PublishOpenFile(hash: Hash, c: Candidate, fault: Fault) returns (ok: bool)
      modifies this
      ensures (files, ok) == PublishOne(hash, old(files), c, fault)
    {
      if c.path in files {
        if hash(files[c.path]) != c.sha256 {
          return false;
        }
        if fault.RemoveFails? {
          return false;
        }
        files := files - {c.staged};
        return true;
      }
      if fault.OpenFails? {
        return false;
      }
      var copied := if fault.Rereads? then fault.content else c.content;
      if fault.CopyFails? {
        files := Broken(files, c.path, fault.partial, fault.deleted);
        return false;
      }
      if hash(copied) != c.sha256 {
        files := Broken(files, c.path, copied, !fault.Rereads? || fault.deleted);
        return false;
      }
      files := files[c.path := copied];
      if fault.RemoveFails? {
        return false;
      }
      files := files - {c.staged};
      return true;
    }

    method PublishAll(hash: Hash, cs: seq<Candidate>, faults: seq<Fault>) returns (ok: bool)
      requires |faults| == |cs|
      modifies this
      ensures (files, ok) == PublishTo(hash, old(files), cs, faults, |cs|)
    {
      for i := 0 to |cs|
        invariant (files, true) == PublishTo(hash, old(files), cs, faults, i)
      {
        ok := PublishOpenFile(hash, cs[i], faults[i]);
        if !ok {
          StaysFailed(hash, old(files), cs, faults, i + 1, |cs|);
          return;
        }
      }
      return true;
    }
  }

  // ---- What publishing keeps and what it achieves ----------------------------------------------------

  // Staged files and destinations are all different files, and each staged file holds its candidate.
  ghost predicate Separate(hash: Hash, files: Store, cs: seq<Candidate>) {
    && (forall i, j :: 0 <= i < |cs| && 0 <= j < |cs| ==> cs[i].staged != cs[j].path)
    && (forall i, j :: 0 <= i < |cs| && 0 <= j < |cs| && cs[i].staged == cs[j].staged ==> i == j)
    && (forall i, j :: 0 <= i < |cs| && 0 <= j < |cs| && cs[i].path == cs[j].path ==> i == j)
    && (forall i :: 0 <= i < |cs| ==> hash(cs[i].content) == cs[i].sha256)
    && (forall i :: 0 <= i < |cs| ==> cs[i].staged in files && files[cs[i].staged] == cs[i].content)
  }

  ghost predicate Stages(cs: seq<Candidate>, path: string) {
    exists i :: 0 <= i < |cs| && cs[i].staged == path
  }

  // No file that was there is altered, and only staged files go away.
  ghost predicate Unaltered(before: Store, after: Store, cs: seq<Candidate>) {
    forall path :: path in before ==>
      if path in after then after[path] == before[path] else Stages(cs, path)
  }

  // Whatever fails, and wherever: a destination that was taken keeps its bytes.
  lemma {:induction false} NothingAltered(hash: Hash, files: Store, cs: seq<Candidate>, faults: seq<Fault>, n: nat)
    requires n <= |cs| && |faults| == |cs|
    requires forall i, j :: 0 <= i < |cs| && 0 <= j < |cs| ==> cs[i].staged != cs[j].path
    ensures Unaltered(files, PublishTo(hash, files, cs, faults, n).0, cs)
    decreases n
  {
    if n > 0 {
      NothingAltered(hash, files, cs, faults, n - 1);
      var before := PublishTo(hash, files, cs, faults, n - 1).0;
      if PublishTo(hash, files, cs, faults, n - 1).1 {
        UnalteredStep(hash, files, before, cs, n - 1, faults[n - 1]);
      }
    }
  }

  // A file that was there and is a destination is no staged file, so it is still there when its turn comes.
  lemma UnalteredStep(hash: Hash, files: Store, now: Store, cs: seq<Candidate>, i: nat, fault: Fault)
    requires i < |cs| && Unaltered(files, now, cs)
    requires forall i, j :: 0 <= i < |cs| && 0 <= j < |cs| ==> cs[i].staged != cs[j].path
    ensures Unaltered(files, PublishOne(hash, now, cs[i], fault).0, cs)
  {
    assert Stages(cs, cs[i].staged);
    assert !Stages(cs, cs[i].path);
  }

  // Either the staged file is untouched, or its bytes are at the destination.
  ghost predicate Kept(hash: Hash, now: Store, c: Candidate) {
    || (c.staged in now && now[c.staged] == c.content)
    || (c.path in now && hash(now[c.path]) == c.sha256)
  }

  // Nothing is lost: after any run of any faults, every candidate's bytes are still somewhere.
  lemma {:induction false} NothingLost(hash: Hash, files: Store, cs: seq<Candidate>, faults: seq<Fault>, n: nat, k: nat)
    requires n <= |cs| && |faults| == |cs| && k < |cs| && Separate(hash, files, cs)
    ensures Kept(hash, PublishTo(hash, files, cs, faults, n).0, cs[k])
    decreases n
  {
    if n > 0 {
      NothingLost(hash, files, cs, faults, n - 1, k);
      if PublishTo(hash, files, cs, faults, n - 1).1 {
        KeptStep(hash, files, PublishTo(hash, files, cs, faults, n - 1).0, cs, n - 1, faults[n - 1], k);
      }
    }
  }

  lemma KeptStep(hash: Hash, files: Store, now: Store, cs: seq<Candidate>, i: nat, fault: Fault, k: nat)
    requires i < |cs| && k < |cs| && Separate(hash, files, cs) && Kept(hash, now, cs[k])
    ensures Kept(hash, PublishOne(hash, now, cs[i], fault).0, cs[k])
  {
    assert cs[i].staged != cs[k].path && cs[k].staged != cs[i].path && cs[i].staged != cs[i].path;
    assert i != k ==> cs[i].staged != cs[k].staged && cs[i].path != cs[k].path;
  }

  // ---- Failure ---------------------------------------------------------------------------------------

  // What may be left at the free destination of a candidate: the bytes that belong there, or those of a broken
  // copy that could not be deleted.
  ghost predicate MayBeLeft(hash: Hash, content: Bytes, c: Candidate, fault: Fault) {
    || hash(content) == c.sha256
    || (fault.CopyFails? && !fault.deleted && content == fault.partial)
    || (fault.Rereads? && !fault.deleted && content == fault.content)
  }

  // A file that was not there before lies at the destination of a candidate, and is such a file.
  ghost predicate NewIsLeft(hash: Hash, files: Store, now: Store, cs: seq<Candidate>, faults: seq<Fault>, path: string)
    requires |faults| == |cs|
  {
    path in now && path !in files ==>
      exists i :: 0 <= i < |cs| && cs[i].path == path && MayBeLeft(hash, now[path], cs[i], faults[i])
  }

  // A publication that fails leaves nothing else behind, however far it got.
  lemma {:induction false} NothingElseIsLeft(
    hash: Hash, files: Store, cs: seq<Candidate>, faults: seq<Fault>, n: nat, path: string)
    requires n <= |cs| && |faults| == |cs|
    ensures NewIsLeft(hash, files, PublishTo(hash, files, cs, faults, n).0, cs, faults, path)
    decreases n
  {
    if n > 0 {
      NothingElseIsLeft(hash, files, cs, faults, n - 1, path);
      var (before, ok) := PublishTo(hash, files, cs, faults, n - 1);
      if ok && path == cs[n - 1].path && path !in before && path in PublishOne(hash, before, cs[n - 1], faults[n - 1]).0 {
        assert MayBeLeft(hash, PublishOne(hash, before, cs[n - 1], faults[n - 1]).0[path], cs[n - 1], faults[n - 1]);
      }
    }
  }

  // ---- Success ---------------------------------------------------------------------------------------

  // Candidate k has been published.
  ghost predicate Done(hash: Hash, now: Store, c: Candidate) {
    c.staged !in now && c.path in now && hash(now[c.path]) == c.sha256
  }

  lemma {:induction false} SuccessPublishes(hash: Hash, files: Store, cs: seq<Candidate>, faults: seq<Fault>, n: nat, k: nat)
    requires k < n <= |cs| && |faults| == |cs| && Separate(hash, files, cs) && PublishTo(hash, files, cs, faults, n).1
    ensures Done(hash, PublishTo(hash, files, cs, faults, n).0, cs[k])
    decreases n
  {
    var now := PublishTo(hash, files, cs, faults, n - 1).0;
    assert cs[n - 1].staged != cs[n - 1].path;
    if k < n - 1 {
      SuccessPublishes(hash, files, cs, faults, n - 1, k);
      assert cs[n - 1].staged != cs[k].path && cs[k].staged != cs[n - 1].path;
      assert cs[n - 1].path != cs[k].path;
    }
  }

  // Files that are neither staged nor destinations are the same as before, present or absent.
  lemma {:induction false} OthersUntouched(
    hash: Hash, files: Store, cs: seq<Candidate>, faults: seq<Fault>, n: nat, path: string)
    requires n <= |cs| && |faults| == |cs|
    requires forall i :: 0 <= i < n ==> path != cs[i].staged && path != cs[i].path
    ensures var now := PublishTo(hash, files, cs, faults, n).0;
      (path in now <==> path in files) && (path in files ==> now[path] == files[path])
    decreases n
  {
    if n > 0 {
      OthersUntouched(hash, files, cs, faults, n - 1, path);
    }
  }

  // Before its turn neither the staged file nor the destination of a candidate is touched.
  lemma BeforeItsTurn(hash: Hash, files: Store, cs: seq<Candidate>, faults: seq<Fault>, k: nat)
    requires k < |cs| == |faults| && Separate(hash, files, cs)
    ensures var c, now := cs[k], PublishTo(hash, files, cs, faults, k).0;
      && c.staged in now && now[c.staged] == c.content && c.staged != c.path && hash(c.content) == c.sha256
      && (c.path in now ==> c.path in files && now[c.path] == files[c.path])
  {
    OthersUntouched(hash, files, cs, faults, k, cs[k].path);
    OthersUntouched(hash, files, cs, faults, k, cs[k].staged);
    hide PublishTo;
  }

  // Where the staged file cannot be removed, its copy stays, whatever comes after.
  lemma FailedRemovalKeepsBoth(hash: Hash, files: Store, cs: seq<Candidate>, faults: seq<Fault>, n: nat, k: nat)
    requires k < n <= |cs| && |faults| == |cs| && Separate(hash, files, cs) && DestinationsFree(hash, files, cs)
    requires PublishTo(hash, files, cs, faults, k).1 && faults[k].RemoveFails?
    ensures var (now, ok) := PublishTo(hash, files, cs, faults, n);
      && !ok && cs[k].staged in now && now[cs[k].staged] == cs[k].content
      && cs[k].path in now && hash(now[cs[k].path]) == cs[k].sha256
  {
    hide Separate, PublishOne;
    BeforeItsTurn(hash, files, cs, faults, k);
    RemovalFails(hash, PublishTo(hash, files, cs, faults, k).0, cs[k]);
    assert PublishTo(hash, files, cs, faults, k + 1) == PublishOne(hash, PublishTo(hash, files, cs, faults, k).0, cs[k], faults[k]);
    StaysFailed(hash, files, cs, faults, k + 1, n);
    hide PublishTo;
  }

  lemma RemovalFails(hash: Hash, files: Store, c: Candidate)
    requires c.staged in files && files[c.staged] == c.content && c.staged != c.path
    requires hash(c.content) == c.sha256 && (c.path in files ==> hash(files[c.path]) == c.sha256)
    ensures var (now, ok) := PublishOne(hash, files, c, RemoveFails);
      && !ok && c.staged in now && now[c.staged] == c.content
      && c.path in now && hash(now[c.path]) == c.sha256
  {
  }

  lemma {:induction false} NotStagedAgain(
    hash: Hash, files: Store, cs: seq<Candidate>, faults: seq<Fault>, m: nat, n: nat, path: string)
    requires m <= n <= |cs| && |faults| == |cs| && path !in PublishTo(hash, files, cs, faults, m).0
    requires forall i :: 0 <= i < |cs| ==> path != cs[i].path
    ensures path !in PublishTo(hash, files, cs, faults, n).0
    decreases n
  {
    if m < n {
      NotStagedAgain(hash, files, cs, faults, m, n - 1, path);
    }
  }

  // The stores agree but, perhaps, on one path.
  ghost predicate AgreeBut(files: Store, now: Store, path: string) {
    forall p :: p != path ==> (p in now <==> p in files) && (p in files ==> now[p] == files[p])
  }

  // Where the first publication fails, nothing changes but, perhaps, its destination.
  lemma FirstFailureKeeps(hash: Hash, files: Store, cs: seq<Candidate>, faults: seq<Fault>)
    requires |cs| == |faults| > 0 && !PublishTo(hash, files, cs, faults, 1).1
    ensures AgreeBut(files, PublishTo(hash, files, cs, faults, |cs|).0, cs[0].path)
  {
    StaysFailed(hash, files, cs, faults, 1, |cs|);
    assert PublishTo(hash, files, cs, faults, 0) == (files, true);
    assert PublishTo(hash, files, cs, faults, 1) == PublishOne(hash, files, cs[0], faults[0]);
  }

  // The first file is published and the second cannot be removed.
  lemma SecondRemovalFails(hash: Hash, files: Store, cs: seq<Candidate>, faults: seq<Fault>)
    requires |cs| == |faults| >= 2 && faults[0] == NoFault && faults[1] == RemoveFails
    requires hash(cs[0].content) == cs[0].sha256 && (cs[0].path in files ==> hash(files[cs[0].path]) == cs[0].sha256)
    ensures PublishTo(hash, files, cs, faults, 1).1 && !PublishTo(hash, files, cs, faults, |cs|).1
  {
    assert PublishTo(hash, files, cs, faults, 0) == (files, true);
    assert !PublishTo(hash, files, cs, faults, 2).1;
    StaysFailed(hash, files, cs, faults, 2, |cs|);
  }

  ghost predicate AllClear(faults: seq<Fault>) {
    forall i :: 0 <= i < |faults| ==> faults[i] == NoFault
  }

  // Destinations that are taken already hold what belongs there.
  ghost predicate DestinationsFree(hash: Hash, files: Store, cs: seq<Candidate>) {
    forall i :: 0 <= i < |cs| && cs[i].path in files ==> hash(files[cs[i].path]) == cs[i].sha256
  }

  // Without faults publishing goes through once the destinations have been checked.
  lemma {:induction false} ClearSucceeds(hash: Hash, files: Store, cs: seq<Candidate>, faults: seq<Fault>, n: nat)
    requires n <= |cs| && |faults| == |cs| && AllClear(faults)
    requires Separate(hash, files, cs) && DestinationsFree(hash, files, cs)
    ensures PublishTo(hash, files, cs, faults, n).1
    ensures forall k :: n <= k < |cs| && cs[k].path in PublishTo(hash, files, cs, faults, n).0 ==>
      hash(PublishTo(hash, files, cs, faults, n).0[cs[k].path]) == cs[k].sha256
    decreases n
  {
    if n > 0 {
      ClearSucceeds(hash, files, cs, faults, n - 1);
      assert faults[n - 1] == NoFault;
      assert forall k :: n <= k < |cs| ==> cs[k].path != cs[n - 1].path && cs[k].path != cs[n - 1].staged;
    }
  }
}

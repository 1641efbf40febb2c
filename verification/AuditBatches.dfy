/** A batch put together again from its list of commits and its fields. */
module AuditBatches {
  import opened Wrappers
  import opened AuditSections

  function Shas(batch: Batch): (shas: seq<string>)
    ensures |shas| == |batch| && forall i :: 0 <= i < |batch| ==> shas[i] == batch[i].sha
  {
    seq(|batch|, i requires 0 <= i < |batch| => batch[i].sha)
  }

  predicate DistinctShas(batch: Batch) {
    forall i, j :: 0 <= i < j < |batch| ==> batch[i].sha != batch[j].sha
  }

  /** The fields of one commit, in order. */
  function OfCommit(fields: seq<Field>, sha: string): seq<Field> {
    if fields == [] then []
    else
      var n := |fields| - 1;
      OfCommit(fields[..n], sha) + (if fields[n].commit == sha then [fields[n]] else [])
  }

  /** Three fields make a file. */
  function FilesFrom(fields: seq<Field>): seq<File> {
    if |fields| < 3 then []
    else
      var n := |fields| - 3;
      FilesFrom(fields[..n]) + [File(fields[n].path, fields[n].text, fields[n + 1].text, fields[n + 2].text)]
  }

  function RebuildBatch(shas: seq<string>, fields: seq<Field>): (batch: Batch)
    ensures |batch| == |shas|
    ensures forall i :: 0 <= i < |shas| ==> batch[i] == Commit(shas[i], FilesFrom(OfCommit(fields, shas[i])))
  {
    seq(|shas|, i requires 0 <= i < |shas| => Commit(shas[i], FilesFrom(OfCommit(fields, shas[i]))))
  }

  lemma {:induction false} OfCommitConcat(a: seq<Field>, b: seq<Field>, sha: string)
    ensures OfCommit(a + b, sha) == OfCommit(a, sha) + OfCommit(b, sha)
    decreases |b|
  {
    if b == [] {
      assert a + b == a;
    } else {
      var n := |b| - 1;
      assert (a + b)[..|a| + n] == a + b[..n];
      OfCommitConcat(a, b[..n], sha);
    }
  }

  lemma {:induction false} OfOneCommit(fields: seq<Field>, sha: string)
    ensures (forall i :: 0 <= i < |fields| ==> fields[i].commit == sha) ==> OfCommit(fields, sha) == fields
    ensures (forall i :: 0 <= i < |fields| ==> fields[i].commit != sha) ==> OfCommit(fields, sha) == []
    decreases |fields|
  {
    if fields != [] {
      OfOneCommit(fields[..|fields| - 1], sha);
    }
  }

  lemma {:induction false} FileFieldsBelong(sha: string, files: seq<File>, i: nat)
    requires i < |FileFields(sha, files)|
    ensures FileFields(sha, files)[i].commit == sha
    decreases |files|
  {
    if files != [] {
      var n := |files| - 1;
      LastSplit([], files);
      FileFieldsLast(sha, files[..n], files[n]);
      if i < |FileFields(sha, files[..n])| {
        FileFieldsBelong(sha, files[..n], i);
      }
    }
  }

  lemma {:induction false} FilesBack(sha: string, files: seq<File>)
    ensures FilesFrom(FileFields(sha, files)) == files
    decreases |files|
  {
    if files != [] {
      var n := |files| - 1;
      LastSplit([], files);
      FileFieldsLast(sha, files[..n], files[n]);
      FilesBack(sha, files[..n]);
      var init, all := FileFields(sha, files[..n]), FileFields(sha, files);
      assert all[..|all| - 3] == init;
    }
  }

  /** The fields of commit i among those of the first n commits. */
  lemma {:induction false} CommitFields(batch: Batch, n: nat, i: nat, mine: seq<Field>)
    requires DistinctShas(batch) && n <= |batch| && i < |batch| && mine == FileFields(batch[i].sha, batch[i].files)
    ensures OfCommit(Fields(batch[..n]), batch[i].sha) == if i < n then mine else []
    decreases n
  {
    if n > 0 {
      var m := n - 1;
      CommitFields(batch, m, i, mine);
      CommitAppend(batch[..m], batch[m], batch[i].sha);
      assert batch[..n] == batch[..m] + [batch[m]];
      assert batch[m].sha == batch[i].sha <==> m == i;
    }
  }

  lemma CommitAppend(init: Batch, c: Commit, sha: string)
    ensures OfCommit(Fields(init + [c]), sha)
         == OfCommit(Fields(init), sha) + (if c.sha == sha then FileFields(c.sha, c.files) else [])
  {
    FieldsLast(init, c);
    OfCommitConcat(Fields(init), FileFields(c.sha, c.files), sha);
    OneCommit(c, sha);
  }

  lemma OneCommit(c: Commit, sha: string)
    ensures OfCommit(FileFields(c.sha, c.files), sha) == if c.sha == sha then FileFields(c.sha, c.files) else []
  {
    var mine := FileFields(c.sha, c.files);
    forall j | 0 <= j < |mine| ensures mine[j].commit == c.sha {
      FileFieldsBelong(c.sha, c.files, j);
    }
    OfOneCommit(mine, sha);
  }

  /** Commits without files, boundaries between commits, and files: all come back. */
  lemma RebuildWhole(batch: Batch)
    requires DistinctShas(batch)
    ensures RebuildBatch(Shas(batch), Fields(batch)) == batch
  {
    var out := RebuildBatch(Shas(batch), Fields(batch));
    assert batch[..|batch|] == batch;
    forall i | 0 <= i < |batch| ensures out[i] == batch[i] {
      CommitFields(batch, |batch|, i, FileFields(batch[i].sha, batch[i].files));
      FilesBack(batch[i].sha, batch[i].files);
    }
  }
}

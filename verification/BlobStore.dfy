/** The local content-addressed store: two put implementations refine one abstract put. */
module BlobStore {
  import opened Common
  import opened BlobKeys

  type Byte = n: nat | n < 256
  type Bytes = seq<Byte>
  type Files = map<Path, Bytes>

  const BUFFER_SIZE: nat := 64 * 1024

  datatype BlobInput = Buffer(bytes: Bytes) | TempFile(content: Bytes)

  function Content(input: BlobInput): Bytes { if input.Buffer? then input.bytes else input.content }

  datatype StoredBlob = StoredBlob(sha256: string, size: nat, key: string, deduplicated: bool)

  datatype PutError =
    | BadPath(error: KeyError)
    | NotABuffer
    | Corrupt(key: string, expectedSha: string, expectedSize: nat, actualSha: Option<string>, actualSize: nat)
    | IoFailed

  /** SHA-256 as any function from contents to 64 lower-case hex digits. */
  ghost predicate IsDigest(digest: Bytes -> string) { forall b: Bytes :: IsHash(digest(b)) }

  // ---- The abstract store ----

  /** What an existing file says about a put of `bytes` under its digest. */
  function Verified(stored: Bytes, digest: Bytes -> string, bytes: Bytes): Result<StoredBlob, PutError>
    requires |digest(bytes)| >= 4
  {
    var sha := digest(bytes);
    var key := PrintKey(sha);
    if |stored| != |bytes| then Err(Corrupt(key, sha, |bytes|, None, |stored|))
    else if digest(stored) != sha then Err(Corrupt(key, sha, |bytes|, Some(digest(stored)), |stored|))
    else Ok(StoredBlob(sha, |bytes|, key, true))
  }

  ghost function Put(files: Files, digest: Bytes -> string, workspace: string, bytes: Bytes)
    : (Files, Result<StoredBlob, PutError>)
    requires IsDigest(digest)
  {
    var sha := digest(bytes);
    var segment := WorkspaceSegment(workspace);
    if segment.Err? then (files, Err(BadPath(segment.error)))
    else
      var path := HashPath(workspace, sha);
      if path in files then (files, Verified(files[path], digest, bytes))
      else (files[path := bytes], Ok(StoredBlob(sha, |bytes|, PrintKey(sha), false)))
  }

  /** Either the abstract put happened, or an I/O failure left every file as it was. */
  ghost predicate Refines(
      before: Files, after: Files, digest: Bytes -> string, workspace: string, bytes: Bytes,
      r: Result<StoredBlob, PutError>)
    requires IsDigest(digest)
  {
    if r == Err(IoFailed) then after == before else (after, r) == Put(before, digest, workspace, bytes)
  }

  /** What the answer to a put says about a file already stored where `bytes` belong. */
  ghost predicate Judges(stored: Bytes, digest: Bytes -> string, bytes: Bytes, r: Result<StoredBlob, PutError>) {
    && (r.Ok? <==> |stored| == |bytes| && digest(stored) == digest(bytes))
    && (r.Err? ==> r.error.Corrupt?)
    && (r.Err? ==>
          && r.error.expectedSha == digest(bytes) && r.error.expectedSize == |bytes|
          && r.error.actualSize == |stored|
          && (r.error.actualSha.None? <==> |stored| != |bytes|)
          && (r.error.actualSha == Some(digest(stored)) <==> |stored| == |bytes| && digest(stored) != digest(bytes)))
  }

  /** What a put answers, read off the files it found: a bad workspace, a fresh file, or a judged one. */
  ghost predicate Answers(
      before: Files, digest: Bytes -> string, workspace: string, bytes: Bytes, r: Result<StoredBlob, PutError>)
    requires IsDigest(digest)
  {
    var path := HashPath(workspace, digest(bytes));
    && (r.Err? && r.error.BadPath? <==> WorkspaceSegment(workspace).Err?)
    && (WorkspaceSegment(workspace).Ok? && path !in before ==> r.Ok?)
    && (WorkspaceSegment(workspace).Ok? && path in before ==> Judges(before[path], digest, bytes, r))
    && (r.Ok? ==>
          && r.value.sha256 == digest(bytes) && r.value.size == |bytes| && r.value.key == PrintKey(digest(bytes))
          && (r.value.deduplicated <==> path in before))
    && (r.Err? && r.error.Corrupt? ==> r.error.key == PrintKey(digest(bytes)))
  }

  // ---- The implementations ----

  class LocalArtifactBlobStore {
    const digest: Bytes -> string
    var files: Files

    constructor (digest: Bytes -> string)
      ensures this.digest == digest && files == map[]
    {
      this.digest := digest;
      files := map[];
    }

    /** Reading in whatever portions the system returns; a portion is never empty before the end. */
    method HashFile(path: Path, reliable: bool) returns (sha: Option<string>)
      requires path in files
      ensures sha.Some? ==> sha.value == digest(files[path])
      ensures reliable ==> sha.Some?
    {
      var content := files[path];
      var hashed: Bytes := [];
      while |hashed| < |content|
        invariant hashed <= content
        decreases |content| - |hashed|
      {
        if !reliable {
          if * {
            return None;
          }
        }
        var count: nat :| 1 <= count <= BUFFER_SIZE && |hashed| + count <= |content|;
        hashed := hashed + content[|hashed|..|hashed| + count];
      }
      assert hashed == content;
      sha := Some(digest(hashed));
    }

    method VerifyExistingBlob(path: Path, bytes: Bytes, sha: string, size: nat, reliable: bool)
      returns (r: Result<StoredBlob, PutError>)
      requires IsDigest(digest) && path in files && sha == digest(bytes) && size == |bytes|
      ensures r == Err(IoFailed) || r == Verified(files[path], digest, bytes)
      ensures r == Err(IoFailed) || Judges(files[path], digest, bytes, r)
      ensures reliable ==> r != Err(IoFailed)
    {
      var key := PrintKey(sha);
      if !reliable {
        if * {
          return Err(IoFailed);
        }
      }
      var actualSize := |files[path]|;
      if actualSize != size {
        return Err(Corrupt(key, sha, size, None, actualSize));
      }
      var actualSha := HashFile(path, reliable);
      if actualSha.None? {
        return Err(IoFailed);
      }
      if actualSha.value != sha {
        return Err(Corrupt(key, sha, size, actualSha, actualSize));
      }
      r := Ok(StoredBlob(sha, size, key, true));
    }

    /** Stream the input into the staging file, hashing and counting what was written. */
    method Stage(tmp: Path, input: BlobInput, reliable: bool) returns (staged: Option<(string, nat)>)
      modifies this
      ensures files == old(files)[tmp := if tmp in files then files[tmp] else []]
      ensures staged.Some? ==>
                && files[tmp] == Content(input)
                && staged.value == (digest(Content(input)), |Content(input)|)
      ensures reliable ==> staged.Some?
    {
      var content := Content(input);
      var hashed: Bytes := [];
      var size := 0;
      files := files[tmp := []];
      if input.Buffer? {
        if !reliable {
          if * {
            var written :| 0 <= written <= |content|;
            files := files[tmp := content[..written]];
            return None;
          }
        }
        hashed, size := content, |content|;
        files := files[tmp := content];
      } else {
        while |hashed| < |content|
          invariant hashed <= content && size == |hashed|
          invariant files == old(files)[tmp := hashed]
          decreases |content| - |hashed|
        {
          if !reliable {
            if * {
              return None;
            }
          }
          var read: nat :| 1 <= read <= BUFFER_SIZE && |hashed| + read <= |content|;
          hashed := hashed + content[|hashed|..|hashed| + read];
          size := size + read;
          files := files[tmp := hashed];
        }
      }
      staged := Some((digest(hashed), size));
    }

    method Rename(from: Path, to: Path)
      requires from in files && from != to
      modifies this
      ensures files == old(files)[to := old(files)[from]] - {from}
    {
      files := files[to := files[from]] - {from};
    }

    /** The staging file is dropped on every way out. */
    method PutBytes(workspace: string, input: BlobInput, operation: string, reliable: bool)
      returns (r: Result<StoredBlob, PutError>)
      requires IsDigest(digest)
      requires TempPath(workspace, operation).Ok? ==> TempPath(workspace, operation).value !in files
      modifies this
      ensures Refines(old(files), files, digest, workspace, Content(input), r)
      ensures r == Err(IoFailed) || Answers(old(files), digest, workspace, Content(input), r)
      ensures TempPath(workspace, operation).Ok? ==> TempPath(workspace, operation).value !in files
      ensures reliable ==> r != Err(IoFailed)
    {
      var tmp := TempPath(workspace, operation);
      if tmp.Err? {
        return Err(BadPath(tmp.error));
      }
      r := Publish(workspace, input, tmp.value, operation, reliable);
      files := files - {tmp.value};
    }

    method Publish(workspace: string, input: BlobInput, tmp: Path, ghost operation: string, reliable: bool)
      returns (r: Result<StoredBlob, PutError>)
      requires IsDigest(digest)
      requires TempPath(workspace, operation) == Ok(tmp) && tmp !in files
      modifies this
      ensures Refines(old(files), files - {tmp}, digest, workspace, Content(input), r)
      ensures reliable ==> r != Err(IoFailed)
    {
      if !reliable {
        if * {
          return Err(IoFailed);
        }
      }
      var staged := Stage(tmp, input, reliable);
      assert files - {tmp} == old(files);
      if staged.None? {
        return Err(IoFailed);
      }
      var sha, size := staged.value.0, staged.value.1;
      var key := PrintKey(sha);
      BlobPathsAreDistinct(workspace, key, sha, operation);
      var final := BlobPath(workspace, key);
      if !reliable {
        if * {
          return Err(IoFailed);
        }
      }
      if final.value in files {
        r := VerifyExistingBlob(final.value, Content(input), sha, size, reliable);
        if !reliable {
          if * {
            return Err(IoFailed);
          }
        }
        return;
      }
      if !reliable {
        if * {
          return Err(IoFailed);
        }
      }
      Rename(tmp, final.value);
      assert files - {tmp} == old(files)[final.value := Content(input)];
      r := Ok(StoredBlob(sha, size, key, false));
    }

    /** The guarded form takes a whole buffer and refuses anything else before it touches a file. */
    method PutBytesGuarded(workspace: string, input: BlobInput, operation: string, reliable: bool)
      returns (r: Result<StoredBlob, PutError>)
      requires IsDigest(digest)
      requires TempPath(workspace, operation).Ok? ==> TempPath(workspace, operation).value !in files
      modifies this
      ensures input.TempFile? ==> r == Err(NotABuffer) && files == old(files)
      ensures input.Buffer? ==> Refines(old(files), files, digest, workspace, input.bytes, r)
      ensures input.Buffer? ==> r == Err(IoFailed) || Answers(old(files), digest, workspace, input.bytes, r)
      ensures TempPath(workspace, operation).Ok? ==> TempPath(workspace, operation).value !in files
      ensures reliable ==> r != Err(IoFailed)
    {
      if !input.Buffer? {
        return Err(NotABuffer);
      }
      var bytes := input.bytes;
      var tmp := TempPath(workspace, operation);
      if tmp.Err? {
        return Err(BadPath(tmp.error));
      }
      r := PublishBuffer(workspace, bytes, tmp.value, operation, reliable);
      files := files - {tmp.value};
    }

    method PublishBuffer(workspace: string, bytes: Bytes, tmp: Path, ghost operation: string, reliable: bool)
      returns (r: Result<StoredBlob, PutError>)
      requires IsDigest(digest)
      requires TempPath(workspace, operation) == Ok(tmp) && tmp !in files
      modifies this
      ensures Refines(old(files), files - {tmp}, digest, workspace, bytes, r)
      ensures reliable ==> r != Err(IoFailed)
    {
      if !reliable {
        if * {
          var written :| 0 <= written <= |bytes|;
          files := files[tmp := bytes[..written]];
          assert files - {tmp} == old(files);
          return Err(IoFailed);
        }
      }
      files := files[tmp := bytes];
      assert files - {tmp} == old(files);
      var sha := digest(bytes);
      var key := PrintKey(sha);
      BlobPathsAreDistinct(workspace, key, sha, operation);
      var final := BlobPath(workspace, key);
      if final.value in files {
        var actualSize := |files[final.value]|;
        if actualSize != |bytes| {
          return Err(Corrupt(key, sha, |bytes|, None, actualSize));
        }
        var actualSha := HashFile(final.value, reliable);
        if actualSha.None? {
          return Err(IoFailed);
        }
        if actualSha.value != sha {
          return Err(Corrupt(key, sha, |bytes|, actualSha, actualSize));
        }
        return Ok(StoredBlob(sha, |bytes|, key, true));
      }
      if !reliable {
        if * {
          return Err(IoFailed);
        }
      }
      Rename(tmp, final.value);
      assert files - {tmp} == old(files)[final.value := bytes];
      r := Ok(StoredBlob(sha, |bytes|, key, false));
    }

    /** Unlinking a file that is already absent succeeds. */
    method DeleteUnreferenced(workspace: string, key: string, reliable: bool) returns (r: Result<(), PutError>)
      modifies this
      ensures r.Ok? ==> BlobPath(workspace, key).Ok? && files == Deleted(old(files), workspace, key)
      ensures r.Err? ==> files == old(files)
      ensures reliable ==> (r.Ok? <==> BlobPath(workspace, key).Ok?)
    {
      var path := BlobPath(workspace, key);
      if path.Err? {
        return Err(BadPath(path.error));
      }
      if !reliable {
        if * {
          return Err(IoFailed);
        }
      }
      if path.value in files {
        files := files - {path.value};
      }
      r := Ok(());
    }
  }

  function Deleted(files: Files, workspace: string, key: string): Files {
    if BlobPath(workspace, key).Ok? then files - {BlobPath(workspace, key).value} else files
  }

  // ---- Every run of puts and deletes ----

  /** Every stored file has the digest its path names. */
  ghost predicate ContentAddressed(files: Files, digest: Bytes -> string) {
    forall workspace, hash :: IsHash(hash) && HashPath(workspace, hash) in files ==>
      digest(files[HashPath(workspace, hash)]) == hash
  }

  datatype Step =
    | Store(workspace: string, bytes: Bytes, r: Result<StoredBlob, PutError>)
    | Delete(workspace: string, key: string, removed: Result<(), PutError>)

  /** One put or delete, succeeding or failing as the implementations may. */
  ghost predicate CanStep(before: Files, digest: Bytes -> string, step: Step, after: Files)
    requires IsDigest(digest)
  {
    match step
    case Store(workspace, bytes, r) => Refines(before, after, digest, workspace, bytes, r)
    case Delete(workspace, key, removed) => after == if removed.Ok? then Deleted(before, workspace, key) else before
  }

  lemma StepKeepsContentAddressed(before: Files, digest: Bytes -> string, step: Step, after: Files)
    requires IsDigest(digest) && ContentAddressed(before, digest) && CanStep(before, digest, step, after)
    ensures ContentAddressed(after, digest)
  {
    if step.Store? && after != before {
      var sha := digest(step.bytes);
      forall workspace, hash | IsHash(hash) && HashPath(workspace, hash) in after
        ensures digest(after[HashPath(workspace, hash)]) == hash
      {
        HashPathInjective(workspace, hash, step.workspace, sha);
      }
    }
  }

  ghost predicate IsRun(states: seq<Files>, digest: Bytes -> string, steps: seq<Step>)
    requires IsDigest(digest)
  {
    && |states| == |steps| + 1
    && forall i :: 0 <= i < |steps| ==> CanStep(states[i], digest, steps[i], states[i + 1])
  }

  lemma {:induction false} EveryRunIsContentAddressed(
      states: seq<Files>, digest: Bytes -> string, steps: seq<Step>, i: nat)
    requires IsDigest(digest) && IsRun(states, digest, steps) && ContentAddressed(states[0], digest)
    requires i < |states|
    ensures ContentAddressed(states[i], digest)
  {
    hide CanStep, ContentAddressed;
    if i > 0 {
      EveryRunIsContentAddressed(states, digest, steps, i - 1);
      StepKeepsContentAddressed(states[i - 1], digest, steps[i - 1], states[i]);
    }
  }

  /** A store whose files match their keys never reports a digest mismatch. */
  lemma ContentAddressedStoreIsNeverCorrupt(
      files: Files, digest: Bytes -> string, workspace: string, bytes: Bytes)
    requires IsDigest(digest) && ContentAddressed(files, digest)
    ensures var (after, r) := Put(files, digest, workspace, bytes);
            && (r.Err? && r.error.Corrupt? ==> r.error.actualSha.None?)
            && (r.Ok? ==> HashPath(workspace, digest(bytes)) in after
                          && digest(after[HashPath(workspace, digest(bytes))]) == digest(bytes))
            && (forall path :: path in files ==> path in after && after[path] == files[path])
  {
  }

  /** On every store, content-addressed or not, a put confirms an existing file exactly when its length
      and digest are those of the bytes, says which of the two differs otherwise, and writes nothing then. */
  lemma PutAnswersForTheStoredFile(files: Files, digest: Bytes -> string, workspace: string, bytes: Bytes)
    requires IsDigest(digest)
    ensures var (after, r) := Put(files, digest, workspace, bytes);
            var path := HashPath(workspace, digest(bytes));
            && Answers(files, digest, workspace, bytes, r)
            && (r.Err? || path in files ==> after == files)
            && (r.Ok? ==> path in after && |after[path]| == |bytes| && digest(after[path]) == digest(bytes))
            && after - {path} == files - {path}
  {
  }

  /** Deleting what a put just stored, by its printed key, restores the files. */
  lemma DeleteUndoesPut(files: Files, digest: Bytes -> string, workspace: string, bytes: Bytes)
    requires IsDigest(digest)
    requires Put(files, digest, workspace, bytes).1.Ok? && !Put(files, digest, workspace, bytes).1.value.deduplicated
    ensures var (after, r) := Put(files, digest, workspace, bytes); Deleted(after, workspace, r.value.key) == files
  {
    BlobPathsAreDistinct(workspace, "", digest(bytes), "");
  }
}

/**
  Content-addressed storage. A blob is copied in, hashed on the way and
  published under the digest of its own content.
*/
module Blobs {
  import opened Wrappers
  import opened Wire
  import opened Reader
  import Archive

  const COPY_BUFFER := 65536

  datatype StoreError = TooLarge | Io

  datatype Written = Written(digest: string, bytes: nat, created: bool)

  function Concat(pieces: seq<seq<byte>>): seq<byte> {
    if pieces == [] then [] else Concat(pieces[..|pieces| - 1]) + pieces[|pieces| - 1]
  }

  /** Every file is named by its content. */
  ghost predicate Named(sha: seq<byte> -> string, files: map<string, seq<byte>>) {
    forall d <- files :: sha(files[d]) == d
  }

  /** A blob being written a piece at a time: what the temporary holds and what the hasher has seen. */
  class Writer {
    var file: seq<byte>
    var hashed: seq<byte>
    var bytes: nat

    ghost predicate Valid()
      reads this
    {
      hashed == file && bytes == |file|
    }

    constructor ()
      ensures Valid() && file == []
    {
      file, hashed, bytes := [], [], 0;
    }

    /**
      Copies exactly `n` more bytes in reads of at most 64 KiB. Whether it
      works or not, what it took is a prefix of what was there and never more
      than `n`; when the disk is sound it fails only because the stream ended.
    */
    method Absorb(source: Counted, n: nat, sound: bool) returns (ok: bool)
      requires Valid() && source.Valid() && source.read == 0 && source.limit == n
      modifies this, source, source.inner
      ensures source.Valid()
      ensures source.read <= |old(source.inner.Rest())|
      ensures source.inner.Rest() == old(source.inner.Rest())[source.read..]
      ensures ok ==> Valid() && source.read == n && file == old(file) + old(source.inner.Rest())[..n]
      ensures sound ==> (ok <==> n <= |old(source.inner.Rest())|)
    {
      ghost var s, before := source.inner.Rest(), file;
      var remaining := n;
      while remaining > 0
        invariant source.Valid() && remaining <= n && source.read == n - remaining <= |s|
        invariant source.inner.Rest() == s[source.read..]
        invariant file == before + s[..source.read] && hashed == file
        invariant bytes == |before|
      {
        ghost var taken := source.read;
        var got := source.Read(Shorter(remaining, COPY_BUFFER));
        if got == [] {
          return false;
        }
        assert s[..source.read] == s[..taken] + got;
        hashed := hashed + got;
        var fails: bool := *;
        if fails && !sound {
          return false;
        }
        file := file + got;
        remaining := remaining - |got|;
      }
      bytes := bytes + n;
      ok := true;
    }
  }

  class Blobs {
    const sha: seq<byte> -> string
    var files: map<string, seq<byte>>
    var leases: map<string, nat>

    ghost predicate Valid()
      reads this
    {
      Named(sha, files) && forall d <- leases :: leases[d] > 0
    }

    constructor (hash: seq<byte> -> string)
      ensures Valid() && sha == hash && files == map[] && leases == map[]
    {
      sha, files, leases := hash, map[], map[];
    }

    /**
      Seals a blob under the name its content chose, leased. Content already
      stored is kept as it is; a rename that fails gives the lease back.
    */
    method Finish(writer: Writer, sound: bool) returns (r: Result<Written, StoreError>)
      requires Valid() && writer.Valid()
      modifies this
      ensures Valid()
      ensures r.Ok? ==>
        var digest := sha(writer.file);
        && r.value == Written(digest, |writer.file|, digest !in old(files))
        && files == (if digest in old(files) then old(files) else old(files)[digest := writer.file])
        && leases == Archive.Leased(old(leases), digest)
      ensures r.Err? ==> files == old(files) && leases == old(leases)
      ensures sound ==> r.Ok?
    {
      var fails: bool := *;
      if fails && !sound {
        return Err(Io);
      }
      var digest := sha(writer.hashed);
      leases := Archive.Leased(leases, digest);
      if digest in files {
        return Ok(Written(digest, writer.bytes, false));
      }
      fails := *;
      if fails && !sound {
        leases := Archive.Unleased(leases, digest);
        return Err(Io);
      }
      files := files[digest := writer.file];
      r := Ok(Written(digest, writer.bytes, true));
    }

    /** What is served under a digest is content with that digest, all of it. */
    method OpenRead(digest: string) returns (content: Option<seq<byte>>)
      requires Valid()
      ensures content.Some? <==> digest in files
      ensures content.Some? ==> content.value == files[digest] && sha(content.value) == digest
    {
      content := if digest in files then Some(files[digest]) else None;
    }

    /** A lease going out of scope. */
    method Release(digest: string)
      requires Valid()
      modifies this`leases
      ensures Valid() && leases == Archive.Unleased(old(leases), digest)
    {
      if digest in leases {
        if leases[digest] <= 1 {
          leases := leases - {digest};
        } else {
          leases := leases[digest := leases[digest] - 1];
        }
      }
    }

    /** Deletes an unleased blob; one already gone is the state the caller wanted. */
    method Remove(digest: string) returns (removed: bool)
      requires Valid()
      modifies this`files
      ensures Valid() && leases == old(leases)
      ensures removed <==> digest in old(files) && digest !in leases
      ensures files == if digest in leases then old(files) else old(files) - {digest}
    {
      if digest in leases || digest !in files {
        return false;
      }
      files := files - {digest};
      removed := true;
    }
  }
}

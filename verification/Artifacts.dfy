/** The content-addressed store that holds every snapshot a restore may need. */
module Artifacts {
  import opened Results

  type Bytes = seq<bv8>

  /** A SHA-256 digest, as the 256-bit number that its hexadecimal form spells. */
  type Digest = int

  datatype StoreError = TooLarge | NotFound | Corrupt

  /** What is on disk: a digest function and the blob stored under each digest. */
  datatype Vault = Vault(hash: Bytes -> Digest, blobs: map<Digest, Bytes>)

  /** A stored blob is returned only when its content still has the digest it is filed under. */
  function Read(v: Vault, d: Digest): (r: Result<Bytes, StoreError>)
    ensures r.Ok? ==> v.hash(r.value) == d
    ensures r.Ok? <==> d in v.blobs && v.hash(v.blobs[d]) == d
  {
    if d !in v.blobs then Err(NotFound)
    else if v.hash(v.blobs[d]) != d then Err(Corrupt)
    else Ok(v.blobs[d])
  }

  ghost predicate Readable(v: Vault, d: Digest) {
    Read(v, d).Ok?
  }

  /** Different contents never share a digest. */
  ghost predicate CollisionFree(hash: Bytes -> Digest) {
    forall a, b {:trigger hash(a), hash(b)} :: hash(a) == hash(b) ==> a == b
  }

  class ArtifactStore {
    var vault: Vault
    const maxBlobBytes: nat

    constructor (hash: Bytes -> Digest, maxBlobBytes: nat)
      ensures vault == Vault(hash, map[]) && this.maxBlobBytes == maxBlobBytes
    {
      vault := Vault(hash, map[]);
      this.maxBlobBytes := maxBlobBytes;
    }

    /** Files `data` under its digest; a blob already there is validated, never trusted or replaced. */
    method Put(data: Bytes) returns (r: Result<Digest, StoreError>)
      modifies this
      ensures vault.hash == old(vault.hash)
      ensures r.Ok? ==> r.value == vault.hash(data) && Readable(vault, r.value)
      ensures r.Ok? && CollisionFree(vault.hash) ==> Read(vault, r.value) == Ok(data)
      ensures forall d :: d in old(vault).blobs ==> d in vault.blobs && vault.blobs[d] == old(vault).blobs[d]
      ensures r.Err? ==> vault == old(vault) && (r.error == TooLarge <==> |data| > maxBlobBytes)
      ensures r.Err? <==>
        || |data| > maxBlobBytes
        || (vault.hash(data) in old(vault).blobs && !Readable(old(vault), vault.hash(data)))
    {
      if |data| > maxBlobBytes {
        return Err(TooLarge);
      }
      var digest := vault.hash(data);
      if digest in vault.blobs {
        var existing := Read(vault, digest);
        if existing.Err? {
          return Err(existing.error);
        }
        return Ok(digest);
      }
      vault := vault.(blobs := vault.blobs[digest := data]);
      return Ok(digest);
    }
  }
}

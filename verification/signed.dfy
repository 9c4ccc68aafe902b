/** Signed verdicts on disk: what a put leaves, and what a get accepts. */
module SignedVerdicts {
  import opened Verdicts
  import opened Protocol

  /**
   Ed25519 as an ideal scheme: a signature is the pair of key and message, so it verifies for that key
   and message only. `NotASignature` is any other text in the field.
  */
  datatype Signature = Sig(key: nat, message: Bytes) | NotASignature(text: string)

  datatype Envelope = Envelope(verdict: Verdict, algorithm: string, keyId: string, signature: Signature)

  /** A verdict file, as decoding it would show it. */
  datatype File = Signed(envelope: Envelope) | Bare(verdict: Verdict) | Undecodable

  /**
   The JSON codec: the canonical bytes of a verdict, and the verdict that decoding them yields.
   `keyId` names a key; it is a truncated hash, so two keys may share one.
  */
  datatype Codec = Codec(canonical: Verdict -> Bytes, reread: Verdict -> Verdict, keyId: nat -> string)

  /** Decoding is a function of the bytes, and what it yields has settled. */
  ghost predicate Faithful(c: Codec) {
    && (forall u, v :: c.canonical(u) == c.canonical(v) ==> c.reread(u) == c.reread(v))
    && (forall v :: c.reread(c.reread(v)) == c.reread(v))
  }

  /** The verdict survives its own encoding: its strings are valid UTF-8. */
  predicate Stable(c: Codec, v: Verdict) { c.reread(v) == v }

  const ALGORITHM := "ed25519"

  function Sign(c: Codec, key: nat, v: Verdict): Envelope {
    Envelope(v, ALGORITHM, c.keyId(key), Sig(key, c.canonical(v)))
  }

  predicate Verifies(c: Codec, key: nat, e: Envelope) {
    e.algorithm == ALGORITHM && e.keyId == c.keyId(key) && e.signature == Sig(key, c.canonical(e.verdict))
  }

  datatype Lookup = Hit(verdict: Verdict) | Miss | ReadError

  /** The file a put writes, as a later get decodes it. */
  function Filed(c: Codec, signer: Option<nat>, v: Verdict): File {
    match signer
    case None => Bare(c.reread(v))
    case Some(key) => var e := Sign(c, key, v); Signed(e.(verdict := c.reread(v)))
  }

  function Accepted(c: Codec, signer: Option<nat>, f: File): Lookup {
    match f
    case Signed(e) => if signer.Some? && Verifies(c, signer.value, e) then Hit(e.verdict) else Miss
    case Bare(v) => if signer.Some? then Miss else Hit(v)
    case Undecodable => if signer.Some? then Miss else ReadError
  }

  class VerdictStore {
    const codec: Codec
    var signer: Option<nat>
    var files: map<string, File>

    constructor (codec: Codec)
      ensures this.codec == codec && signer == None && files == map[]
    {
      this.codec := codec;
      signer := None;
      files := map[];
    }

    method SetSigner(s: Option<nat>)
      modifies this`signer
      ensures signer == s
    {
      signer := s;
    }

    method PutVerdict(v: Verdict, ok: bool) returns (done: bool)
      modifies this`files
      ensures done <==> ok && IsDigest(v.artifact.digest)
      ensures files == if done then old(files)[v.artifact.digest := Filed(codec, signer, v)] else old(files)
      ensures forall puts :: done && old(files) == Filled(codec, puts) ==> files == Filled(codec, puts + [Put(signer, v)])
    {
      if !IsDigest(v.artifact.digest) || !ok { return false; }
      var written;
      if signer.Some? {
        var sv := Sign(codec, signer.value, v);
        written := Signed(sv.(verdict := codec.reread(sv.verdict)));
      } else {
        written := Bare(codec.reread(v));
      }
      files := files[v.artifact.digest := written];
      done := true;
      assert forall puts: seq<Put> :: (puts + [Put(signer, v)])[..|puts|] == puts;
    }

    method GetVerdict(digest: string, ok: bool) returns (r: Lookup)
      ensures r == if !IsDigest(digest) then ReadError
                   else if digest !in files then Miss
                   else if !ok then ReadError
                   else Accepted(codec, signer, files[digest])
    {
      if !IsDigest(digest) { return ReadError; }
      if digest !in files { return Miss; }
      if !ok { return ReadError; }
      match files[digest]
      case Signed(sv) =>
        if signer.None? { return Miss; }
        if sv.algorithm != ALGORITHM { return Miss; }
        if sv.keyId != codec.keyId(signer.value) { return Miss; }
        if sv.signature != Sig(signer.value, codec.canonical(sv.verdict)) { return Miss; }
        return Hit(sv.verdict);
      case Bare(v) =>
        return if signer.Some? then Miss else Hit(v);
      case Undecodable =>
        return if signer.Some? then Miss else ReadError;
    }
  }

  /**
   Every pairing of the writer's signer with the reader's. Both unsigned, or both the same key and the
   verdict keeps its canonical bytes: a hit, with the verdict as re-read. Anything else is a miss.
  */
  lemma RoundTrip(c: Codec, writer: Option<nat>, reader: Option<nat>, v: Verdict)
    ensures Accepted(c, reader, Filed(c, writer, v)) ==
              if writer == reader && (writer.Some? ==> c.canonical(c.reread(v)) == c.canonical(v)) then Hit(c.reread(v))
              else Miss
  {
  }

  /** For a verdict that survives its encoding: back as it was exactly when the signers agree. */
  lemma StableRoundTrip(c: Codec, writer: Option<nat>, reader: Option<nat>, v: Verdict)
    requires Stable(c, v)
    ensures Accepted(c, reader, Filed(c, writer, v)) == if writer == reader then Hit(v) else Miss
  {
    RoundTrip(c, writer, reader, v);
  }

  /** With a signer configured, only what the key has signed is believed, whatever the file holds. */
  lemma HitMeansSigned(c: Codec, key: nat, f: File, v: Verdict)
    requires Accepted(c, Some(key), f) == Hit(v)
    ensures f.Signed? && f.envelope.verdict == v && f.envelope.signature == Sig(key, c.canonical(v))
  {
  }

  /**
   Altering any field of a stored envelope while keeping its signature, or replacing the signature by
   anything the key has not made for that verdict, turns the hit into a miss. The altered file is
   compared as a reader decodes it.
  */
  lemma AlterationMisses(c: Codec, key: nat, v: Verdict, e: Envelope)
    requires Faithful(c) && Stable(c, v) && Stable(c, e.verdict) && e != Sign(c, key, v)
    requires e.signature == Sig(key, c.canonical(v)) || forall m :: e.signature != Sig(key, m)
    ensures Accepted(c, Some(key), Filed(c, Some(key), v)) == Hit(v)
    ensures Accepted(c, Some(key), Signed(e)) == Miss
  {
    if c.canonical(e.verdict) == c.canonical(v) { SettledBytesDiffer(c, e.verdict, v); }
  }

  /** Two verdicts as a reader decodes them have the same bytes only if they are the same. */
  lemma SettledBytesDiffer(c: Codec, u: Verdict, v: Verdict)
    requires Faithful(c) && Stable(c, u) && Stable(c, v) && c.canonical(u) == c.canonical(v)
    ensures u == v
  {
    assert c.reread(u) == c.reread(v);
  }

  // ---- which digest a hit speaks of ----

  /** A digest is plain ASCII, so encoding a verdict keeps it. */
  ghost predicate KeepsDigests(c: Codec) {
    forall v: Verdict :: IsDigest(v.artifact.digest) ==> c.reread(v).artifact.digest == v.artifact.digest
  }

  /** One successful PutVerdict, with the signer configured at the time. */
  datatype Put = Put(signer: Option<nat>, verdict: Verdict)

  /** The files after these puts into an empty store. */
  function Filled(c: Codec, puts: seq<Put>): map<string, File> {
    if puts == [] then map[]
    else
      var n := |puts| - 1;
      var d := puts[n].verdict.artifact.digest;
      if IsDigest(d) then Filled(c, puts[..n])[d := Filed(c, puts[n].signer, puts[n].verdict)] else Filled(c, puts[..n])
  }

  /** The last verdict put under `digest`. */
  predicate IsLastPut(puts: seq<Put>, i: nat, digest: string) {
    && i < |puts| && puts[i].verdict.artifact.digest == digest
    && forall k: nat :: i < k < |puts| ==> puts[k].verdict.artifact.digest != digest
  }

  /**
   In a store only PutVerdict has written, a hit under a digest is the last verdict put under it, put
   by the reader's own signer, and it names that digest.
  */
  lemma {:induction false} HitIsLastPut(c: Codec, puts: seq<Put>, reader: Option<nat>, digest: string, v: Verdict) returns (i: nat)
    requires KeepsDigests(c) && digest in Filled(c, puts) && Accepted(c, reader, Filled(c, puts)[digest]) == Hit(v)
    ensures IsLastPut(puts, i, digest) && puts[i].signer == reader && v == c.reread(puts[i].verdict)
    ensures v.artifact.digest == digest
    decreases |puts|
  {
    var n := |puts| - 1;
    WellNamed(c, puts, digest);
    i := n;
    if puts[n].verdict.artifact.digest == digest {
      RoundTrip(c, puts[n].signer, reader, puts[n].verdict);
    } else {
      i := HitIsLastPut(c, puts[..n], reader, digest, v);
      LastAmongMore(puts, i, digest);
    }
  }

  lemma LastAmongMore(puts: seq<Put>, i: nat, digest: string)
    requires puts != [] && IsLastPut(puts[..|puts| - 1], i, digest) && puts[|puts| - 1].verdict.artifact.digest != digest
    ensures IsLastPut(puts, i, digest)
  {
    forall k: nat | i < k < |puts| ensures puts[k].verdict.artifact.digest != digest {
      if k < |puts| - 1 { assert puts[..|puts| - 1][k] == puts[k]; }
    }
  }

  lemma {:induction false} WellNamed(c: Codec, puts: seq<Put>, digest: string)
    requires digest in Filled(c, puts)
    ensures IsDigest(digest)
    decreases |puts|
  {
    if !IsDigest(digest) || puts[|puts| - 1].verdict.artifact.digest != digest { WellNamed(c, puts[..|puts| - 1], digest); }
  }

  /**
   A get never compares the digest asked for with the one the verdict names: the same file under
   another digest is a hit as well, and its verdict still speaks of the first.
  */
  lemma MovedFileIsAHit(c: Codec, puts: seq<Put>, reader: Option<nat>, digest: string, other: string, v: Verdict)
    requires KeepsDigests(c) && digest in Filled(c, puts) && Accepted(c, reader, Filled(c, puts)[digest]) == Hit(v)
    requires other != digest
    ensures var moved := Filled(c, puts)[other := Filled(c, puts)[digest]];
            Accepted(c, reader, moved[other]) == Hit(v) && v.artifact.digest != other
  {
    var i := HitIsLastPut(c, puts, reader, digest, v);
  }

  /** The digest the file's own verdict names, when it can be read. */
  predicate Names(f: File, digest: string) {
    match f
    case Signed(e) => e.verdict.artifact.digest == digest
    case Bare(v) => v.artifact.digest == digest
    case Undecodable => true
  }

  /** What a reader may conclude from a hit under `digest`, whoever wrote the file. */
  lemma HitNamesIff(c: Codec, reader: Option<nat>, files: map<string, File>)
    ensures (forall d, v :: d in files && Accepted(c, reader, files[d]) == Hit(v) ==> v.artifact.digest == d)
            <==> (forall d :: d in files && Accepted(c, reader, files[d]).Hit? ==> Names(files[d], d))
  {
    if forall d, v :: d in files && Accepted(c, reader, files[d]) == Hit(v) ==> v.artifact.digest == d {
      forall d | d in files && Accepted(c, reader, files[d]).Hit? ensures Names(files[d], d) {
        assert Accepted(c, reader, files[d]) == Hit(Accepted(c, reader, files[d]).verdict);
      }
    }
  }
}

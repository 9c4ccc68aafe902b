/** The on-disk cache as one caller sees it: each method is one store operation. */
module Store {
  import opened Verdicts
  import opened Protocol

  /** What a successful read of the artifact file returns, whatever bytes it holds. */
  function BytesAt(disk: Disk, digest: string): Option<Bytes> {
    var p := ArtifactFile(digest);
    if !IsDigest(digest) || p !in disk then None
    else
      match disk[p]
      case Body(bytes) => Some(bytes)
      case Torn(raw) => Some(raw)
      case _ => None
  }

  function VerdictAt(disk: Disk, digest: string): Option<Verdict> {
    var p := VerdictFile(digest);
    if IsDigest(digest) && p in disk && disk[p].Judgement? then Some(disk[p].verdict) else None
  }

  function LocatorAt(disk: Disk, key: string): Option<string> {
    var p := LocatorFile(key);
    if p in disk && disk[p].Pointer? && IsDigest(disk[p].digest) then Some(disk[p].digest) else None
  }

  /** The package log: an absent file is an empty log, an undecodable one is an error. */
  function HistoryAt(disk: Disk, ecosystem: string, name: string): Option<seq<Entry>> {
    var p := HistoryFile(ecosystem, name);
    if p !in disk then Some([])
    else if disk[p].History? then Some(disk[p].entries)
    else None
  }

  /** Every named file of `before` is as it was, and no other named file has appeared. */
  ghost predicate NamedFilesSame(before: Disk, after: Disk) {
    forall p: Path :: !p.TempFile? ==> (p in before <==> p in after) && (p in before ==> after[p] == before[p])
  }

  /** The environment's answers to one atomic write: create, write, rename and the deferred remove. */
  datatype Faults = Faults(create: Choice, fill: Choice, rename: Choice, remove: Choice) {
    predicate Spared() { create.Go? && fill.Go? && rename.Go? }
  }

  /** The disk after one atomic write. */
  function Written(disk: Disk, n: nat, target: Path, content: Content, f: Faults): Disk {
    if f.Spared() then disk[target := content]
    else if !f.create.Go? || f.remove.Go? then disk
    else disk[TempFile(n) := if f.fill.Go? then content else Torn(if f.fill.Fault? then f.fill.raw else "")]
  }

  /** All or nothing: the target holds the whole new document, or every named file is as before. */
  lemma WrittenWholeOrNot(disk: Disk, n: nat, target: Path, content: Content, f: Faults)
    requires !target.TempFile?
    ensures var after := Written(disk, n, target, content, f);
            && (forall p: Path :: !p.TempFile? && p != target ==> (p in disk <==> p in after) && (p in disk ==> after[p] == disk[p]))
            && (if f.Spared() then target in after && after[target] == content else NamedFilesSame(disk, after))
  {
  }

  class Cache {
    var disk: Disk
    var nextTemp: nat

    /** Temporary names are never handed out twice. */
    ghost predicate Valid()
      reads this
    {
      forall p: Path :: p in disk && p.TempFile? ==> p.n < nextTemp
    }

    constructor ()
      ensures Valid() && disk == map[] && nextTemp == 0
    {
      disk := map[];
      nextTemp := 0;
    }

    method AtomicWrite(target: Path, content: Content, f: Faults) returns (ok: bool)
      requires Valid() && !target.TempFile?
      modifies this
      ensures Valid()
      ensures ok <==> f.Spared()
      ensures disk == Written(old(disk), old(nextTemp), target, content, f)
      ensures nextTemp == old(nextTemp) + if f.create.Go? then 1 else 0
    {
      if !f.create.Go? { return false; }
      var tmp := TempFile(nextTemp);
      disk := disk[tmp := Torn("")];
      nextTemp := nextTemp + 1;
      if !f.fill.Go? {
        disk := disk[tmp := Torn(if f.fill.Fault? then f.fill.raw else "")];
        if f.remove.Go? { disk := disk - {tmp}; }
        return false;
      }
      disk := disk[tmp := content];
      if !f.rename.Go? {
        if f.remove.Go? { disk := disk - {tmp}; }
        return false;
      }
      disk := (disk - {tmp})[target := content];
      ok := true;
    }

    method GetArtifact(digest: string, ok: bool) returns (b: Option<Bytes>)
      ensures b == if ok then BytesAt(disk, digest) else None
    {
      if !IsDigest(digest) { return None; }
      var p := ArtifactFile(digest);
      if !ok || p !in disk { return None; }
      match disk[p]
      case Body(bytes) => b := Some(bytes);
      case Torn(raw) => b := Some(raw);
      case _ => b := None;
    }

    method GetVerdict(digest: string, ok: bool) returns (v: Option<Verdict>)
      ensures v == if ok then VerdictAt(disk, digest) else None
    {
      if !IsDigest(digest) { return None; }
      var p := VerdictFile(digest);
      if !ok || p !in disk { return None; }
      match disk[p]
      case Judgement(verdict) => v := Some(verdict);
      case _ => v := None;
    }

    method GetLocator(key: string, ok: bool) returns (d: Option<string>)
      ensures d == if ok then LocatorAt(disk, key) else None
    {
      var p := LocatorFile(key);
      if !ok || p !in disk { return None; }
      match disk[p]
      case Pointer(digest) => d := if IsDigest(digest) then Some(digest) else None;
      case _ => d := None;
    }

    method GetHistory(ecosystem: string, name: string, ok: bool) returns (h: Option<seq<Entry>>)
      ensures h == if ok then HistoryAt(disk, ecosystem, name) else None
    {
      var p := HistoryFile(ecosystem, name);
      if !ok { return None; }
      if p !in disk { return Some([]); }
      match disk[p]
      case History(entries) => h := Some(entries);
      case _ => h := None;
    }

    /** Whether AppendHistory gets as far as writing: the log is readable and lacks the digest. */
    ghost predicate Extends(ecosystem: string, name: string, e: Entry, ok: bool)
      reads this
    {
      var past := HistoryAt(disk, ecosystem, name);
      ok && past.Some? && !HasDigest(past.value, e.digest)
    }

    /** One more entry at the end, unless the log cannot be read or has the digest already. */
    method AppendHistory(ecosystem: string, name: string, e: Entry, ok: bool, f: Faults) returns (wrote: bool)
      requires Valid()
      modifies this
      ensures Valid()
      ensures wrote <==> old(Extends(ecosystem, name, e, ok))
      ensures !wrote ==> disk == old(disk) && nextTemp == old(nextTemp)
      ensures wrote ==>
                && disk == Written(old(disk), old(nextTemp), HistoryFile(ecosystem, name),
                                   History(old(HistoryAt(disk, ecosystem, name)).value + [e]), f)
                && nextTemp == old(nextTemp) + if f.create.Go? then 1 else 0
    {
      var past := GetHistory(ecosystem, name, ok);
      if past.None? { return false; }
      var entries := past.value;
      for i := 0 to |entries|
        invariant forall k :: 0 <= k < i ==> entries[k].digest != e.digest
        invariant disk == old(disk) && nextTemp == old(nextTemp)
      {
        if entries[i].digest == e.digest { return false; }
      }
      var done := AtomicWrite(HistoryFile(ecosystem, name), History(entries + [e]), f);
      wrote := true;
    }

    method PutArtifact(cfg: Config, b: Bytes, f: Faults) returns (digest: Option<string>)
      requires Valid()
      modifies this
      ensures Valid()
      ensures var d := cfg.digest(b);
              if !IsDigest(d) then digest == None && disk == old(disk) && nextTemp == old(nextTemp)
              else
                && digest == (if f.Spared() then Some(d) else None)
                && disk == Written(old(disk), old(nextTemp), ArtifactFile(d), Body(b), f)
                && nextTemp == old(nextTemp) + if f.create.Go? then 1 else 0
    {
      var d := cfg.digest(b);
      if !IsDigest(d) { return None; }
      var done := AtomicWrite(ArtifactFile(d), Body(b), f);
      digest := if done then Some(d) else None;
    }

    method PutVerdict(v: Verdict, f: Faults) returns (done: bool)
      requires Valid()
      modifies this
      ensures Valid()
      ensures var d := v.artifact.digest;
              if !IsDigest(d) then !done && disk == old(disk) && nextTemp == old(nextTemp)
              else
                && (done <==> f.Spared())
                && disk == Written(old(disk), old(nextTemp), VerdictFile(d), Judgement(v), f)
                && nextTemp == old(nextTemp) + if f.create.Go? then 1 else 0
    {
      if !IsDigest(v.artifact.digest) { return false; }
      done := AtomicWrite(VerdictFile(v.artifact.digest), Judgement(v), f);
    }

    method PutLocator(key: string, digest: string, f: Faults) returns (done: bool)
      requires Valid()
      modifies this
      ensures Valid()
      ensures if !IsDigest(digest) then !done && disk == old(disk) && nextTemp == old(nextTemp)
              else
                && (done <==> f.Spared())
                && disk == Written(old(disk), old(nextTemp), LocatorFile(key), Pointer(digest), f)
                && nextTemp == old(nextTemp) + if f.create.Go? then 1 else 0
    {
      if !IsDigest(digest) { return false; }
      done := AtomicWrite(LocatorFile(key), Pointer(digest), f);
    }
  }

  /** What a reader finds after a successful write of each kind, and what a failed one leaves. */
  lemma ReadBack(cfg: Config, disk: Disk, n: nat, b: Bytes, key: string, v: Verdict, f: Faults)
    requires IsDigest(cfg.digest(b)) && IsDigest(v.artifact.digest)
    ensures var d := cfg.digest(b);
            && BytesAt(Written(disk, n, ArtifactFile(d), Body(b), f), d) == (if f.Spared() then Some(b) else BytesAt(disk, d))
            && VerdictAt(Written(disk, n, VerdictFile(v.artifact.digest), Judgement(v), f), v.artifact.digest)
               == (if f.Spared() then Some(v) else VerdictAt(disk, v.artifact.digest))
            && LocatorAt(Written(disk, n, LocatorFile(key), Pointer(d), f), key)
               == (if f.Spared() then Some(d) else LocatorAt(disk, key))
  {
  }
}

/** Bounded unpacking of an archive's members into memory. */
module Unpack {
  import opened Verdicts
  import opened Paths

  newtype int64 = x: int | -0x8000_0000_0000_0000 <= x < 0x8000_0000_0000_0000

  const MAX_FILES: nat := 20000
  const MAX_FILE_SIZE: int64 := 0x200_0000        // 32 MiB
  const MAX_TOTAL_SIZE: int64 := 0x2000_0000      // 512 MiB
  const MAX_CONTENT_KEEP: nat := 0x40_0000        // 4 MiB

  /** What reading a member delivers: some bytes, and then its end or, when it breaks, an error. */
  datatype Stream = Stream(bytes: Bytes, breaks: bool)

  /** What the archive reader yields next: a member, or a fault in the container. */
  datatype Item =
    | Member(name: string, regular: bool, size: int64, body: Stream)
    | Fault(cause: string)

  /** A member that ends well has its declared size; one that breaks, or cannot be opened, has no more. */
  predicate WellSized(i: Item) {
    i.Member? ==> 0 <= i.size && |i.body.bytes| <= i.size as int && (!i.body.breaks ==> |i.body.bytes| == i.size as int)
  }

  /** Only the first 4 MiB and one byte are looked at; an error after them is dropped. */
  predicate Readable(body: Stream) { !body.breaks || |body.bytes| > MAX_CONTENT_KEEP }

  datatype File = File(path: string, content: Bytes, size: int64, truncated: bool)

  datatype Failure =
    | BadContainer(cause: string)
    | TooManyFiles
    | MemberTooLarge(name: string)
    | TotalTooLarge
    | Unreadable(name: string)
    | Unsupported

  datatype Result = Ok(files: seq<File>) | Err(failure: Failure)

  // ---- what an accepted archive becomes ----

  predicate Regular(i: Item) { i.Member? && i.regular }

  function RegularItems(items: seq<Item>): (r: seq<Item>)
    ensures forall k :: 0 <= k < |r| ==> Regular(r[k])
  {
    if items == [] then []
    else
      var n := |items| - 1;
      RegularItems(items[..n]) + (if Regular(items[n]) then [items[n]] else [])
  }

  function TotalSize(items: seq<Item>): int {
    if items == [] then 0
    else
      var n := |items| - 1;
      TotalSize(items[..n]) + (if Regular(items[n]) then items[n].size as int else 0)
  }

  function Kept(body: Bytes): Bytes { if |body| > MAX_CONTENT_KEEP then body[..MAX_CONTENT_KEEP] else body }

  function Filed(i: Item, stripPrefix: string): File
    requires Regular(i)
  {
    File(LogicalPath(i.name, stripPrefix), Kept(i.body.bytes), i.size, |i.body.bytes| > MAX_CONTENT_KEEP)
  }

  function FiledAll(items: seq<Item>, stripPrefix: string): (files: seq<File>)
    ensures |files| == |RegularItems(items)|
    ensures forall k :: 0 <= k < |files| ==> files[k] == Filed(RegularItems(items)[k], stripPrefix)
  {
    if items == [] then []
    else
      var n := |items| - 1;
      FiledAll(items[..n], stripPrefix) + (if Regular(items[n]) then [Filed(items[n], stripPrefix)] else [])
  }

  predicate Sound(i: Item) {
    i.Member? && (i.regular ==> i.size <= MAX_FILE_SIZE && Readable(i.body))
  }

  /** Every limit holds and everything can be read as far as it is kept. */
  predicate WithinBudget(items: seq<Item>) {
    && (forall k :: 0 <= k < |items| ==> Sound(items[k]))
    && |RegularItems(items)| <= MAX_FILES
    && TotalSize(items) <= MAX_TOTAL_SIZE as int
  }

  lemma {:induction false} BudgetPrefix(items: seq<Item>, i: nat)
    requires i <= |items| && WithinBudget(items) && forall k :: 0 <= k < |items| ==> WellSized(items[k])
    ensures WithinBudget(items[..i])
    decreases |items| - i
  {
    if i == |items| {
      assert items[..i] == items;
    } else {
      BudgetPrefix(items, i + 1);
      assert items[..i + 1][..i] == items[..i];
    }
  }

  /** What the next item must meet, and that a budget once broken stays broken. */
  lemma BudgetStep(items: seq<Item>, i: nat)
    requires i < |items| && WithinBudget(items[..i]) && forall k :: 0 <= k < |items| ==> WellSized(items[k])
    ensures WithinBudget(items[..i + 1]) <==>
              && Sound(items[i])
              && (items[i].regular ==>
                    |RegularItems(items[..i])| < MAX_FILES && TotalSize(items[..i]) + items[i].size as int <= MAX_TOTAL_SIZE as int)
    ensures WithinBudget(items) ==> WithinBudget(items[..i + 1])
  {
    var p := items[..i + 1];
    assert p[..i] == items[..i];
    assert forall k :: 0 <= k < i ==> p[k] == items[..i][k];
    if WithinBudget(items) { BudgetPrefix(items, i + 1); }
  }

  // ---- the code ----

  /** A limited read: it stops at the limit, at the end, or with the stream's error, whichever comes first. */
  method ReadLimited(stream: Stream, limit: nat) returns (got: Option<Bytes>)
    ensures got == if stream.breaks && |stream.bytes| < limit then None
                   else Some(if |stream.bytes| > limit then stream.bytes[..limit] else stream.bytes)
  {
    if |stream.bytes| < limit && stream.breaks { return None; }
    got := Some(if |stream.bytes| > limit then stream.bytes[..limit] else stream.bytes);
  }

  /** The first bytes of a member, and whether there were more; draining the rest reports nothing. */
  method ReadCapped(stream: Stream) returns (content: Option<Bytes>, truncated: bool)
    ensures content == if Readable(stream) then Some(Kept(stream.bytes)) else None
    ensures truncated <==> |stream.bytes| > MAX_CONTENT_KEEP
  {
    truncated := false;
    var got := ReadLimited(stream, MAX_CONTENT_KEEP + 1);
    if got.None? { return None, false; }
    var b := got.value;
    if |b| > MAX_CONTENT_KEEP {
      assert b[..MAX_CONTENT_KEEP] == stream.bytes[..MAX_CONTENT_KEEP];
      b := b[..MAX_CONTENT_KEEP];
      truncated := true;
    }
    content := Some(b);
  }

  /** The shared postcondition of the two readers. */
  ghost predicate Unpacks(items: seq<Item>, stripPrefix: string, r: Result) {
    && (r.Ok? <==> WithinBudget(items))
    && (r.Ok? ==> r.files == FiledAll(items, stripPrefix))
  }

  method UnpackTarGz(container: Option<seq<Item>>, stripPrefix: string) returns (r: Result)
    requires container.Some? ==> forall k :: 0 <= k < |container.value| ==> WellSized(container.value[k])
    ensures container.None? ==> r.Err?
    ensures container.Some? ==> Unpacks(container.value, stripPrefix, r)
  {
    if container.None? { return Err(BadContainer("gzip")); }
    var items := container.value;
    var files: seq<File> := [];
    var total: int64 := 0;
    for i := 0 to |items|
      invariant WithinBudget(items[..i]) && total as int == TotalSize(items[..i]) >= 0
      invariant files == FiledAll(items[..i], stripPrefix)
    {
      assert items[..i + 1][..i] == items[..i];
      BudgetStep(items, i);
      var hdr := items[i];
      if hdr.Fault? { return Err(BadContainer(hdr.cause)); }
      if !hdr.regular { continue; }
      if |files| >= MAX_FILES { return Err(TooManyFiles); }
      if hdr.size > MAX_FILE_SIZE { return Err(MemberTooLarge(hdr.name)); }
      total := total + hdr.size;
      if total > MAX_TOTAL_SIZE { return Err(TotalTooLarge); }
      var content, truncated := ReadCapped(hdr.body);
      if content.None? { return Err(Unreadable(hdr.name)); }
      files := files + [File(LogicalPath(hdr.name, stripPrefix), content.value, hdr.size, truncated)];
    }
    assert items[..|items|] == items;
    r := Ok(files);
  }

  /** The zip reader lists its members first and opens each one; directories are the irregular members. */
  method UnpackZip(container: Option<seq<Item>>) returns (r: Result)
    requires container.Some? ==> forall k :: 0 <= k < |container.value| ==> WellSized(container.value[k])
    ensures container.None? ==> r.Err?
    ensures container.Some? ==> Unpacks(container.value, "", r)
  {
    if container.None? { return Err(BadContainer("zip")); }
    var items := container.value;
    var files: seq<File> := [];
    var total: int64 := 0;
    for i := 0 to |items|
      invariant WithinBudget(items[..i]) && total as int == TotalSize(items[..i]) >= 0
      invariant files == FiledAll(items[..i], "")
    {
      assert items[..i + 1][..i] == items[..i];
      BudgetStep(items, i);
      var zf := items[i];
      if zf.Fault? { return Err(BadContainer(zf.cause)); }
      if !zf.regular { continue; }
      if |files| >= MAX_FILES { return Err(TooManyFiles); }
      if zf.size > MAX_FILE_SIZE { return Err(MemberTooLarge(zf.name)); }
      total := total + zf.size;
      if total > MAX_TOTAL_SIZE { return Err(TotalTooLarge); }
      var content, truncated := ReadCapped(zf.body);
      if content.None? { return Err(Unreadable(zf.name)); }
      files := files + [File(LogicalPath(zf.name, ""), content.value, zf.size, truncated)];
    }
    assert items[..|items|] == items;
    r := Ok(files);
  }

  predicate IsZip(data: Bytes) { |data| >= 4 && data[..4] == "PK\U{0003}\U{0004}" }

  /** The formats of an artifact, and the container decoders as parameters. */
  datatype Decoders = Decoders(tarGz: Bytes -> Option<seq<Item>>, zip: Bytes -> Option<seq<Item>>)

  ghost predicate Decodes(d: Decoders) {
    forall b :: (d.tarGz(b).Some? ==> AllWellSized(d.tarGz(b).value)) && (d.zip(b).Some? ==> AllWellSized(d.zip(b).value))
  }

  predicate AllWellSized(items: seq<Item>) { forall k :: 0 <= k < |items| ==> WellSized(items[k]) }

  /** The container an artifact is read as, with the prefix to strip. */
  function Container(d: Decoders, ecosystem: string, data: Bytes): Option<(seq<Item>, string)> {
    if ecosystem == "npm" then
      if d.tarGz(data).Some? then Some((d.tarGz(data).value, "package/")) else None
    else if ecosystem == "pypi" then
      var items := if IsZip(data) then d.zip(data) else d.tarGz(data);
      if items.Some? then Some((items.value, "")) else None
    else None
  }

  method UnpackAuto(d: Decoders, ecosystem: string, data: Bytes) returns (r: Result)
    requires Decodes(d)
    ensures var c := Container(d, ecosystem, data);
            if c.Some? then Unpacks(c.value.0, c.value.1, r) else r.Err?
  {
    if ecosystem == "npm" {
      r := UnpackTarGz(d.tarGz(data), "package/");
    } else if ecosystem == "pypi" && IsZip(data) {
      r := UnpackZip(d.zip(data));
    } else if ecosystem == "pypi" {
      r := UnpackTarGz(d.tarGz(data), "");
    } else {
      r := Err(Unsupported);
    }
  }

  // ---- what acceptance means ----

  lemma {:induction false} SizesAddUp(items: seq<Item>, k: nat)
    requires AllWellSized(items) && k < |RegularItems(items)|
    ensures RegularItems(items)[k].size as int <= TotalSize(items)
    ensures RegularItems(items)[k] in items
    decreases |items|
  {
    var n := |items| - 1;
    TotalNotNegative(items[..n]);
    if k < |RegularItems(items[..n])| {
      SizesAddUp(items[..n], k);
      assert RegularItems(items)[k] in items[..n];
    }
  }

  lemma {:induction false} TotalNotNegative(items: seq<Item>)
    requires AllWellSized(items)
    ensures TotalSize(items) >= 0
    decreases |items|
  {
    if items != [] { TotalNotNegative(items[..|items| - 1]); }
  }

  /**
   An unpacked artifact is bounded: at most 20000 files, each of a declared size of at most 32 MiB and
   holding the first bytes of its member, as many as declared but no more than 4 MiB. It is marked
   truncated exactly when more was declared, and its path is relative without "..". The declared size
   is the true one unless the member broke after its first 4 MiB.
  */
  lemma UnpackedIsBounded(items: seq<Item>, stripPrefix: string, files: seq<File>)
    requires AllWellSized(items) && Unpacks(items, stripPrefix, Ok(files))
    requires stripPrefix == "" || stripPrefix == "package/"
    ensures |files| <= MAX_FILES && TotalSize(items) <= MAX_TOTAL_SIZE as int
    ensures forall k :: 0 <= k < |files| ==>
              var f, i := files[k], RegularItems(items)[k];
              && 0 <= f.size <= MAX_FILE_SIZE && f.content <= i.body.bytes
              && |f.content| == (if f.size as int < MAX_CONTENT_KEEP then f.size as int else MAX_CONTENT_KEEP)
              && (f.truncated <==> f.size as int > MAX_CONTENT_KEEP)
              && (|i.body.bytes| == f.size as int || (i.body.breaks && |i.body.bytes| > MAX_CONTENT_KEEP))
              && Contained(f.path)
  {
    assert Ok(files).files == files;
    forall k | 0 <= k < |files|
      ensures var f, i := files[k], RegularItems(items)[k];
              && 0 <= f.size <= MAX_FILE_SIZE && f.content <= i.body.bytes
              && |f.content| == (if f.size as int < MAX_CONTENT_KEEP then f.size as int else MAX_CONTENT_KEEP)
              && (f.truncated <==> f.size as int > MAX_CONTENT_KEEP)
              && (|i.body.bytes| == f.size as int || (i.body.breaks && |i.body.bytes| > MAX_CONTENT_KEEP))
              && Contained(f.path)
    {
      var i := RegularItems(items)[k];
      SizesAddUp(items, k);
      var j :| 0 <= j < |items| && items[j] == i;
      assert Sound(items[j]) && WellSized(items[j]);
      LogicalPathContained(i.name, stripPrefix);
    }
  }

  /** The limits in figures: what an archive must meet, and all it must meet, to be accepted. */
  lemma BudgetMeans(items: seq<Item>)
    ensures WithinBudget(items) <==>
              && (forall k :: 0 <= k < |items| ==> Acceptable(items[k]))
              && |set k: nat | k < |items| && Regular(items[k])| <= 20000
              && TotalSize(items) <= 536870912
  {
    RegularsCounted(items);
    forall k | 0 <= k < |items| ensures Sound(items[k]) <==> Acceptable(items[k]) {
    }
  }

  /** No fault in the container, and no member over 32 MiB or broken within its first 4 MiB and a byte. */
  predicate Acceptable(i: Item) {
    i.Member? && (i.regular ==> i.size as int <= 33554432 && (i.body.breaks ==> |i.body.bytes| >= 4194305))
  }

  lemma {:induction false} RegularsCounted(items: seq<Item>)
    ensures |RegularItems(items)| == |set k: nat | k < |items| && Regular(items[k])|
    decreases |items|
  {
    if items != [] {
      var n := |items| - 1;
      RegularsCounted(items[..n]);
      var before := set k: nat | k < n && Regular(items[..n][k]);
      var all := set k: nat | k < |items| && Regular(items[k]);
      assert all == if Regular(items[n]) then before + {n} else before;
    }
  }

  /** Which reader gets an artifact, and what it strips. */
  lemma ContainerMeans(d: Decoders, data: Bytes)
    ensures Container(d, "npm", data) == if d.tarGz(data).Some? then Some((d.tarGz(data).value, "package/")) else None
    ensures |data| >= 4 && data[..4] == ['P', 'K', 3 as char, 4 as char] ==>
              Container(d, "pypi", data) == if d.zip(data).Some? then Some((d.zip(data).value, "")) else None
    ensures |data| < 4 || data[..4] != ['P', 'K', 3 as char, 4 as char] ==>
              Container(d, "pypi", data) == if d.tarGz(data).Some? then Some((d.tarGz(data).value, "")) else None
    ensures forall ecosystem :: ecosystem != "npm" && ecosystem != "pypi" ==> Container(d, ecosystem, data) == None
  {
    assert "PK\U{0003}\U{0004}" == ['P', 'K', 3 as char, 4 as char];
    assert "npm"[0] != "pypi"[0];
  }

  /** Where a member below one directory is filed: under its path there, with its first 4 MiB. */
  lemma MemberFiled(items: seq<Item>, stripPrefix: string, k: nat, dir: string, path: string)
    requires k < |RegularItems(items)| && RegularItems(items)[k].name == dir + "/" + path
    requires Plain(dir) && path != "" && Contained(path) && (stripPrefix == "" || stripPrefix == dir + "/")
    ensures |FiledAll(items, stripPrefix)| == |RegularItems(items)|
    ensures var f, i := FiledAll(items, stripPrefix)[k], RegularItems(items)[k];
            f.path == path && f.size == i.size && f.content == if |i.body.bytes| > 4194304 then i.body.bytes[..4194304] else i.body.bytes
  {
    LogicalPathKeeps(dir, path);
  }

  // ---- lookup ----

  /** The position of the last file at `path`. */
  function LastAt(files: seq<File>, path: string): Option<nat> {
    if files == [] then None
    else
      var n := |files| - 1;
      if files[n].path == path then Some(n) else LastAt(files[..n], path)
  }

  lemma {:induction false} LastAtIsLast(files: seq<File>, path: string)
    ensures match LastAt(files, path)
            case None => forall k :: 0 <= k < |files| ==> files[k].path != path
            case Some(n) => n < |files| && files[n].path == path && forall k :: n < k < |files| ==> files[k].path != path
    decreases |files|
  {
    if files != [] { LastAtIsLast(files[..|files| - 1], path); }
  }

  class Unpacked {
    const files: seq<File>
    var byPath: Option<map<string, nat>>   // nil until first needed

    ghost predicate Valid()
      reads this
    {
      byPath.Some? ==> Indexed(byPath.value, files)
    }

    constructor (files: seq<File>)
      ensures Valid() && this.files == files && byPath == None
    {
      this.files := files;
      byPath := None;
    }

    method Index()
      modifies this
      ensures Valid() && byPath.Some?
    {
      var m: map<string, nat> := map[];
      for i := 0 to |files|
        invariant Indexed(m, files[..i])
      {
        assert files[..i + 1][..i] == files[..i];
        m := m[files[i].path := i];
      }
      assert files[..|files|] == files;
      byPath := Some(m);
    }

    method Lookup(path: string) returns (f: Option<File>)
      requires Valid()
      modifies this
      ensures Valid()
      ensures f == match LastAt(files, path) case None => None case Some(n) => (LastAtIsLast(files, path); Some(files[n]))
    {
      if byPath.None? { Index(); }
      LastAtIsLast(files, path);
      f := if path in byPath.value then Some(files[byPath.value[path]]) else None;
    }
  }

  ghost predicate Indexed(m: map<string, nat>, files: seq<File>) {
    forall p :: if p in m then LastAt(files, p) == Some(m[p]) else LastAt(files, p) == None
  }
}

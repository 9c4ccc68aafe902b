/** The extractor of the last balanced top-level object in a log. */
module Scanner {
  import opened Verdicts

  /** The scan variables depth, inStr, esc. */
  datatype Scan = Scan(depth: int, inStr: bool, esc: bool)

  const START := Scan(0, false, false)

  /** One turn of the inner switch. */
  function Next(st: Scan, c: char): Scan {
    if st.esc then st.(esc := false)
    else if c == '\\' then st.(esc := true)
    else if c == '"' then st.(inStr := !st.inStr)
    else if st.inStr then st
    else if c == '{' then st.(depth := st.depth + 1)
    else if c == '}' then st.(depth := st.depth - 1)
    else st
  }

  /** The inner loop's exit test, on the variables after the switch. */
  predicate Closes(st: Scan, c: char) { !st.inStr && !st.esc && c == '}' && st.depth == 0 }

  function Run(st: Scan, s: Bytes): Scan
    decreases |s|
  {
    if s == "" then st else Run(Next(st, s[0]), s[1..])
  }

  /** Where the scan that is at `j` in state `st` leaves the inner loop by its exit test. */
  function CloseFrom(b: Bytes, j: nat, st: Scan): Option<nat>
    requires j <= |b|
    decreases |b| - j
  {
    if j == |b| then None
    else
      var st' := Next(st, b[j]);
      if Closes(st', b[j]) then Some(j) else CloseFrom(b, j + 1, st')
  }

  datatype Span = Span(start: nat, end: nat)

  lemma {:induction false} CloseBounds(b: Bytes, j: nat, st: Scan)
    requires j <= |b| && CloseFrom(b, j, st).Some?
    ensures j <= CloseFrom(b, j, st).value < |b|
    decreases |b| - j
  {
    if !Closes(Next(st, b[j]), b[j]) { CloseBounds(b, j + 1, Next(st, b[j])); }
  }

  /** The objects the restarting scan finds from position `i` on. */
  function Objects(b: Bytes, i: nat): seq<Span>
    requires i <= |b|
    decreases |b| - i
  {
    if i == |b| then []
    else if b[i] != '{' then Objects(b, i + 1)
    else
      match CloseFrom(b, i, START)
      case None => Objects(b, i + 1)
      case Some(j) => (CloseBounds(b, i, START); [Span(i, j + 1)] + Objects(b, j + 1))
  }

  lemma {:induction false} ObjectsInBounds(b: Bytes, i: nat)
    requires i <= |b|
    ensures forall k :: 0 <= k < |Objects(b, i)| ==> i <= Objects(b, i)[k].start < Objects(b, i)[k].end <= |b|
    decreases |b| - i
  {
    if i < |b| {
      if b[i] == '{' && CloseFrom(b, i, START).Some? {
        CloseBounds(b, i, START);
        ObjectsInBounds(b, CloseFrom(b, i, START).value + 1);
      } else {
        ObjectsInBounds(b, i + 1);
      }
    }
  }

  function Extracted(b: Bytes): Option<Bytes> {
    var found := Objects(b, 0);
    if found == [] then None
    else
      ObjectsInBounds(b, 0);
      Some(b[found[|found| - 1].start..found[|found| - 1].end])
  }

  /** The restarting scanner, as the two nested loops. */
  method ExtractJSONObject(b: Bytes) returns (last: Option<Bytes>)
    ensures last == Extracted(b)
  {
    last := None;
    var i := 0;
    ghost var found: seq<Span> := [];
    while i < |b|
      invariant i <= |b| && found + Objects(b, i) == Objects(b, 0)
      invariant last.None? <==> found == []
      invariant found != [] ==> found[|found| - 1].start <= found[|found| - 1].end <= |b|
      invariant found != [] ==> last == Some(b[found[|found| - 1].start..found[|found| - 1].end])
    {
      if b[i] != '{' {
        i := i + 1;
        continue;
      }
      var depth, inStr, esc := 0, false, false;
      var j := i;
      ghost var closed := false;
      while j < |b|
        invariant i <= j <= |b| && !closed
        invariant CloseFrom(b, i, START) == CloseFrom(b, j, Scan(depth, inStr, esc))
        invariant j > i ==> depth >= 1
        invariant j == i ==> depth == 0 && !inStr && !esc
      {
        var c := b[j];
        ghost var st := Scan(depth, inStr, esc);
        if esc { esc := false; }
        else if c == '\\' { esc := true; }
        else if c == '"' { inStr := !inStr; }
        else if inStr { }
        else if c == '{' { depth := depth + 1; }
        else if c == '}' { depth := depth - 1; }
        assert Scan(depth, inStr, esc) == Next(st, c);
        if !inStr && !esc && c == '}' && depth == 0 {
          closed := true;
          break;
        }
        j := j + 1;
      }
      if depth == 0 && j < |b| {
        last := Some(b[i..j + 1]);
        found := found + [Span(i, j + 1)];
        i := j + 1;
      } else {
        i := i + 1;
      }
    }
    assert found == Objects(b, 0);
  }

  // ---- what an object is: the first return to depth zero ----

  lemma {:induction false} RunSnoc(st: Scan, s: Bytes, c: char)
    ensures Run(st, s + [c]) == Next(Run(st, s), c)
    decreases |s|
  {
    if s == "" {
      assert s + [c] == [c];
      assert [c][1..] == "";
    } else {
      assert (s + [c])[1..] == s[1..] + [c];
      RunSnoc(Next(st, s[0]), s[1..], c);
    }
  }

  lemma {:induction false} RunConcat(st: Scan, s: Bytes, t: Bytes)
    ensures Run(st, s + t) == Run(Run(st, s), t)
    decreases |s|
  {
    if s == "" {
      assert s + t == t;
    } else {
      assert (s + t)[1..] == s[1..] + t;
      RunConcat(Next(st, s[0]), s[1..], t);
    }
  }

  /** The scan state after b[i..k). */
  function StateAfter(b: Bytes, i: nat, k: nat): Scan
    requires i <= k <= |b|
  {
    Run(START, b[i..k])
  }

  function DepthAfter(b: Bytes, i: nat, k: nat): int
    requires i <= k <= |b|
  {
    StateAfter(b, i, k).depth
  }

  /** b[i..e) opens at its first byte, is inside itself throughout, and is balanced at its end. */
  ghost predicate Balanced(b: Bytes, i: nat, e: nat) {
    && i < e <= |b|
    && (forall k :: i < k < e ==> DepthAfter(b, i, k) >= 1)
    && DepthAfter(b, i, e) == 0
  }

  lemma StateStep(b: Bytes, i: nat, j: nat)
    requires i <= j < |b|
    ensures StateAfter(b, i, j + 1) == Next(StateAfter(b, i, j), b[j])
  {
    assert b[i..j + 1] == b[i..j] + [b[j]];
    RunSnoc(START, b[i..j], b[j]);
  }

  /** From a depth of at least 1 the exit test fires exactly when the depth comes back to 0. */
  lemma ClosesAtZero(st: Scan, c: char)
    requires st.depth >= 1
    ensures Closes(Next(st, c), c) <==> Next(st, c).depth == 0
    ensures !Closes(Next(st, c), c) ==> Next(st, c).depth >= 1
  {
  }

  /** The exit test finds the first balanced end, and only that. */
  lemma {:induction false} CloseIsFirstReturn(b: Bytes, i: nat, j: nat, st: Scan)
    requires i < j <= |b| && st == StateAfter(b, i, j) && forall k :: i < k <= j ==> DepthAfter(b, i, k) >= 1
    ensures var r := CloseFrom(b, j, st);
            && (r.Some? ==> Balanced(b, i, r.value + 1))
            && (r.None? ==> forall k :: j < k <= |b| ==> DepthAfter(b, i, k) >= 1)
    decreases |b| - j
  {
    if j < |b| {
      assert DepthAfter(b, i, j) >= 1;
      StateStep(b, i, j);
      ClosesAtZero(st, b[j]);
      assert DepthAfter(b, i, j + 1) == Next(st, b[j]).depth;
      if !Closes(Next(st, b[j]), b[j]) { CloseIsFirstReturn(b, i, j + 1, Next(st, b[j])); }
    }
  }

  /** A '{' closes at e exactly when b[i..e) is balanced, so at most one e. */
  lemma ClosesWhereBalanced(b: Bytes, i: nat, e: nat)
    requires i < |b| && b[i] == '{'
    ensures CloseFrom(b, i, START) == Some(e - 1) <==> Balanced(b, i, e)
  {
    assert b[i..i + 1] == [b[i]];
    assert [b[i]][1..] == "";
    assert Run(START, [b[i]]) == Scan(1, false, false);
    assert DepthAfter(b, i, i + 1) == 1;
    assert CloseFrom(b, i, START) == CloseFrom(b, i + 1, Run(START, b[i..i + 1]));
    CloseIsFirstReturn(b, i, i + 1, StateAfter(b, i, i + 1));
    if CloseFrom(b, i, START).Some? { CloseBounds(b, i, START); }
  }

  predicate Inside(spans: seq<Span>, i: nat) { exists k :: 0 <= k < |spans| && spans[k].start <= i < spans[k].end }

  /** The span holds a balanced object. */
  ghost predicate ObjectAt(b: Bytes, sp: Span) {
    sp.start < |b| && b[sp.start] == '{' && Balanced(b, sp.start, sp.end)
  }

  /** No '{' at p begins a balanced object. */
  ghost predicate OpensNothing(b: Bytes, p: nat)
    requires p < |b|
  {
    b[p] == '{' ==> forall e: nat :: !Balanced(b, p, e)
  }

  /** Balanced objects, left to right and apart from each other, from position i on. */
  ghost predicate Apart(b: Bytes, i: nat, o: seq<Span>) {
    && (forall k {:trigger o[k]} :: 0 <= k < |o| ==> ObjectAt(b, o[k]) && i <= o[k].start)
    && (forall j, k :: 0 <= j < k < |o| ==> o[j].end <= o[k].start)
  }

  /** No '{' outside the spans begins a balanced object. */
  ghost predicate NoneOutside(b: Bytes, i: nat, o: seq<Span>) {
    forall p :: i <= p < |b| && !Inside(o, p) ==> OpensNothing(b, p)
  }

  /** What the scan finds; the two conditions together fix the spans. */
  lemma {:induction false} ObjectsExact(b: Bytes, i: nat)
    requires i <= |b|
    ensures Apart(b, i, Objects(b, i)) && NoneOutside(b, i, Objects(b, i))
    decreases |b| - i
  {
    hide CloseFrom, Balanced, Run;
    if i < |b| {
      if b[i] == '{' && CloseFrom(b, i, START).Some? {
        CloseBounds(b, i, START);
        var j := CloseFrom(b, i, START).value;
        ClosesWhereBalanced(b, i, j + 1);
        ObjectsExact(b, j + 1);
        ConsSpan(b, i, Span(i, j + 1), Objects(b, j + 1));
      } else {
        ObjectsExact(b, i + 1);
        if b[i] == '{' {
          forall e: nat ensures !Balanced(b, i, e) { ClosesWhereBalanced(b, i, e); }
        }
        ApartEarlier(b, i, Objects(b, i + 1));
      }
    }
  }

  lemma ApartEarlier(b: Bytes, i: nat, o: seq<Span>)
    requires i < |b| && Apart(b, i + 1, o) && NoneOutside(b, i + 1, o) && OpensNothing(b, i)
    ensures Apart(b, i, o) && NoneOutside(b, i, o)
  {
  }

  /** One more object in front. */
  lemma ConsSpan(b: Bytes, i: nat, sp: Span, rest: seq<Span>)
    requires sp.start == i && ObjectAt(b, sp)
    requires Apart(b, sp.end, rest) && NoneOutside(b, sp.end, rest)
    ensures Apart(b, i, [sp] + rest) && NoneOutside(b, i, [sp] + rest)
  {
    var o := [sp] + rest;
    forall k | 0 <= k < |o| ensures ObjectAt(b, o[k]) && i <= o[k].start {
      if k > 0 { assert o[k] == rest[k - 1]; }
    }
    forall j, k | 0 <= j < k < |o| ensures o[j].end <= o[k].start {
      assert o[k] == rest[k - 1];
      if j > 0 { assert o[j] == rest[j - 1]; }
    }
    forall p | i <= p < |b| && !Inside(o, p) ensures OpensNothing(b, p) {
      assert !(o[0].start <= p < o[0].end);
      forall k | 0 <= k < |rest| ensures !(rest[k].start <= p < rest[k].end) {
        assert o[k + 1] == rest[k];
      }
    }
  }

  /** Any spans with these two properties are the spans the scan finds. */
  lemma {:induction false} ObjectsUnique(b: Bytes, i: nat, o: seq<Span>, q: seq<Span>)
    requires Apart(b, i, o) && NoneOutside(b, i, o) && Apart(b, i, q) && NoneOutside(b, i, q)
    ensures o == q
    decreases |o|
  {
    if o != [] { FirstIsFirst(b, i, q, o[0]); }
    if q != [] { FirstIsFirst(b, i, o, q[0]); }
    if o != [] {
      ClosesWhereBalanced(b, o[0].start, o[0].end);
      ClosesWhereBalanced(b, q[0].start, q[0].end);
      assert o[0] == q[0];
      TailExact(b, i, o);
      TailExact(b, i, q);
      ObjectsUnique(b, o[0].end, o[1..], q[1..]);
      assert o == [o[0]] + o[1..] && q == [q[0]] + q[1..];
    }
  }

  /** No balanced object begins before the first span. */
  lemma FirstIsFirst(b: Bytes, i: nat, q: seq<Span>, sp: Span)
    requires NoneOutside(b, i, q) && Apart(b, i, q) && ObjectAt(b, sp) && i <= sp.start
    ensures q != [] && q[0].start <= sp.start
  {
    assert !OpensNothing(b, sp.start);
    assert Inside(q, sp.start);
    var k :| 0 <= k < |q| && q[k].start <= sp.start < q[k].end;
    assert ObjectAt(b, q[0]) && ObjectAt(b, q[k]);
    assert k > 0 ==> q[0].end <= q[k].start;
  }

  lemma TailExact(b: Bytes, i: nat, o: seq<Span>)
    requires o != [] && Apart(b, i, o) && NoneOutside(b, i, o)
    ensures Apart(b, o[0].end, o[1..]) && NoneOutside(b, o[0].end, o[1..])
  {
    var rest := o[1..];
    assert ObjectAt(b, o[0]);
    forall k | 0 <= k < |rest| ensures ObjectAt(b, rest[k]) && o[0].end <= rest[k].start {
      assert rest[k] == o[k + 1];
    }
    forall j, k | 0 <= j < k < |rest| ensures rest[j].end <= rest[k].start {
      assert rest[j] == o[j + 1] && rest[k] == o[k + 1];
    }
    forall p | o[0].end <= p < |b| && !Inside(rest, p) ensures OpensNothing(b, p) {
      forall k | 0 <= k < |o| ensures !(o[k].start <= p < o[k].end) {
        if k > 0 { assert rest[k - 1] == o[k]; }
      }
      assert !Inside(o, p);
      assert i <= o[0].start < o[0].end;
    }
  }

  /** A balanced object that is all of `r`, with no balanced object beginning after it. */
  ghost predicate LastObject(b: Bytes, sp: Span, r: Bytes) {
    ObjectAt(b, sp) && r == b[sp.start..sp.end] && forall p :: sp.end <= p < |b| ==> OpensNothing(b, p)
  }

  /**
   The result: nothing exactly when no '{' begins a balanced object; otherwise a balanced object
   after which none begins.
  */
  lemma ExtractedMeans(b: Bytes)
    ensures Extracted(b).None? <==> forall p :: 0 <= p < |b| ==> OpensNothing(b, p)
    ensures Extracted(b).Some? ==> exists sp :: LastObject(b, sp, Extracted(b).value)
  {
    var o := Objects(b, 0);
    ObjectsExact(b, 0);
    if o == [] {
      forall p | 0 <= p < |b| ensures OpensNothing(b, p) { assert !Inside(o, p); }
    } else {
      var n := |o| - 1;
      assert ObjectAt(b, o[n]);
      assert !OpensNothing(b, o[n].start);
      forall p | o[n].end <= p < |b| ensures OpensNothing(b, p) {
        forall k | 0 <= k < |o| ensures o[k].end <= o[n].end {
          assert k < n ==> o[k].end <= o[n].start;
        }
        assert !Inside(o, p);
      }
      assert LastObject(b, o[n], Extracted(b).value);
    }
  }
}

/** Repointing upstream URLs at the proxy inside a decoded registry document. */
module Rewriting {
  import opened Verdicts
  import opened Text

  /** A decoded JSON value; `Scalar` is a number, a boolean or null. */
  datatype Doc =
    | Str(text: string)
    | Scalar(raw: string)
    | Array(items: seq<Doc>)
    | Object(fields: seq<Field>)   // in the order a walk of the map meets them

  datatype Field = Field(key: string, value: Doc)

  function Repointed(s: string, upstream: string, proxy: string): string {
    if HasPrefix(s, upstream) then proxy + s[|upstream|..] else s
  }

  /** The value an object field ends up with. */
  function HeldRewritten(v: Doc, upstream: string, proxy: string): Doc
    decreases v, 1
  {
    if v.Str? && HasPrefix(v.text, upstream) then Str(Repointed(v.text, upstream, proxy))
    else Rewritten(v, upstream, proxy)
  }

  function Rewritten(v: Doc, upstream: string, proxy: string): Doc
    decreases v, 0
  {
    match v
    case Object(fields) =>
      Object(seq(|fields|, i requires 0 <= i < |fields| =>
        Field(fields[i].key, HeldRewritten(fields[i].value, upstream, proxy))))
    case Array(items) => Array(seq(|items|, i requires 0 <= i < |items| => Rewritten(items[i], upstream, proxy)))
    case _ => v
  }

  method RewriteURLStrings(v: Doc, upstream: string, proxy: string) returns (w: Doc)
    ensures w == Rewritten(v, upstream, proxy)
  {
    match v
    case Object(fields) =>
      var done: seq<Field> := [];
      for i := 0 to |fields|
        invariant |done| == i
        invariant forall k :: 0 <= k < i ==> done[k] == Field(fields[k].key, HeldRewritten(fields[k].value, upstream, proxy))
      {
        var val := fields[i].value;
        if val.Str? && HasPrefix(val.text, upstream) {
          done := done + [Field(fields[i].key, Str(proxy + TrimPrefix(val.text, upstream)))];
          continue;
        }
        var inner := RewriteURLStrings(val, upstream, proxy);
        done := done + [Field(fields[i].key, inner)];
      }
      w := Object(done);
    case Array(items) =>
      var done: seq<Doc> := [];
      for i := 0 to |items|
        invariant |done| == i && forall k :: 0 <= k < i ==> done[k] == Rewritten(items[k], upstream, proxy)
      {
        var inner := RewriteURLStrings(items[i], upstream, proxy);
        done := done + [inner];
      }
      w := Array(done);
    case _ => w := v;
  }

  // ---- exactly what changes ----

  datatype Step = InField(i: nat) | InItem(i: nat)

  /** The value a path of positions leads to. */
  function At(v: Doc, path: seq<Step>): Option<Doc>
    decreases |path|
  {
    if path == [] then Some(v)
    else
      match path[0]
      case InField(i) => if v.Object? && i < |v.fields| then At(v.fields[i].value, path[1..]) else None
      case InItem(i) => if v.Array? && i < |v.items| then At(v.items[i], path[1..]) else None
  }

  /** Held by an object, not by an array and not the document itself. */
  predicate HeldByObject(path: seq<Step>) { path != [] && path[|path| - 1].InField? }

  /** The top of a value without its parts: its sort, its keys, its length, its text. */
  datatype Top = TopStr(text: string) | TopScalar(raw: string) | TopArray(length: nat) | TopObject(keys: seq<string>)

  function TopOf(v: Doc): Top {
    match v
    case Str(text) => TopStr(text)
    case Scalar(raw) => TopScalar(raw)
    case Array(items) => TopArray(|items|)
    case Object(fields) => TopObject(seq(|fields|, i requires 0 <= i < |fields| => fields[i].key))
  }

  lemma {:induction false} AtRewritten(v: Doc, path: seq<Step>, upstream: string, proxy: string)
    ensures At(Rewritten(v, upstream, proxy), path) ==
              if At(v, path).None? then None
              else if HeldByObject(path) then Some(HeldRewritten(At(v, path).value, upstream, proxy))
              else Some(Rewritten(At(v, path).value, upstream, proxy))
    decreases |path|
  {
    if path != [] {
      var rest := path[1..];
      match path[0]
      case InField(i) =>
        if v.Object? && i < |v.fields| {
          var x := v.fields[i].value;
          AtRewritten(x, rest, upstream, proxy);
          if x.Str? && rest != [] { assert At(x, rest) == None; }
        }
      case InItem(i) =>
        if v.Array? && i < |v.items| { AtRewritten(v.items[i], rest, upstream, proxy); }
    }
  }

  /**
   Position by position: the document keeps its shape, its keys and every leaf, except that a string
   held by an object and starting with the upstream prefix gets the proxy prefix instead. Strings
   held by arrays, and a document that is a bare string, stay as they are.
  */
  lemma RewritesExactly(v: Doc, path: seq<Step>, upstream: string, proxy: string)
    ensures var before, after := At(v, path), At(Rewritten(v, upstream, proxy), path);
            && (before.Some? <==> after.Some?)
            && (before.Some? ==>
                  TopOf(after.value) == (if HeldByObject(path) && before.value.Str?
                                         then TopStr(Repointed(before.value.text, upstream, proxy))
                                         else TopOf(before.value)))
  {
    AtRewritten(v, path, upstream, proxy);
    if At(v, path).Some? { RewrittenTop(At(v, path).value, upstream, proxy); }
  }

  lemma RewrittenTop(v: Doc, upstream: string, proxy: string)
    ensures TopOf(Rewritten(v, upstream, proxy)) == TopOf(v)
  {
  }

  // ---- once is enough ----

  predicate Comparable(a: string, b: string) { HasPrefix(a, b) || HasPrefix(b, a) }

  lemma Longer(a: string, b: string)
    requires |a| != |b|
    ensures a != b
  {
  }

  /** A second pass over an already repointed string. */
  lemma RepointedTwice(s: string, upstream: string, proxy: string)
    requires upstream == proxy || !Comparable(upstream, proxy)
    ensures Repointed(Repointed(s, upstream, proxy), upstream, proxy) == Repointed(s, upstream, proxy)
  {
    if HasPrefix(s, upstream) {
      var t := proxy + s[|upstream|..];
      if upstream == proxy {
        assert t == s;
      } else if HasPrefix(t, upstream) {
        PrefixesOfOne(t, upstream, proxy);
      }
    }
  }

  lemma PrefixesOfOne(t: string, a: string, b: string)
    requires HasPrefix(t, a) && HasPrefix(t, b)
    ensures Comparable(a, b)
  {
    if |a| <= |b| { assert b[..|a|] == t[..|b|][..|a|] == t[..|a|]; } else { assert a[..|b|] == t[..|a|][..|b|] == t[..|b|]; }
  }

  lemma {:induction false} RewrittenTwice(v: Doc, upstream: string, proxy: string)
    requires upstream == proxy || !Comparable(upstream, proxy)
    ensures Rewritten(Rewritten(v, upstream, proxy), upstream, proxy) == Rewritten(v, upstream, proxy)
    decreases v, 0
  {
    var w := Rewritten(v, upstream, proxy);
    match v
    case Object(fields) =>
      forall i | 0 <= i < |fields| ensures Rewritten(w, upstream, proxy).fields[i] == w.fields[i] {
        HeldTwice(fields[i].value, upstream, proxy);
      }
    case Array(items) =>
      forall i | 0 <= i < |items| ensures Rewritten(w, upstream, proxy).items[i] == w.items[i] {
        RewrittenTwice(items[i], upstream, proxy);
      }
    case _ =>
  }

  lemma {:induction false} HeldTwice(v: Doc, upstream: string, proxy: string)
    requires upstream == proxy || !Comparable(upstream, proxy)
    ensures HeldRewritten(HeldRewritten(v, upstream, proxy), upstream, proxy) == HeldRewritten(v, upstream, proxy)
    decreases v, 1
  {
    if v.Str? { RepointedTwice(v.text, upstream, proxy); } else { RewrittenTwice(v, upstream, proxy); }
  }

  function Holding(s: string): Doc { Object([Field("tarball", Str(s))]) }

  lemma RewrittenHolding(s: string, upstream: string, proxy: string)
    ensures Rewritten(Holding(s), upstream, proxy) == Holding(Repointed(s, upstream, proxy))
  {
    assert Rewritten(Str(s), upstream, proxy) == Str(s);
    assert HeldRewritten(Str(s), upstream, proxy) == Str(Repointed(s, upstream, proxy));
    assert Rewritten(Holding(s), upstream, proxy).fields == Holding(Repointed(s, upstream, proxy)).fields;
  }

  ghost predicate Idempotent(upstream: string, proxy: string) {
    forall v :: Rewritten(Rewritten(v, upstream, proxy), upstream, proxy) == Rewritten(v, upstream, proxy)
  }

  /** One prefix continues the other: a second pass changes this document again. */
  lemma SecondPassChanges(upstream: string, proxy: string)
    requires upstream != proxy && Comparable(upstream, proxy)
    ensures !Idempotent(upstream, proxy)
  {
    var s := if HasPrefix(proxy, upstream) then upstream else upstream + upstream[|proxy|..];
    var once := Repointed(s, upstream, proxy);
    RewrittenHolding(s, upstream, proxy);
    RewrittenHolding(once, upstream, proxy);
    if HasPrefix(proxy, upstream) {
      assert once == proxy + "" == proxy;
      Longer(Repointed(once, upstream, proxy), once);
    } else {
      assert upstream == proxy + upstream[|proxy|..];
      assert s[|upstream|..] == upstream[|proxy|..];
      assert once == upstream;
      assert Repointed(once, upstream, proxy) == proxy + "";
      Longer(Repointed(once, upstream, proxy), once);
    }
    assert Holding(Repointed(once, upstream, proxy)) != Holding(once);
  }

  /** Rewriting a document twice is rewriting it once, for every document, exactly for unrelated (or equal) prefixes. */
  lemma IdempotentIff(upstream: string, proxy: string)
    ensures Idempotent(upstream, proxy) <==> upstream == proxy || !Comparable(upstream, proxy)
  {
    if upstream == proxy || !Comparable(upstream, proxy) {
      forall v ensures Rewritten(Rewritten(v, upstream, proxy), upstream, proxy) == Rewritten(v, upstream, proxy) {
        RewrittenTwice(v, upstream, proxy);
      }
    } else {
      SecondPassChanges(upstream, proxy);
    }
  }
}

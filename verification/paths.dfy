/** Archive member names to logical paths. */
module Paths {
  import opened Text

  /** One component against the stack of a rooted path: path.Clean's rules. */
  function Push(stack: seq<string>, part: string): seq<string> {
    if part == "" || part == "." then stack
    else if part == ".." then (if stack == [] then [] else stack[..|stack| - 1])
    else stack + [part]
  }

  function Resolve(stack: seq<string>, parts: seq<string>): seq<string>
    decreases |parts|
  {
    if parts == [] then stack else Resolve(Push(stack, parts[0]), parts[1..])
  }

  /** path.Clean("/" + name)[1:]. */
  function CleanRooted(name: string): string { Join(Resolve([], Split(name, '/')), '/') }

  function DropFirstSegment(name: string): string {
    var parts := Split(name, '/');
    if |parts| == 1 then name else Join(parts[1..], '/')
  }

  function LogicalPath(name: string, stripPrefix: string): string {
    var clean := CleanRooted(TrimPrefix(name, "./"));
    if stripPrefix != "" then TrimPrefix(clean, stripPrefix) else DropFirstSegment(clean)
  }

  predicate Plain(part: string) { part != "" && part != "." && part != ".." && '/' !in part }

  predicate AllPlain(parts: seq<string>) { forall i :: 0 <= i < |parts| ==> Plain(parts[i]) }

  /** Relative, and nothing in it climbs. The empty path is the archive's root. */
  predicate Contained(path: string) { path == "" || AllPlain(Split(path, '/')) }

  lemma {:induction false} ResolveIsPlain(stack: seq<string>, parts: seq<string>)
    requires AllPlain(stack) && forall i :: 0 <= i < |parts| ==> '/' !in parts[i]
    ensures AllPlain(Resolve(stack, parts))
    decreases |parts|
  {
    if parts != [] { ResolveIsPlain(Push(stack, parts[0]), parts[1..]); }
  }

  /** Plain components have nothing to resolve. */
  lemma {:induction false} ResolvePlain(stack: seq<string>, parts: seq<string>)
    requires AllPlain(parts)
    ensures Resolve(stack, parts) == stack + parts
    decreases |parts|
  {
    if parts != [] {
      ResolvePlain(stack + [parts[0]], parts[1..]);
      assert stack + [parts[0]] + parts[1..] == stack + parts;
    }
  }

  lemma CleanIsContained(name: string)
    ensures Contained(CleanRooted(name))
  {
    var parts := Split(name, '/');
    SplitPieces(name, '/');
    ResolveIsPlain([], parts);
    var stack := Resolve([], parts);
    if stack != [] { SplitJoin(stack, '/'); }
  }

  lemma ContainedTail(path: string, i: nat)
    requires Contained(path) && path != "" && i <= |Split(path, '/')|
    ensures Contained(Join(Split(path, '/')[i..], '/'))
  {
    var rest := Split(path, '/')[i..];
    if rest != [] { SplitJoin(rest, '/'); }
  }

  /** What is below a directory of a contained path is contained. */
  lemma BelowContained(clean: string, dir: string, p: string)
    requires Contained(clean) && clean == dir + ['/'] + p
    ensures Contained(p)
  {
    SplitBoth(dir, p, '/');
    var n := |Split(dir, '/')|;
    assert Split(clean, '/')[n..] == Split(p, '/');
    ContainedTail(clean, n);
    JoinSplit(p, '/');
  }

  lemma LeadingSlash(p: string)
    requires p != "" && p[0] == '/'
    ensures !Contained(p)
  {
    assert Split(p, '/')[0] == "";
  }

  lemma ContainedIsRelative(p: string)
    requires Contained(p)
    ensures p == "" || p[0] != '/'
  {
    if !(p == "" || p[0] != '/') { LeadingSlash(p); }
  }

  lemma PrefixCut(s: string, p: string)
    requires HasPrefix(s, p) && p != "" && p[|p| - 1] == '/'
    ensures s == p[..|p| - 1] + ['/'] + TrimPrefix(s, p)
  {
    assert p == p[..|p| - 1] + ['/'];
    assert s == p + s[|p|..];
  }

  /**
   Whatever an archive calls its member, the logical path is relative and has no "..", for the
   prefixes in use: none, or a directory.
  */
  lemma LogicalPathContained(name: string, stripPrefix: string)
    requires stripPrefix == "" || stripPrefix[|stripPrefix| - 1] == '/'
    ensures Contained(LogicalPath(name, stripPrefix))
    ensures var p := LogicalPath(name, stripPrefix); p == "" || p[0] != '/'
  {
    var clean := CleanRooted(TrimPrefix(name, "./"));
    CleanIsContained(TrimPrefix(name, "./"));
    hide CleanRooted, Contained;
    var p := LogicalPath(name, stripPrefix);
    if clean != "" {
      if stripPrefix == "" {
        ContainedTail(clean, 1);
      } else if HasPrefix(clean, stripPrefix) {
        PrefixCut(clean, stripPrefix);
        BelowContained(clean, stripPrefix[..|stripPrefix| - 1], p);
      }
    }
    ContainedIsRelative(p);
  }

  /** A well-formed path inside the stripped directory comes out as it is. */
  lemma LogicalPathKeeps(dir: string, path: string)
    requires Plain(dir) && path != "" && Contained(path)
    ensures LogicalPath(dir + "/" + path, dir + "/") == path
    ensures LogicalPath(dir + "/" + path, "") == path
  {
    var name := dir + "/" + path;
    assert name == dir + ['/'] + path;
    SplitFirst(dir, path, '/');
    var parts := Split(name, '/');
    assert parts == [dir] + Split(path, '/');
    PlainIsNotDot(dir, name);
    ResolvePlain([], parts);
    assert [] + parts == parts;
    JoinSplit(name, '/');
    assert name[|dir| + 1..] == path;
    assert parts[1..] == Split(path, '/');
    JoinSplit(path, '/');
  }

  lemma PlainIsNotDot(dir: string, name: string)
    requires HasPrefix(name, dir + "/") && Plain(dir)
    ensures !HasPrefix(name, "./")
  {
    assert name[..|dir|] == dir;
    if |dir| > 1 {
      assert name[1] == dir[1] && dir[1] in dir;
    } else {
      assert dir == [dir[0]];
    }
  }

  // ---- what cleaning does ----

  lemma {:induction false} ResolveConcat(stack: seq<string>, a: seq<string>, b: seq<string>)
    ensures Resolve(stack, a + b) == Resolve(Resolve(stack, a), b)
    decreases |a|
  {
    if a == [] {
      assert a + b == b;
    } else {
      assert (a + b)[1..] == a[1..] + b;
      ResolveConcat(Push(stack, a[0]), a[1..], b);
    }
  }

  /** A middle component, between whatever stands before and after it. */
  lemma SplitMiddle(x: string, p: string, y: string)
    requires '/' !in p
    ensures Split(x + "/" + p + "/" + y, '/') == Split(x, '/') + [p] + Split(y, '/')
  {
    assert x + "/" + p + "/" + y == x + ['/'] + (p + ['/'] + y);
    SplitBoth(x, p + ['/'] + y, '/');
    SplitFirst(p, y, '/');
    assert Split(x, '/') + ([p] + Split(y, '/')) == Split(x, '/') + [p] + Split(y, '/');
  }

  lemma CleanPair(x: string, y: string)
    ensures CleanRooted(x + "/" + y) == Join(Resolve(Resolve([], Split(x, '/')), Split(y, '/')), '/')
  {
    assert x + ['/'] + y == x + "/" + y;
    SplitBoth(x, y, '/');
    ResolveConcat([], Split(x, '/'), Split(y, '/'));
  }

  lemma DownAndUp(stack: seq<string>, p: string)
    requires Plain(p)
    ensures Resolve(stack, [p, ".."]) == stack
  {
    assert [p, ".."][1..] == [".."] && [".."][1..] == [];
    assert (stack + [p])[..|stack|] == stack;
  }

  lemma Nothing(stack: seq<string>, part: string)
    requires part == "" || part == "."
    ensures Resolve(stack, [part]) == stack
  {
    assert [part][1..] == [];
  }

  /** Components that resolve to nothing may as well not be there. */
  lemma MiddleGone(whole: string, x: string, middle: seq<string>, y: string)
    requires Split(whole, '/') == Split(x, '/') + middle + Split(y, '/')
    requires forall stack :: Resolve(stack, middle) == stack
    ensures CleanRooted(whole) == CleanRooted(x + "/" + y)
  {
    MiddleResolved(Split(x, '/'), middle, Split(y, '/'));
    CleanPair(x, y);
  }

  lemma UpSplits(x: string, p: string, y: string)
    requires Plain(p)
    ensures Split(x + "/" + p + "/../" + y, '/') == Split(x, '/') + [p, ".."] + Split(y, '/')
  {
    var rest := ".." + ['/'] + y;
    SplitFirst("..", y, '/');
    SplitMiddle(x, p, rest);
    hide *;
    assert x + "/" + p + "/../" + y == x + "/" + p + "/" + rest;
    assert Split(x, '/') + [p] + ([".."] + Split(y, '/')) == Split(x, '/') + [p, ".."] + Split(y, '/');
  }

  /** Going down and up again leads nowhere. */
  lemma UpCancelsDown(x: string, p: string, y: string)
    requires Plain(p)
    ensures CleanRooted(x + "/" + p + "/../" + y) == CleanRooted(x + "/" + y)
  {
    hide Split, CleanRooted, Resolve;
    UpSplits(x, p, y);
    forall stack ensures Resolve(stack, [p, ".."]) == stack { DownAndUp(stack, p); }
    MiddleGone(x + "/" + p + "/../" + y, x, [p, ".."], y);
  }

  /** A dot says nothing, and neither does a doubled slash. */
  lemma DotVanishes(x: string, y: string, part: string)
    requires part == "." || part == ""
    ensures CleanRooted(x + "/" + part + "/" + y) == CleanRooted(x + "/" + y)
  {
    SplitMiddle(x, part, y);
    hide Split, CleanRooted, Resolve;
    forall stack ensures Resolve(stack, [part]) == stack { Nothing(stack, part); }
    MiddleGone(x + "/" + part + "/" + y, x, [part], y);
  }

  lemma MiddleResolved(a: seq<string>, middle: seq<string>, b: seq<string>)
    requires forall stack :: Resolve(stack, middle) == stack
    ensures Resolve([], a + middle + b) == Resolve(Resolve([], a), b)
  {
    ResolveConcat([], a + middle, b);
    ResolveConcat([], a, middle);
  }

  /** The root has no parent. */
  lemma RootHasNoParent(y: string)
    ensures CleanRooted("../" + y) == CleanRooted(y)
  {
    SplitFirst("..", y, '/');
    assert ".." + ['/'] + y == "../" + y;
    assert ([".."] + Split(y, '/'))[1..] == Split(y, '/');
  }
}

/** Printing a tree of validation errors. The printer hands one rune buffer and one list of visited
    errors down the recursion, both as slices whose backing arrays callers and callees share and
    overwrite. Errors are references, so the "tree" may share nodes and contain cycles. */
module ValidationError {
  import opened Declcfg
  import opened Listing

  type Ref = nat

  /** A sub-error is another validation error, or any other error, which prints as its text. */
  datatype SubError = Nested(ref: Ref) | Plain(text: string)

  datatype Node = Node(message: string, subErrors: seq<SubError>)

  type Graph = map<Ref, Node>

  ghost predicate Closed(g: Graph) {
    forall r, i :: r in g && 0 <= i < |g[r].subErrors| && g[r].subErrors[i].Nested? ==> g[r].subErrors[i].ref in g
  }

  // ----- Pure rendering, nothing shared -----

  /** One line of output: the chain of validation errors it is printed under, from the root, and
      whether it is the line of a plain sub-error of the last of them. */
  datatype Line = Line(path: seq<Ref>, plain: bool, text: string)

  function Text(lines: seq<Line>): string {
    if |lines| == 0 then "" else lines[0].text + Text(lines[1..])
  }

  function Separator(node: Node): string {
    if |node.subErrors| == 0 then "\n" else ":\n"
  }

  /** The prefix of a sub-error's line: the branch drawn in front of its parent becomes a
      continuation, and a new branch is added. */
  function SubPrefix(prefix: string, last: bool, subLast: bool): string {
    Continuation(prefix, last) + if subLast then "└── " else "├── "
  }

  function Continuation(prefix: string, last: bool): string {
    if |prefix| >= 4 then prefix[..|prefix| - 4] + if last then "    " else "│   "
    else prefix
  }

  ghost function Unseen(g: Graph, path: seq<Ref>): nat {
    |g.Keys - Elements(path)|
  }

  lemma UnseenShrinks(g: Graph, path: seq<Ref>, r: Ref)
    requires r in g && r !in path
    ensures Unseen(g, path + [r]) < Unseen(g, path)
  {
    assert g.Keys - Elements(path + [r]) == (g.Keys - Elements(path)) - {r};
  }

  ghost function Lines(g: Graph, r: Ref, prefix: string, last: bool, seen: seq<Ref>): seq<Line>
    requires Closed(g) && r in g
    decreases Unseen(g, seen), 1, 0
  {
    if r in seen then []
    else
      UnseenShrinks(g, seen, r);
      [Line(seen + [r], false, prefix + g[r].message + Separator(g[r]))] + SubLines(g, r, 0, prefix, last, seen + [r])
  }

  /** The lines of the sub-errors of `r` from the `i`-th on; `path` leads to `r`. */
  ghost function SubLines(g: Graph, r: Ref, i: nat, prefix: string, last: bool, path: seq<Ref>): seq<Line>
    requires Closed(g) && r in g && i <= |g[r].subErrors|
    decreases Unseen(g, path), 2, |g[r].subErrors| - i
  {
    var subs := g[r].subErrors;
    if i == |subs| then []
    else
      var subPrefix := SubPrefix(prefix, last, i == |subs| - 1);
      (match subs[i]
       case Nested(c) => Lines(g, c, subPrefix, i == |subs| - 1, path)
       case Plain(text) => [Line(path, true, subPrefix + text + "\n")])
      + SubLines(g, r, i + 1, prefix, last, path)
  }

  ghost function Render(g: Graph, r: Ref, prefix: string, last: bool, seen: seq<Ref>): string
    requires Closed(g) && r in g
  {
    Text(Lines(g, r, prefix, last, seen))
  }

  lemma {:induction false} TextConcat(a: seq<Line>, b: seq<Line>)
    ensures Text(a + b) == Text(a) + Text(b)
  {
    if |a| == 0 {
      assert a + b == b;
    } else {
      TextConcat(a[1..], b);
      assert (a + b)[1..] == a[1..] + b && (a + b)[0] == a[0];
      assert Text(a + b) == a[0].text + (Text(a[1..]) + Text(b));
    }
  }

  // ----- Slices over shared arrays -----

  /** The first `len` elements of a backing array; the rest is spare capacity. */
  datatype Slice<T> = Slice(buf: array<T>, len: nat)

  ghost function Contents<T>(s: Slice<T>): seq<T>
    requires s.len <= s.buf.Length
    reads s.buf
  {
    s.buf[..s.len]
  }

  /** Appends in place when the capacity suffices, overwriting whatever else shares the spare part,
      and otherwise moves to a fresh array of some larger size. */
  method Append<T(0)>(s: Slice<T>, extra: seq<T>) returns (t: Slice<T>)
    requires s.len <= s.buf.Length
    modifies s.buf
    ensures t.len <= t.buf.Length && (t.buf == s.buf || fresh(t.buf))
    ensures Contents(t) == old(Contents(s)) + extra
    ensures forall j :: 0 <= j < s.len ==> s.buf[j] == old(s.buf[j])
  {
    var need := s.len + |extra|;
    if need <= s.buf.Length {
      forall j | 0 <= j < |extra| {
        s.buf[s.len + j] := extra[j];
      }
      t := Slice(s.buf, need);
    } else {
      var capacity: nat :| need <= capacity;
      var buf := new T[capacity];
      forall j | 0 <= j < s.len {
        buf[j] := s.buf[j];
      }
      forall j | 0 <= j < |extra| {
        buf[s.len + j] := extra[j];
      }
      t := Slice(buf, need);
    }
    assert Contents(t) == old(Contents(s)) + extra;
  }

  /** How much of a prefix the calls made with it leave alone: all but the branch at its end. */
  function Kept(len: nat): nat {
    if len >= 4 then len - 4 else len
  }

  method MakeSubPrefix(prefix: Slice<char>, last: bool, subLast: bool, ghost original: string)
    returns (sub: Slice<char>)
    requires prefix.len <= prefix.buf.Length && |original| == prefix.len
    requires forall j :: 0 <= j < Kept(prefix.len) ==> prefix.buf[j] == original[j]
    modifies prefix.buf
    ensures sub.len <= sub.buf.Length && (sub.buf == prefix.buf || fresh(sub.buf))
    ensures Contents(sub) == SubPrefix(original, last, subLast)
    ensures Kept(sub.len) >= Kept(prefix.len)
    ensures forall j :: 0 <= j < Kept(prefix.len) ==> prefix.buf[j] == original[j]
  {
    sub := prefix;
    if prefix.len >= 4 {
      sub := Slice(prefix.buf, prefix.len - 4);
      assert Contents(sub) == original[..prefix.len - 4];
      sub := Append(sub, if last then "    " else "│   ");
    }
    assert Contents(sub) == Continuation(original, last);
    sub := Append(sub, if subLast then "└── " else "├── ");
    assert forall j :: 0 <= j < Kept(prefix.len) ==> prefix.buf[j] == original[j];
  }

  lemma RenderHead(g: Graph, r: Ref, prefix: string, last: bool, seen: seq<Ref>)
    requires Closed(g) && r in g && r !in seen
    ensures Render(g, r, prefix, last, seen)
         == prefix + g[r].message + Separator(g[r]) + Text(SubLines(g, r, 0, prefix, last, seen + [r]))
  {
    var rest := SubLines(g, r, 0, prefix, last, seen + [r]);
    assert Lines(g, r, prefix, last, seen)[1..] == rest;
  }

  /** What the `i`-th sub-error of `r` prints. */
  ghost function SubText(g: Graph, r: Ref, i: nat, prefix: string, last: bool, path: seq<Ref>): string
    requires Closed(g) && r in g && i < |g[r].subErrors|
  {
    var subLast := i == |g[r].subErrors| - 1;
    match g[r].subErrors[i]
    case Nested(c) => Render(g, c, SubPrefix(prefix, last, subLast), subLast, path)
    case Plain(text) => SubPrefix(prefix, last, subLast) + text + "\n"
  }

  lemma SubLinesNext(g: Graph, r: Ref, i: nat, prefix: string, last: bool, path: seq<Ref>)
    requires Closed(g) && r in g && i < |g[r].subErrors|
    ensures Text(SubLines(g, r, i, prefix, last, path))
         == SubText(g, r, i, prefix, last, path) + Text(SubLines(g, r, i + 1, prefix, last, path))
  {
    var rest, subLast := SubLines(g, r, i + 1, prefix, last, path), i == |g[r].subErrors| - 1;
    match g[r].subErrors[i]
    case Nested(c) => TextConcat(Lines(g, c, SubPrefix(prefix, last, subLast), subLast, path), rest);
    case Plain(text) =>
      var line := Line(path, true, SubPrefix(prefix, last, subLast) + text + "\n");
      assert ([line] + rest)[1..] == rest;
  }

  method IsSeen(r: Ref, seen: Slice<Ref>) returns (found: bool)
    requires seen.len <= seen.buf.Length
    ensures found <==> r in Contents(seen)
  {
    for j := 0 to seen.len
      invariant r !in seen.buf[..j]
    {
      if seen.buf[j] == r {
        return true;
      }
    }
    return false;
  }

  /** Prints the error `r`. Whatever the sharing does to the buffers, the output is the pure rendering of
      what they held on entry, and the parts the caller still needs are left as they were. */
  method ErrorPrefix(g: Graph, r: Ref, prefix: Slice<char>, last: bool, seen: Slice<Ref>) returns (out: string)
    requires Closed(g) && r in g
    requires prefix.len <= prefix.buf.Length && seen.len <= seen.buf.Length
    modifies prefix.buf, seen.buf
    ensures out == Render(g, r, old(Contents(prefix)), last, old(Contents(seen)))
    ensures forall j :: 0 <= j < Kept(prefix.len) ==> prefix.buf[j] == old(prefix.buf[j])
    ensures forall j :: 0 <= j < seen.len ==> seen.buf[j] == old(seen.buf[j])
    decreases Unseen(g, Contents(seen)), 1
  {
    var found := IsSeen(r, seen);
    if found {
      return "";
    }
    ghost var original, path := Contents(prefix), Contents(seen) + [r];
    RenderHead(g, r, original, last, Contents(seen));
    UnseenShrinks(g, Contents(seen), r);
    var sep := if |g[r].subErrors| == 0 then "\n" else ":\n";
    out := prefix.buf[..prefix.len] + g[r].message + sep;
    var seen' := Append(seen, [r]);
    var rest := SubErrors(g, r, prefix, last, seen');
    out := out + rest;
  }

  lemma Reassociate(a: string, b: string, c: string)
    ensures a + (b + c) == (a + b) + c
  {
  }

  /** The loop over the sub-errors. */
  method SubErrors(g: Graph, r: Ref, prefix: Slice<char>, last: bool, seen: Slice<Ref>) returns (out: string)
    requires Closed(g) && r in g
    requires prefix.len <= prefix.buf.Length && seen.len <= seen.buf.Length
    modifies prefix.buf, seen.buf
    ensures out == Text(SubLines(g, r, 0, old(Contents(prefix)), last, old(Contents(seen))))
    ensures forall j :: 0 <= j < Kept(prefix.len) ==> prefix.buf[j] == old(prefix.buf[j])
    ensures forall j :: 0 <= j < seen.len ==> seen.buf[j] == old(seen.buf[j])
    decreases Unseen(g, Contents(seen)), 3
  {
    ghost var original, path := Contents(prefix), Contents(seen);
    out := "";
    for i := 0 to |g[r].subErrors|
      invariant forall j :: 0 <= j < Kept(prefix.len) ==> prefix.buf[j] == original[j]
      invariant Contents(seen) == path
      invariant out + Text(SubLines(g, r, i, original, last, path)) == Text(SubLines(g, r, 0, original, last, path))
    {
      SubLinesNext(g, r, i, original, last, path);
      var piece := SubErrorAt(g, r, i, prefix, last, seen, original);
      ghost var rest := Text(SubLines(g, r, i + 1, original, last, path));
      Reassociate(out, piece, rest);
      out := out + piece;
    }
  }

  /** The body of that loop. By now the branch at the end of the prefix may be overwritten: `original` is
      what the prefix held when the loop began. */
  method SubErrorAt(g: Graph, r: Ref, i: nat, prefix: Slice<char>, last: bool, seen: Slice<Ref>, ghost original: string)
    returns (piece: string)
    requires Closed(g) && r in g && i < |g[r].subErrors|
    requires prefix.len <= prefix.buf.Length && seen.len <= seen.buf.Length && |original| == prefix.len
    requires forall j :: 0 <= j < Kept(prefix.len) ==> prefix.buf[j] == original[j]
    modifies prefix.buf, seen.buf
    ensures piece == SubText(g, r, i, original, last, old(Contents(seen)))
    ensures forall j :: 0 <= j < Kept(prefix.len) ==> prefix.buf[j] == original[j]
    ensures Contents(seen) == old(Contents(seen))
    decreases Unseen(g, Contents(seen)), 2
  {
    var sub := g[r].subErrors[i];
    var subLast := i == |g[r].subErrors| - 1;
    var subPrefix := MakeSubPrefix(prefix, last, subLast, original);
    if sub.Nested? {
      piece := ErrorPrefix(g, sub.ref, subPrefix, subLast, seen);
    } else {
      piece := subPrefix.buf[..subPrefix.len] + sub.text + "\n";
    }
  }

  // ----- What is printed -----

  ghost predicate Edge(g: Graph, a: Ref, b: Ref) {
    a in g && Nested(b) in g[a].subErrors
  }

  /** A walk along sub-errors from `r` that meets no error twice. */
  ghost predicate SimplePath(g: Graph, r: Ref, path: seq<Ref>) {
    && |path| > 0 && path[0] == r
    && (forall k :: 0 <= k < |path| - 1 ==> Edge(g, path[k], path[k + 1]))
    && (forall j, k :: 0 <= j < k < |path| ==> path[j] != path[k])
  }

  ghost predicate Prints(lines: seq<Line>, path: seq<Ref>) {
    exists k :: 0 <= k < |lines| && lines[k].path == path && !lines[k].plain
  }

  lemma PrintsConcat(a: seq<Line>, b: seq<Line>, path: seq<Ref>)
    ensures Prints(a + b, path) <==> Prints(a, path) || Prints(b, path)
  {
    if Prints(a, path) {
      var k :| 0 <= k < |a| && a[k].path == path && !a[k].plain;
      assert (a + b)[k] == a[k];
    }
    if Prints(b, path) {
      var k :| 0 <= k < |b| && b[k].path == path && !b[k].plain;
      assert (a + b)[|a| + k] == b[k];
    }
  }

  ghost predicate Disjoint(a: seq<Ref>, b: seq<Ref>) {
    forall j, k :: 0 <= j < |a| && 0 <= k < |b| ==> a[j] != b[k]
  }

  /** `path` continues `seen` with a simple walk from `r` that avoids it. */
  ghost predicate Continues(g: Graph, r: Ref, seen: seq<Ref>, path: seq<Ref>) {
    |path| > |seen| && path[..|seen|] == seen && SimplePath(g, r, path[|seen|..]) && Disjoint(seen, path[|seen|..])
  }

  lemma ContinuesStep(g: Graph, r: Ref, seen: seq<Ref>, path: seq<Ref>, i: nat)
    requires Closed(g) && r in g && i < |g[r].subErrors| && g[r].subErrors[i].Nested? && r !in seen
    requires Continues(g, g[r].subErrors[i].ref, seen + [r], path)
    ensures Continues(g, r, seen, path)
  {
    var c := g[r].subErrors[i].ref;
    var n := |seen|;
    var q, q' := path[n..], path[n + 1..];
    assert path[..n + 1] == seen + [r];
    assert path[..n] == path[..n + 1][..n] == seen;
    assert q[0] == path[..n + 1][n] == r;
    assert forall k :: 1 <= k < |q| ==> q[k] == q'[k - 1];
    assert Edge(g, r, c);
    forall j, k | 0 <= j < k < |q|
      ensures q[j] != q[k]
    {
      assert (seen + [r])[n] == r;
    }
    forall j, k | 0 <= j < |seen| && 0 <= k < |q|
      ensures seen[j] != q[k]
    {
      assert (seen + [r])[j] == seen[j];
    }
  }

  lemma SimpleTail(g: Graph, r: Ref, q: seq<Ref>)
    requires SimplePath(g, r, q) && |q| > 1
    ensures SimplePath(g, q[1], q[1..]) && Edge(g, r, q[1])
  {
    var tail := q[1..];
    assert Edge(g, q[0], q[1]);
    forall k | 0 <= k < |tail| - 1
      ensures Edge(g, tail[k], tail[k + 1])
    {
      assert Edge(g, q[k + 1], q[k + 1 + 1]);
    }
  }

  lemma ContinuesUnfold(g: Graph, r: Ref, seen: seq<Ref>, path: seq<Ref>)
    requires Closed(g) && r in g && Continues(g, r, seen, path) && path != seen + [r]
    ensures exists i :: 0 <= i < |g[r].subErrors| && g[r].subErrors[i].Nested?
                        && Continues(g, g[r].subErrors[i].ref, seen + [r], path)
  {
    var n := |seen|;
    var q := path[n..];
    assert path == seen + q;
    assert |q| > 1 by {
      assert |q| == 1 ==> q == [r];
    }
    SimpleTail(g, r, q);
    var i :| 0 <= i < |g[r].subErrors| && g[r].subErrors[i] == Nested(q[1]);
    assert path[..n + 1] == seen + [r] && path[n + 1..] == q[1..];
    assert Disjoint(seen + [r], q[1..]);
  }

  /** A line for a chain of errors is printed exactly when the chain is a simple walk. */
  lemma {:induction false} PrintedLines(g: Graph, r: Ref, prefix: string, last: bool, seen: seq<Ref>, path: seq<Ref>)
    requires Closed(g) && r in g
    ensures Prints(Lines(g, r, prefix, last, seen), path) <==> Continues(g, r, seen, path)
    decreases Unseen(g, seen), 1, 0
  {
    if r !in seen {
      UnseenShrinks(g, seen, r);
      var head := Line(seen + [r], false, prefix + g[r].message + Separator(g[r]));
      PrintedSubLines(g, r, 0, prefix, last, seen + [r], path);
      PrintsConcat([head], SubLines(g, r, 0, prefix, last, seen + [r]), path);
      assert Prints([head], path) <==> path == seen + [r] by {
        assert [head][0] == head;
      }
      ContinuesExactly(g, r, seen, path);
    }
  }

  /** A chain that goes on from `r` ends there or goes on from one of its sub-errors. */
  lemma ContinuesExactly(g: Graph, r: Ref, seen: seq<Ref>, path: seq<Ref>)
    requires Closed(g) && r in g && r !in seen
    ensures Continues(g, r, seen, path)
       <==> path == seen + [r] || exists i :: 0 <= i < |g[r].subErrors| && g[r].subErrors[i].Nested?
                                              && Continues(g, g[r].subErrors[i].ref, seen + [r], path)
  {
    if path == seen + [r] {
      assert path[|seen|..] == [r];
    } else if Continues(g, r, seen, path) {
      ContinuesUnfold(g, r, seen, path);
    } else if i :| 0 <= i < |g[r].subErrors| && g[r].subErrors[i].Nested?
                   && Continues(g, g[r].subErrors[i].ref, seen + [r], path) {
      ContinuesStep(g, r, seen, path, i);
    }
  }

  lemma {:induction false} PrintedSubLines(g: Graph, r: Ref, i: nat, prefix: string, last: bool, seen: seq<Ref>,
                                           path: seq<Ref>)
    requires Closed(g) && r in g && i <= |g[r].subErrors|
    ensures Prints(SubLines(g, r, i, prefix, last, seen), path)
       <==> exists j :: i <= j < |g[r].subErrors| && g[r].subErrors[j].Nested?
                        && Continues(g, g[r].subErrors[j].ref, seen, path)
    decreases Unseen(g, seen), 2, |g[r].subErrors| - i
  {
    var subs := g[r].subErrors;
    if i < |subs| {
      var subLast, rest := i == |subs| - 1, SubLines(g, r, i + 1, prefix, last, seen);
      PrintedSubLines(g, r, i + 1, prefix, last, seen, path);
      match subs[i]
      case Nested(c) =>
        var lines := Lines(g, c, SubPrefix(prefix, last, subLast), subLast, seen);
        PrintedLines(g, c, SubPrefix(prefix, last, subLast), subLast, seen, path);
        PrintsConcat(lines, rest, path);
      case Plain(text) =>
        var line := Line(seen, true, SubPrefix(prefix, last, subLast) + text + "\n");
        PrintsConcat([line], rest, path);
    }
  }

  /** Printing from the root shows exactly the simple walks of the error graph, each error at most once on
      each of them, even when the graph has cycles. */
  lemma PrintsSimplePaths(g: Graph, root: Ref, path: seq<Ref>)
    requires Closed(g) && root in g
    ensures Prints(Lines(g, root, "", true, []), path) <==> SimplePath(g, root, path)
  {
    PrintedLines(g, root, "", true, [], path);
    if |path| > 0 {
      assert path[0..] == path && path[..0] == [];
    }
  }

  ghost predicate Walk(g: Graph, path: seq<Ref>) {
    |path| > 0 && forall k :: 0 <= k < |path| - 1 ==> Edge(g, path[k], path[k + 1])
  }

  /** Cutting the loops out of a walk makes it simple. */
  lemma {:induction false} WalkToSimple(g: Graph, path: seq<Ref>) returns (simple: seq<Ref>)
    requires Walk(g, path)
    ensures SimplePath(g, path[0], simple) && simple[|simple| - 1] == path[|path| - 1]
    decreases |path|
  {
    if j, k :| 0 <= j < k < |path| && path[j] == path[k] {
      var shorter := path[..j] + path[k..];
      assert shorter[|shorter| - 1] == path[|path| - 1];
      assert shorter[0] == path[0];
      forall i | 0 <= i < |shorter| - 1
        ensures Edge(g, shorter[i], shorter[i + 1])
      {
        if i < j - 1 {
          assert Edge(g, path[i], path[i + 1]);
        } else if i == j - 1 {
          assert Edge(g, path[i], path[i + 1]);
        } else {
          assert Edge(g, path[i - j + k], path[i - j + k + 1]);
        }
      }
      simple := WalkToSimple(g, shorter);
    } else {
      simple := path;
    }
  }

  ghost predicate Shows(g: Graph, line: Line) {
    |line.path| > 0 && line.path[|line.path| - 1] in g
    && var node := g[line.path[|line.path| - 1]];
       !line.plain ==> exists before :: line.text == before + (node.message + Separator(node))
  }

  /** The line of an error carries its message. */
  lemma {:induction false} LinesShow(g: Graph, r: Ref, prefix: string, last: bool, seen: seq<Ref>)
    requires Closed(g) && r in g
    ensures forall k :: 0 <= k < |Lines(g, r, prefix, last, seen)| ==> Shows(g, Lines(g, r, prefix, last, seen)[k])
    decreases Unseen(g, seen), 1, 0
  {
    if r !in seen {
      UnseenShrinks(g, seen, r);
      SubLinesShow(g, r, 0, prefix, last, seen + [r]);
      var head := Line(seen + [r], false, prefix + g[r].message + Separator(g[r]));
      assert head.text == prefix + (g[r].message + Separator(g[r]));
    }
  }

  lemma {:induction false} SubLinesShow(g: Graph, r: Ref, i: nat, prefix: string, last: bool, path: seq<Ref>)
    requires Closed(g) && r in g && i <= |g[r].subErrors| && |path| > 0 && path[|path| - 1] == r
    ensures forall k :: 0 <= k < |SubLines(g, r, i, prefix, last, path)| ==>
              Shows(g, SubLines(g, r, i, prefix, last, path)[k])
    decreases Unseen(g, path), 2, |g[r].subErrors| - i
  {
    var subs := g[r].subErrors;
    if i < |subs| {
      SubLinesShow(g, r, i + 1, prefix, last, path);
      if subs[i].Nested? {
        LinesShow(g, subs[i].ref, SubPrefix(prefix, last, i == |subs| - 1), i == |subs| - 1, path);
      }
    }
  }

  ghost predicate Contains(text: string, piece: string) {
    exists before, after :: text == before + piece + after
  }

  lemma {:induction false} TextContains(lines: seq<Line>, k: nat, piece: string)
    requires k < |lines| && exists before :: lines[k].text == before + piece
    ensures Contains(Text(lines), piece)
  {
    var rest := Text(lines[1..]);
    if k == 0 {
      var before :| lines[0].text == before + piece;
      assert Text(lines) == before + piece + rest;
    } else {
      TextContains(lines[1..], k - 1, piece);
      var before, after :| rest == before + piece + after;
      assert Text(lines) == (lines[0].text + before) + piece + after;
    }
  }

  /** The guard against cycles hides nothing: the message of every error that can be reached is printed. */
  lemma ReachablePrinted(g: Graph, walk: seq<Ref>)
    requires Closed(g) && Walk(g, walk) && walk[0] in g
    ensures walk[|walk| - 1] in g
    ensures var node := g[walk[|walk| - 1]];
            Contains(Render(g, walk[0], "", true, []), node.message + Separator(node))
  {
    var path := WalkToSimple(g, walk);
    PrintsSimplePaths(g, walk[0], path);
    LinesShow(g, walk[0], "", true, []);
    var lines := Lines(g, walk[0], "", true, []);
    var k :| 0 <= k < |lines| && lines[k].path == path && !lines[k].plain;
    assert Shows(g, lines[k]);
    var node := g[walk[|walk| - 1]];
    TextContains(lines, k, node.message + Separator(node));
  }

  // ----- The error text -----

  /** White space as Unicode defines it. */
  predicate IsSpace(c: char) {
    || '\U{9}' <= c <= '\U{D}' || c == ' ' || c == '\U{85}' || c == '\U{A0}' || c == '\U{1680}'
    || '\U{2000}' <= c <= '\U{200A}' || c == '\U{2028}' || c == '\U{2029}' || c == '\U{202F}' || c == '\U{205F}'
        || c == '\U{3000}'
  }

  ghost predicate AllSpace(s: string) {
    forall i :: 0 <= i < |s| ==> IsSpace(s[i])
  }

  /** `out` is `s` without the white space around it. */
  ghost predicate IsTrimmed(s: string, out: string) {
    && (exists i, j :: 0 <= i <= j <= |s| && out == s[i..j] && AllSpace(s[..i]) && AllSpace(s[j..]))
    && (|out| > 0 ==> !IsSpace(out[0]) && !IsSpace(out[|out| - 1]))
  }

  method TrimSpace(s: string) returns (out: string)
    ensures IsTrimmed(s, out)
  {
    var i := 0;
    while i < |s| && IsSpace(s[i])
      invariant 0 <= i <= |s| && AllSpace(s[..i])
    {
      i := i + 1;
    }
    var j := |s|;
    while i < j && IsSpace(s[j - 1])
      invariant i <= j <= |s| && AllSpace(s[j..])
    {
      j := j - 1;
    }
    out := s[i..j];
  }

  /** The text of an error is its rendering, trimmed; a nil error has none. */
  method Error(g: Graph, v: Option<Ref>) returns (out: string)
    requires Closed(g) && (v.Some? ==> v.value in g)
    ensures v.None? ==> out == ""
    ensures v.Some? ==> IsTrimmed(Render(g, v.value, "", true, []), out)
  {
    if v.None? {
      return "";
    }
    var runes, errs := new char[0], new Ref[0];
    out := ErrorPrefix(g, v.value, Slice(runes, 0), true, Slice(errs, 0));
    out := TrimSpace(out);
  }
}

/** Node's POSIX `path.normalize`, `path.join` and `path.resolve` on absolute
    paths, on path segments: a path is split at '/', empty and "." segments are
    dropped, ".." removes the segment before it (and nothing at the root), and
    the result is written back with one '/' between segments. */
module NodePath {
  import opened Text

  // ---------------------------------------------------------------------------
  // Splitting at '/'

  const Slash := "/"

  predicate SlashFree(s: string)
  {
    forall i | 0 <= i < |s| :: s[i] != '/'
  }

  /** A piece without '/' splits into itself. */
  lemma {:induction false} SplitFromPlain(s: string, acc: string)
    requires SlashFree(s)
    ensures SplitFrom(s, Slash, acc) == [acc + s]
    decreases |s|
  {
    if s != [] {
      assert !StartsWith(s, Slash) by { assert s[0] != Slash[0]; }
      SplitFromPlain(s[1..], acc + [s[0]]);
      assert (acc + [s[0]]) + s[1..] == acc + s;
    } else {
      assert acc + s == acc;
    }
  }

  /** Splitting at a '/' splits both sides independently. */
  lemma {:induction false} SplitFromAppend(x: string, t: string, acc: string)
    ensures SplitFrom(x + Slash + t, Slash, acc) == SplitFrom(x, Slash, acc) + SplitFrom(t, Slash, "")
    decreases |x|
  {
    var u := x + Slash + t;
    if x == [] {
      assert u == Slash + t;
      assert StartsWith(u, Slash);
      assert u[1..] == t;
    } else if x[0] == '/' {
      assert StartsWith(x, Slash) && StartsWith(u, Slash);
      assert u[1..] == x[1..] + Slash + t;
      SplitFromAppend(x[1..], t, "");
      assert [acc] + SplitFrom(x[1..], Slash, "") + SplitFrom(t, Slash, "")
          == [acc] + (SplitFrom(x[1..], Slash, "") + SplitFrom(t, Slash, ""));
    } else {
      assert !StartsWith(x, Slash) && !StartsWith(u, Slash);
      assert u[1..] == x[1..] + Slash + t;
      SplitFromAppend(x[1..], t, acc + [x[0]]);
    }
  }

  lemma SplitAppend(x: string, t: string)
    ensures Split(x + Slash + t, Slash) == Split(x, Slash) + Split(t, Slash)
  {
    SplitFromAppend(x, t, "");
  }

  predicate AllSlashFree(segs: seq<string>)
  {
    forall i | 0 <= i < |segs| :: SlashFree(segs[i])
  }

  /** The pieces of a split contain no '/'. */
  lemma {:induction false} SplitFromSlashFree(s: string, acc: string)
    requires SlashFree(acc)
    ensures AllSlashFree(SplitFrom(s, Slash, acc))
    decreases |s|
  {
    if StartsWith(s, Slash) {
      SplitFromSlashFree(s[1..], "");
    } else if s != [] {
      assert s[0] != '/' by { assert !StartsWith(s, Slash); assert s[..1] == [s[0]]; }
      SplitFromSlashFree(s[1..], acc + [s[0]]);
    }
  }

  lemma {:induction false} JoinAppend(a: seq<string>, b: seq<string>)
    requires |a| > 0 && |b| > 0
    ensures Join(a + b, Slash) == Join(a, Slash) + Slash + Join(b, Slash)
    decreases |a|
  {
    if |a| == 1 {
      assert (a + b)[1..] == b;
    } else {
      JoinAppend(a[1..], b);
      assert (a + b)[1..] == a[1..] + b;
    }
  }

  /** Joining slash-free segments with '/' and splitting again gives them back. */
  lemma {:induction false} SplitJoinSegments(segs: seq<string>)
    requires |segs| > 0 && AllSlashFree(segs)
    ensures Split(Join(segs, Slash), Slash) == segs
    decreases |segs|
  {
    SplitFromPlain(segs[0], "");
    assert "" + segs[0] == segs[0];
    if |segs| > 1 {
      SplitJoinSegments(segs[1..]);
      SplitAppend(segs[0], Join(segs[1..], Slash));
      assert [segs[0]] + segs[1..] == segs;
    }
  }

  // ---------------------------------------------------------------------------
  // Resolving segments

  /** A segment that survives normalisation. */
  predicate Name(seg: string)
  {
    seg != "" && seg != "." && seg != ".." && SlashFree(seg)
  }

  /** A normalised segment list. */
  predicate Names(stack: seq<string>)
  {
    forall i | 0 <= i < |stack| :: Name(stack[i])
  }

  /** One segment of `normalizeString` on an absolute path. */
  function Step(stack: seq<string>, seg: string): seq<string>
  {
    if seg == "" || seg == "." then stack
    else if seg == ".." then (if stack == [] then [] else stack[..|stack| - 1])
    else stack + [seg]
  }

  function Resolve(stack: seq<string>, segs: seq<string>): seq<string>
    decreases |segs|
  {
    if segs == [] then stack else Resolve(Step(stack, segs[0]), segs[1..])
  }

  lemma {:induction false} ResolveAppend(stack: seq<string>, a: seq<string>, b: seq<string>)
    ensures Resolve(stack, a + b) == Resolve(Resolve(stack, a), b)
    decreases |a|
  {
    if a == [] {
      assert a + b == b;
    } else {
      assert (a + b)[0] == a[0] && (a + b)[1..] == a[1..] + b;
      ResolveAppend(Step(stack, a[0]), a[1..], b);
    }
  }

  /** Normalised segments are kept as they are. */
  lemma {:induction false} ResolveNames(stack: seq<string>, names: seq<string>)
    requires Names(names)
    ensures Resolve(stack, names) == stack + names
    decreases |names|
  {
    if names != [] {
      ResolveNames(stack + [names[0]], names[1..]);
      assert stack + [names[0]] + names[1..] == stack + names;
    }
  }

  /** Resolving slash-free segments gives a normalised list. */
  lemma {:induction false} ResolveGivesNames(stack: seq<string>, segs: seq<string>)
    requires Names(stack) && AllSlashFree(segs)
    ensures Names(Resolve(stack, segs))
    decreases |segs|
  {
    if segs != [] {
      ResolveGivesNames(Step(stack, segs[0]), segs[1..]);
    }
  }

  /** Without ".." segments nothing already resolved is removed. */
  lemma {:induction false} ResolveExtends(stack: seq<string>, segs: seq<string>)
    requires forall i | 0 <= i < |segs| :: segs[i] != ".."
    ensures |Resolve(stack, segs)| >= |stack| && Resolve(stack, segs)[..|stack|] == stack
    decreases |segs|
  {
    if segs != [] {
      var next := Step(stack, segs[0]);
      ResolveExtends(next, segs[1..]);
      assert next[..|stack|] == stack;
    }
  }

  // ---------------------------------------------------------------------------
  // Writing a segment list back

  /** An absolute path: the root "/" for no segments, otherwise '/' before each
      segment and, when asked, one trailing '/'. */
  function Render(stack: seq<string>, trailing: bool): (p: string)
  {
    if stack == [] then "/" else "/" + Join(stack, Slash) + (if trailing then "/" else "")
  }

  /** The pieces a rendered path splits into. */
  function RenderPieces(stack: seq<string>, trailing: bool): seq<string>
  {
    if stack == [] then ["", ""] else [""] + stack + (if trailing then [""] else [])
  }

  lemma RenderJoin(stack: seq<string>, trailing: bool)
    requires Names(stack)
    ensures Render(stack, trailing) == Join(RenderPieces(stack, trailing), Slash)
  {
    if stack != [] {
      JoinAppend([""], stack);
      assert Join([""] + stack, Slash) == "/" + Join(stack, Slash);
      if trailing {
        JoinAppend([""] + stack, [""]);
        assert Join([""] + stack + [""], Slash) == "/" + Join(stack, Slash) + "/";
      } else {
        assert [""] + stack + [] == [""] + stack;
      }
    }
  }

  lemma SplitRender(stack: seq<string>, trailing: bool)
    requires Names(stack)
    ensures Split(Render(stack, trailing), Slash) == RenderPieces(stack, trailing)
  {
    RenderJoin(stack, trailing);
    SplitJoinSegments(RenderPieces(stack, trailing));
  }

  // ---------------------------------------------------------------------------
  // The path functions

  predicate Absolute(p: string)
  {
    |p| > 0 && p[0] == '/'
  }

  /** The segments an absolute path normalises to. */
  function Segments(p: string): (stack: seq<string>)
    ensures Names(stack)
  {
    SplitFromSlashFree(p, "");
    ResolveGivesNames([], Split(p, Slash));
    Resolve([], Split(p, Slash))
  }

  /** `path.normalize` of an absolute path: a trailing '/' is kept. */
  function Normalize(p: string): (r: string)
    requires Absolute(p)
    ensures Absolute(r)
  {
    Render(Segments(p), EndsWith(p, Slash))
  }

  /** `path.join(base, rel)`: empty arguments are skipped, the rest are joined
      with '/' and normalised. */
  function JoinPath(base: string, rel: string): (r: string)
    requires Absolute(base)
    ensures Absolute(r)
  {
    if rel == "" then Normalize(base) else Normalize(base + Slash + rel)
  }

  /** `path.resolve(rel)` with the working directory `cwd`: normalised, without
      a trailing '/'. */
  function ResolvePath(cwd: string, rel: string): (r: string)
    requires Absolute(cwd)
    ensures Absolute(r)
  {
    Render(Segments(cwd + Slash + rel), false)
  }

  /** A rendered path normalises to its own segments. */
  lemma SegmentsRender(stack: seq<string>, trailing: bool)
    requires Names(stack)
    ensures Segments(Render(stack, trailing)) == stack
  {
    SplitRender(stack, trailing);
    var pieces := RenderPieces(stack, trailing);
    if stack == [] {
      assert Resolve([], pieces) == Resolve([], [""]);
    } else {
      ResolveAppend([], [""], stack + (if trailing then [""] else []));
      ResolveAppend([], [""] + stack, if trailing then [""] else []);
      assert pieces == [""] + stack + (if trailing then [""] else []);
      ResolveNames([], stack);
      assert Resolve([], [""]) == [];
    }
  }

  /** A rendered path ends with '/' exactly when it is the root or was asked
      for a trailing '/'. */
  lemma RenderEndsWith(stack: seq<string>, trailing: bool)
    requires Names(stack)
    ensures EndsWith(Render(stack, trailing), Slash) <==> stack == [] || trailing
  {
    var r := Render(stack, trailing);
    if stack == [] {
      assert r == "/";
    } else if trailing {
      assert r[|r| - 1] == '/';
    } else {
      var j := Join(stack, Slash);
      assert r == "/" + j;
      JoinLast(stack);
      assert r[|r| - 1] == j[|j| - 1];
    }
  }

  /** `normalize` is idempotent. */
  lemma NormalizeIdempotent(p: string)
    requires Absolute(p)
    ensures Normalize(Normalize(p)) == Normalize(p)
  {
    var stack := Segments(p);
    var trailing := EndsWith(p, Slash);
    SegmentsRender(stack, trailing);
    RenderEndsWith(stack, trailing);
  }

  /** A join of names ends with the last name's last character. */
  lemma {:induction false} JoinLast(stack: seq<string>)
    requires |stack| > 0 && Names(stack)
    ensures |Join(stack, Slash)| > 0
    ensures Join(stack, Slash)[|Join(stack, Slash)| - 1] == stack[|stack| - 1][|stack[|stack| - 1]| - 1]
    decreases |stack|
  {
    if |stack| > 1 {
      JoinLast(stack[1..]);
    }
  }

  /** A relative path joined onto an absolute one resolves its segments on top
      of the base's segments. */
  lemma JoinSegments(base: string, rel: string)
    requires Absolute(base)
    ensures Segments(base + Slash + rel) == Resolve(Segments(base), Split(rel, Slash))
  {
    SplitAppend(base, rel);
    ResolveAppend([], Split(base, Slash), Split(rel, Slash));
  }
}

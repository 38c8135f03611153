/** `JavaScriptUserspace`: the directory `userspace/code` that holds the user's
    code. Files are written only at paths that resolve inside it, and cached
    modules loaded from it can be dropped. */
module JavaScriptUserspace {
  import opened Wrappers
  import opened Text
  import opened NodePath
  import opened EditorFiles

  // ---------------------------------------------------------------------------
  // The containment guard of `addFile`

  /** `path.resolve('userspace/code')` in the working directory `cwd`. */
  function UserspaceRoot(cwd: string): (root: string)
    requires Absolute(cwd)
  {
    ResolvePath(cwd, "userspace/code")
  }

  /** The segments of the userspace root are those of `cwd` followed by
      "userspace" and "code", and the root is written without a trailing '/'. */
  lemma UserspaceRootSegments(cwd: string)
    requires Absolute(cwd)
    ensures UserspaceRoot(cwd) == Render(Segments(cwd) + ["userspace", "code"], false)
    ensures Names(Segments(cwd) + ["userspace", "code"])
  {
    var names := ["userspace", "code"];
    SplitUserspaceCode();
    PlainNames("userspace", "code");
    ResolvePathNames(cwd, "userspace/code", names);
  }

  lemma SplitUserspaceCode()
    ensures Split("userspace/code", Slash) == ["userspace", "code"]
  {
    assert Join(["userspace", "code"], Slash) == "userspace/code";
    SplitJoinSegments(["userspace", "code"]);
  }

  lemma PlainNames(a: string, b: string)
    requires a == "userspace" && b == "code"
    ensures Names([a, b])
  {
    assert Name(a) && Name(b);
  }

  /** Resolving a path of plain names appends them to the base's segments. */
  lemma ResolvePathNames(cwd: string, rel: string, names: seq<string>)
    requires Absolute(cwd) && Split(rel, Slash) == names && Names(names)
    ensures ResolvePath(cwd, rel) == Render(Segments(cwd) + names, false)
  {
    JoinSegments(cwd, rel);
    ResolveNames(Segments(cwd), names);
  }

  /** `path.normalize(path.join(root, filePath))`. */
  function Target(root: string, filePath: string): (p: string)
    requires Absolute(root)
    ensures Absolute(p)
  {
    Normalize(JoinPath(root, filePath))
  }

  /** A root given as its normalised segments. */
  predicate RootShape(rootSegments: seq<string>)
  {
    |rootSegments| > 0 && Names(rootSegments)
  }

  /** The target of a file path is the file path's segments resolved on top of
      the root's; it keeps a trailing '/' of the file path. */
  lemma TargetSegments(rootSegments: seq<string>, filePath: string)
    requires RootShape(rootSegments)
    ensures Target(Render(rootSegments, false), filePath)
            == Render(Resolve(rootSegments, Split(filePath, Slash)), filePath != "" && EndsWith(filePath, Slash))
  {
    var root := Render(rootSegments, false);
    assert Segments(root) == rootSegments && !EndsWith(root, Slash) by {
      SegmentsRender(rootSegments, false);
      RenderEndsWith(rootSegments, false);
    }
    assert Normalize(root) == root;
    if filePath == "" {
      assert Split(filePath, Slash) == [""];
      assert Resolve(rootSegments, [""]) == rootSegments;
      assert JoinPath(root, filePath) == root;
    } else {
      var joined := root + Slash + filePath;
      assert Segments(joined) == Resolve(rootSegments, Split(filePath, Slash)) by {
        JoinSegments(root, filePath);
      }
      assert EndsWith(joined, Slash) == EndsWith(filePath, Slash) by {
        assert joined[|joined| - 1] == filePath[|filePath| - 1];
      }
      assert JoinPath(root, filePath) == Normalize(joined);
      NormalizeIdempotent(joined);
    }
  }

  /** The guard as written: a plain string-prefix test against the root. */
  predicate AcceptedAsWritten(root: string, filePath: string)
    requires Absolute(root)
  {
    StartsWith(Target(root, filePath), root)
  }

  /** `p` is the directory `root` or lies below it. */
  predicate Within(p: string, root: string)
  {
    p == root || StartsWith(p, root + Slash)
  }

  /** The guard as intended: the target is the root or below it. */
  predicate Accepted(root: string, filePath: string)
    requires Absolute(root)
  {
    Within(Target(root, filePath), root)
  }

  predicate Extends(stack: seq<string>, prefix: seq<string>)
  {
    |stack| >= |prefix| && stack[..|prefix|] == prefix
  }

  /** A normalised path that starts with the root and a '/' has the root's
      segments as leading segments. */
  lemma BelowRootExtends(rootSegments: seq<string>, stack: seq<string>, trailing: bool, u: string)
    requires RootShape(rootSegments) && Names(stack)
    requires Render(stack, trailing) == Render(rootSegments, false) + Slash + u
    ensures Extends(stack, rootSegments)
  {
    var rendered := Render(stack, trailing);
    var pieces := Split(u, Slash);
    var tail := if trailing then [""] else [];
    assert Split(rendered, Slash) == [""] + rootSegments + pieces by {
      SplitRender(rootSegments, false);
      SplitAppend(Render(rootSegments, false), u);
    }
    assert stack != [] by {
      assert |Join(rootSegments, Slash)| > 0;
      assert |rendered| > 1;
    }
    assert Split(rendered, Slash) == [""] + stack + tail by {
      SplitRender(stack, trailing);
    }
    SamePrefixAfterHead(stack + tail, rootSegments, pieces);
  }

  lemma SamePrefixAfterHead(a: seq<string>, prefix: seq<string>, rest: seq<string>)
    requires [""] + a == [""] + prefix + rest
    ensures |a| >= |prefix| && a[..|prefix|] == prefix
  {
    assert ([""] + a)[1..] == a;
    assert ([""] + prefix + rest)[1..] == prefix + rest;
  }

  /** A normalised path whose segments extend the root's lies within it. */
  lemma ExtendsWithin(rootSegments: seq<string>, stack: seq<string>, trailing: bool)
    requires RootShape(rootSegments) && Names(stack) && Extends(stack, rootSegments)
    ensures Within(Render(stack, trailing), Render(rootSegments, false))
  {
    var root := Render(rootSegments, false);
    var p := Render(stack, trailing);
    var rest := stack[|rootSegments|..];
    assert stack == rootSegments + rest;
    if rest == [] {
      assert stack == rootSegments;
      if trailing {
        assert p == root + Slash;
      }
    } else {
      JoinAppend(rootSegments, rest);
      assert p == root + Slash + (Join(rest, Slash) + (if trailing then "/" else ""));
    }
  }

  /** On normalised paths, lying within the root is the same as having the
      root's segments as leading segments. */
  lemma WithinIffExtends(rootSegments: seq<string>, stack: seq<string>, trailing: bool)
    requires RootShape(rootSegments) && Names(stack)
    ensures Within(Render(stack, trailing), Render(rootSegments, false)) <==> Extends(stack, rootSegments)
  {
    var root := Render(rootSegments, false);
    var p := Render(stack, trailing);
    if p == root {
      SegmentsRender(stack, trailing);
      SegmentsRender(rootSegments, false);
    } else if StartsWith(p, root + Slash) {
      var u := p[|root| + 1..];
      assert p == root + Slash + u;
      BelowRootExtends(rootSegments, stack, trailing, u);
    }
    if Extends(stack, rootSegments) {
      ExtendsWithin(rootSegments, stack, trailing);
    }
  }

  /** The intended guard accepts exactly the file paths whose resolved
      segments stay below the root's; in particular one that climbs above the
      root with ".." is rejected. */
  lemma AcceptedIffBelowRoot(rootSegments: seq<string>, filePath: string)
    requires RootShape(rootSegments)
    ensures Accepted(Render(rootSegments, false), filePath)
            <==> Extends(Resolve(rootSegments, Split(filePath, Slash)), rootSegments)
  {
    TargetSegments(rootSegments, filePath);
    SplitFromSlashFree(filePath, "");
    ResolveGivesNames(rootSegments, Split(filePath, Slash));
    WithinIffExtends(rootSegments, Resolve(rootSegments, Split(filePath, Slash)),
                     filePath != "" && EndsWith(filePath, Slash));
  }

  /** A file path without ".." segments is always accepted. */
  lemma NoClimbAccepted(rootSegments: seq<string>, filePath: string)
    requires RootShape(rootSegments)
    requires forall i | 0 <= i < |Split(filePath, Slash)| :: Split(filePath, Slash)[i] != ".."
    ensures Accepted(Render(rootSegments, false), filePath)
  {
    ResolveExtends(rootSegments, Split(filePath, Slash));
    AcceptedIffBelowRoot(rootSegments, filePath);
  }

  /** The intended guard only accepts what the guard as written accepts. */
  lemma AcceptedImpliesAsWritten(root: string, filePath: string)
    requires Absolute(root) && Accepted(root, filePath)
    ensures AcceptedAsWritten(root, filePath)
  {
    var p := Target(root, filePath);
    if p != root {
      assert p[..|root|] == (root + Slash)[..|root|];
    }
  }

  lemma SiblingPieces(sibling: string, file: string)
    requires Name(sibling) && Name(file)
    ensures Split("../" + sibling + "/" + file, Slash) == ["..", sibling, file]
  {
    assert Join([sibling, file], Slash) == sibling + Slash + file;
    assert ["..", sibling, file][1..] == [sibling, file];
    assert Join(["..", sibling, file], Slash) == "../" + sibling + "/" + file;
    SplitJoinSegments(["..", sibling, file]);
  }

  /** A leading ".." drops the last segment. */
  lemma ResolveParent(stack: seq<string>, rest: seq<string>)
    requires stack != []
    ensures Resolve(stack, [".."] + rest) == Resolve(stack[..|stack| - 1], rest)
  {
    assert ([".."] + rest)[1..] == rest;
  }

  /** The file path `../<sibling>/<file>` lands beside the root's last segment. */
  lemma SiblingTarget(rootSegments: seq<string>, sibling: string, file: string)
    requires RootShape(rootSegments) && Name(sibling) && Name(file)
    ensures Resolve(rootSegments, Split("../" + sibling + "/" + file, Slash))
            == rootSegments[..|rootSegments| - 1] + [sibling, file]
    ensures Target(Render(rootSegments, false), "../" + sibling + "/" + file)
            == Render(rootSegments[..|rootSegments| - 1] + [sibling, file], false)
  {
    var filePath := "../" + sibling + "/" + file;
    SiblingPieces(sibling, file);
    SiblingResolve(rootSegments, Split(filePath, Slash), sibling, file);
    NameNoTrailing(filePath, file);
    TargetSegments(rootSegments, filePath);
  }

  lemma SiblingResolve(rootSegments: seq<string>, pieces: seq<string>, sibling: string, file: string)
    requires RootShape(rootSegments) && Name(sibling) && Name(file)
    requires pieces == ["..", sibling, file]
    ensures Resolve(rootSegments, pieces) == rootSegments[..|rootSegments| - 1] + [sibling, file]
  {
    var parent := rootSegments[..|rootSegments| - 1];
    assert Names([sibling, file]);
    ResolveNames(parent, [sibling, file]);
    ResolveParent(rootSegments, [sibling, file]);
    assert [".."] + [sibling, file] == pieces;
  }

  /** A path that ends with a name does not end with '/'. */
  lemma NameNoTrailing(p: string, name: string)
    requires Name(name) && |p| >= |name| && p[|p| - |name|..] == name
    ensures p != "" && !EndsWith(p, Slash)
  {
    assert p[|p| - 1] == name[|name| - 1];
  }

  /** Replacing the root's last segment by a longer one that starts with it
      gives a path that starts with the root. */
  lemma SiblingStartsWithRoot(rootSegments: seq<string>, sibling: string, file: string)
    requires RootShape(rootSegments)
    requires StartsWith(sibling, rootSegments[|rootSegments| - 1])
    ensures StartsWith(Render(rootSegments[..|rootSegments| - 1] + [sibling, file], false), Render(rootSegments, false))
  {
    var n := |rootSegments|;
    var last := rootSegments[n - 1];
    var parent := rootSegments[..n - 1];
    var rest := sibling[|last|..];
    assert sibling == last + rest;
    JoinLastExtended(parent, last, rest);
    assert parent + [last] == rootSegments;
    JoinAppend(parent + [sibling], [file]);
    assert parent + [sibling] + [file] == parent + [sibling, file];
    var root := Render(rootSegments, false);
    assert Render(parent + [sibling, file], false) == root + rest + Slash + file;
  }

  /** As written, the guard also accepts a sibling directory of the root whose
      name starts with the root's last segment: with the root
      `/app/userspace/code`, the file path `../code-evil/x.js` is written to
      `/app/userspace/code-evil/x.js`, outside the userspace directory. */
  lemma SiblingAcceptedAsWritten(rootSegments: seq<string>, sibling: string, file: string)
    requires RootShape(rootSegments) && Name(sibling) && Name(file)
    requires StartsWith(sibling, rootSegments[|rootSegments| - 1]) && sibling != rootSegments[|rootSegments| - 1]
    ensures AcceptedAsWritten(Render(rootSegments, false), "../" + sibling + "/" + file)
    ensures !Accepted(Render(rootSegments, false), "../" + sibling + "/" + file)
  {
    var filePath := "../" + sibling + "/" + file;
    var stack := rootSegments[..|rootSegments| - 1] + [sibling, file];
    SiblingTarget(rootSegments, sibling, file);
    SiblingStartsWithRoot(rootSegments, sibling, file);
    TargetSegments(rootSegments, filePath);
    AcceptedIffBelowRoot(rootSegments, filePath);
    assert stack[..|rootSegments|][|rootSegments| - 1] == sibling;
  }

  /** Lengthening the last segment lengthens the joined path by the same text. */
  lemma JoinLastExtended(parent: seq<string>, last: string, rest: string)
    ensures Join(parent + [last + rest], Slash) == Join(parent + [last], Slash) + rest
  {
    if parent != [] {
      JoinAppend(parent, [last + rest]);
      JoinAppend(parent, [last]);
    } else {
      assert parent + [last] == [last];
      assert parent + [last + rest] == [last + rest];
    }
  }

  lemma AppSegments(cwd: string)
    requires cwd == "/app"
    ensures Absolute(cwd) && Segments(cwd) == ["app"]
  {
    assert Join(["", "app"], Slash) == cwd;
    SplitJoinSegments(["", "app"]);
  }

  lemma AppRootText(rootSegments: seq<string>)
    requires rootSegments == ["app", "userspace", "code"]
    ensures Render(rootSegments, false) == "/app/userspace/code"
  {
    assert rootSegments[1..] == ["userspace", "code"];
    assert Join(["userspace", "code"], Slash) == "userspace/code";
  }

  /** In the working directory `/app` the userspace root is
      `/app/userspace/code`. */
  lemma AppRoot(cwd: string, root: string)
    requires cwd == "/app" && root == "/app/userspace/code"
    ensures Absolute(cwd) && UserspaceRoot(cwd) == root
    ensures root == Render(["app", "userspace", "code"], false)
  {
    var rootSegments := ["app", "userspace", "code"];
    AppSegments(cwd);
    assert UserspaceRoot(cwd) == Render(rootSegments, false) by {
      UserspaceRootSegments(cwd);
      assert ["app"] + ["userspace", "code"] == rootSegments;
    }
    AppRootText(rootSegments);
  }

  lemma EvilPath(stack: seq<string>)
    requires stack == ["app", "userspace", "code-evil", "x.js"]
    ensures Render(stack, false) == "/app/userspace/code-evil/x.js"
  {
    assert stack[1..] == ["userspace", "code-evil", "x.js"];
    EvilJoin(stack[1..]);
    assert Join(stack, Slash) == "app/" + "userspace/code-evil/x.js";
    EvilText("app/" + "userspace/code-evil/x.js");
  }

  lemma EvilJoin(parts: seq<string>)
    requires parts == ["userspace", "code-evil", "x.js"]
    ensures Join(parts, Slash) == "userspace/code-evil/x.js"
  {
    assert parts[1..] == ["code-evil", "x.js"];
    assert parts[1..][1..] == ["x.js"];
    assert Join(parts[1..], Slash) == "code-evil/x.js";
  }

  lemma EvilText(whole: string)
    requires whole == "app/" + "userspace/code-evil/x.js"
    ensures "/" + whole == "/app/userspace/code-evil/x.js"
  {
  }

  lemma SiblingName(sibling: string)
    requires sibling == "code-evil"
    ensures Name(sibling) && StartsWith(sibling, "code") && sibling != "code"
  {
    assert sibling[..4] == "code";
  }

  lemma FileName(file: string)
    requires file == "x.js"
    ensures Name(file)
  {
    assert file == ['x', '.', 'j', 's'];
  }

  /** The example above, in the working directory `/app`. */
  lemma CodeEvilScenario(cwd: string, root: string, filePath: string)
    requires cwd == "/app" && root == "/app/userspace/code" && filePath == "../code-evil/x.js"
    ensures Absolute(cwd) && UserspaceRoot(cwd) == root
    ensures Target(root, filePath) == "/app/userspace/code-evil/x.js"
    ensures AcceptedAsWritten(root, filePath) && !Accepted(root, filePath)
  {
    var rootSegments := ["app", "userspace", "code"];
    var stack := ["app", "userspace", "code-evil", "x.js"];
    var sibling, file := "code-evil", "x.js";
    AppRoot(cwd, root);
    EvilSibling(rootSegments, sibling, file, stack);
    EvilFilePath(filePath, sibling, file);
    SiblingTarget(rootSegments, sibling, file);
    EvilPath(stack);
    SiblingAcceptedAsWritten(rootSegments, sibling, file);
  }

  /** The pieces of the example: the root's segments, the sibling directory
      and the file name. */
  lemma EvilSibling(rootSegments: seq<string>, sibling: string, file: string, stack: seq<string>)
    requires rootSegments == ["app", "userspace", "code"] && sibling == "code-evil" && file == "x.js"
    requires stack == ["app", "userspace", "code-evil", "x.js"]
    ensures RootShape(rootSegments) && Name(sibling) && Name(file)
    ensures StartsWith(sibling, rootSegments[|rootSegments| - 1]) && sibling != rootSegments[|rootSegments| - 1]
    ensures rootSegments[..|rootSegments| - 1] + [sibling, file] == stack
  {
    SiblingName(sibling);
    FileName(file);
    PlainNames("userspace", "code");
    assert Name("app") by {
      assert "app" == ['a', 'p', 'p'];
    }
    assert rootSegments == ["app"] + ["userspace", "code"];
  }

  lemma EvilFilePath(filePath: string, sibling: string, file: string)
    requires filePath == "../code-evil/x.js" && sibling == "code-evil" && file == "x.js"
    ensures "../" + sibling + "/" + file == filePath
  {
  }

  // ---------------------------------------------------------------------------
  // Writing files

  /** The error `addFile` throws for a target outside the root. */
  function OutsideMessage(p: string): string
  {
    "Path " + p + " resolves to outside of the userspace directory"
  }

  /** Every file of the directory `files` lies within `root`. */
  ghost predicate AllWithin(files: map<string, string>, root: string)
  {
    forall p | p in files :: Within(p, root)
  }

  /** `addFile(filePath, content)` on the directory `files`: an accepted path
      is written at its target, which lies within the root; a rejected one
      changes nothing and the error names the target. */
  function AddedFile(root: string, files: map<string, string>, filePath: string, content: string)
    : (r: (Result<()>, map<string, string>))
    requires Absolute(root)
    ensures r.0.Ok? <==> Accepted(root, filePath)
    ensures r.0.Ok? ==> r.1 == files[Target(root, filePath) := content]
    ensures r.0.Err? ==> r.1 == files && r.0.msg == OutsideMessage(Target(root, filePath))
    ensures AllWithin(files, root) ==> AllWithin(r.1, root)
  {
    var target := Target(root, filePath);
    if Within(target, root) then (Ok(()), files[target := content])
    else (Err(OutsideMessage(target)), files)
  }

  /** `addFile` as written, with the plain string-prefix guard. */
  function AddedFileAsWritten(root: string, files: map<string, string>, filePath: string, content: string)
    : (r: (Result<()>, map<string, string>))
    requires Absolute(root)
    ensures r.0.Ok? <==> AcceptedAsWritten(root, filePath)
    ensures r.0.Ok? ==> r.1 == files[Target(root, filePath) := content]
    ensures r.0.Err? ==> r.1 == files && r.0.msg == OutsideMessage(Target(root, filePath))
  {
    var target := Target(root, filePath);
    if StartsWith(target, root) then (Ok(()), files[target := content])
    else (Err(OutsideMessage(target)), files)
  }

  /** Wherever the intended guard accepts, `addFile` as written does the same;
      it differs only on targets that merely start with the root's text. */
  lemma AsWrittenAgreesWhenAccepted(root: string, files: map<string, string>, filePath: string, content: string)
    requires Absolute(root) && Accepted(root, filePath)
    ensures AddedFileAsWritten(root, files, filePath, content) == AddedFile(root, files, filePath, content)
  {
    AcceptedImpliesAsWritten(root, filePath);
  }

  /** With working directory `/app`, the guard as written lets
      `"../code-evil/x.js"` through, and the file lands outside the userspace
      directory. */
  lemma CodeEvilEscapes(cwd: string, root: string, filePath: string, content: string)
    requires cwd == "/app" && root == "/app/userspace/code" && filePath == "../code-evil/x.js"
    ensures Absolute(root)
    ensures var r := AddedFileAsWritten(root, map[], filePath, content);
      r.0.Ok? && "/app/userspace/code-evil/x.js" in r.1 && !AllWithin(r.1, root)
    ensures AddedFile(root, map[], filePath, content).0.Err?
  {
    CodeEvilScenario(cwd, root, filePath);
    assert !Within("/app/userspace/code-evil/x.js", root);
  }

  /** Where `addFile` puts a file path: whether the guard accepts it, and its
      target. */
  datatype Placement = Placement(accepted: bool, target: string)

  function PlacementIn(root: string): (place: string -> Placement)
    ensures Absolute(root) ==> forall filePath ::
              place(filePath) == Placement(Accepted(root, filePath), Target(root, filePath))
  {
    (filePath: string) =>
      if Absolute(root) then Placement(Accepted(root, filePath), Target(root, filePath)) else Placement(false, "")
  }

  /** The `create` loop: files are added in key order, each where `place` puts
      it, and the first rejected path stops it. */
  function AddAll(place: string -> Placement, files: map<string, string>, keys: seq<string>,
                  contents: map<string, string>): (Result<()>, map<string, string>)
    requires forall i | 0 <= i < |keys| :: keys[i] in contents
    decreases |keys|
  {
    if keys == [] then (Ok(()), files)
    else if !place(keys[0]).accepted then (Err(OutsideMessage(place(keys[0]).target)), files)
    else AddAll(place, files[place(keys[0]).target := contents[keys[0]]], keys[1..], contents)
  }

  /** The position of the first key whose path is rejected, or the number of
      keys when none is. */
  function FirstRejected(place: string -> Placement, keys: seq<string>): (i: nat)
    ensures i <= |keys|
    ensures forall j | 0 <= j < i :: place(keys[j]).accepted
    ensures i < |keys| ==> !place(keys[i]).accepted
    decreases |keys|
  {
    if keys == [] then 0
    else if !place(keys[0]).accepted then 0
    else 1 + FirstRejected(place, keys[1..])
  }

  /** `create` succeeds exactly when no path is rejected; otherwise its error
      is the first rejected path's, and either way the directory holds the
      files of the keys before that one. */
  lemma {:induction false} AddAllStopsAtFirstRejected(place: string -> Placement, files: map<string, string>,
                                                      keys: seq<string>, contents: map<string, string>)
    requires forall i | 0 <= i < |keys| :: keys[i] in contents
    ensures var i := FirstRejected(place, keys);
            var r := AddAll(place, files, keys, contents);
            && (r.0.Ok? <==> i == |keys|)
            && (i < |keys| ==> r.0 == Err(OutsideMessage(place(keys[i]).target)))
            && r.1 == AddAll(place, files, keys[..i], contents).1
    decreases |keys|
  {
    if keys != [] && place(keys[0]).accepted {
      var next := files[place(keys[0]).target := contents[keys[0]]];
      AddAllStopsAtFirstRejected(place, next, keys[1..], contents);
      var i := FirstRejected(place, keys);
      assert keys[..i][1..] == keys[1..][..i - 1];
    }
  }

  /** When every path is accepted, `create` writes one file per key: the
      directory gains exactly the keys' targets, and a key whose target no
      later key shares leaves its content there. */
  lemma {:induction false} AddAllWritesEach(place: string -> Placement, files: map<string, string>,
                                            keys: seq<string>, contents: map<string, string>)
    requires forall i | 0 <= i < |keys| :: keys[i] in contents && place(keys[i]).accepted
    ensures AddAll(place, files, keys, contents).0.Ok?
    ensures forall p :: p in AddAll(place, files, keys, contents).1
              <==> p in files || exists i | 0 <= i < |keys| :: place(keys[i]).target == p
    ensures forall i | 0 <= i < |keys| && (forall j | i < j < |keys| :: place(keys[j]).target != place(keys[i]).target) ::
              AddAll(place, files, keys, contents).1[place(keys[i]).target] == contents[keys[i]]
    decreases |keys|
  {
    if keys != [] {
      var next := files[place(keys[0]).target := contents[keys[0]]];
      var rest := keys[1..];
      AddAllWritesEach(place, next, rest, contents);
      var written := AddAll(place, files, keys, contents).1;
      assert written == AddAll(place, next, rest, contents).1;
      forall p
        ensures p in written <==> p in files || exists i | 0 <= i < |keys| :: place(keys[i]).target == p
      {
        if exists i | 0 <= i < |rest| :: place(rest[i]).target == p {
          var i :| 0 <= i < |rest| && place(rest[i]).target == p;
          assert place(keys[i + 1]).target == p;
        }
        if exists i | 0 <= i < |keys| :: place(keys[i]).target == p {
          var i :| 0 <= i < |keys| && place(keys[i]).target == p;
          if i > 0 {
            assert place(rest[i - 1]).target == p;
          }
        }
      }
      forall i | 0 <= i < |keys| && (forall j | i < j < |keys| :: place(keys[j]).target != place(keys[i]).target)
        ensures written[place(keys[i]).target] == contents[keys[i]]
      {
        if i > 0 {
          forall j | i - 1 < j < |rest|
            ensures place(rest[j]).target != place(rest[i - 1]).target
          {
            assert rest[j] == keys[j + 1];
          }
        } else {
          AddAllKeeps(place, next, rest, contents, place(keys[0]).target);
        }
      }
    }
  }

  /** A target no key writes keeps its content. */
  lemma {:induction false} AddAllKeeps(place: string -> Placement, files: map<string, string>, keys: seq<string>,
                                       contents: map<string, string>, p: string)
    requires forall i | 0 <= i < |keys| :: keys[i] in contents
    requires p in files && forall i | 0 <= i < |keys| :: place(keys[i]).target != p
    ensures p in AddAll(place, files, keys, contents).1
    ensures AddAll(place, files, keys, contents).1[p] == files[p]
    decreases |keys|
  {
    if keys != [] && place(keys[0]).accepted {
      AddAllKeeps(place, files[place(keys[0]).target := contents[keys[0]]], keys[1..], contents, p);
    }
  }

  /** One turn of the `create` loop, on the keys from `i` on. */
  lemma AddAllStep(root: string, before: map<string, string>, keys: seq<string>, i: nat,
                   contents: map<string, string>, added: Result<()>, after: map<string, string>)
    requires Absolute(root) && i < |keys|
    requires forall k | 0 <= k < |keys| :: keys[k] in contents
    requires (added, after) == AddedFile(root, before, keys[i], contents[keys[i]])
    ensures added.Err? ==> AddAll(PlacementIn(root), before, keys[i..], contents) == (added, after)
    ensures added.Ok? ==> AddAll(PlacementIn(root), before, keys[i..], contents)
                          == AddAll(PlacementIn(root), after, keys[i + 1..], contents)
  {
    assert keys[i..][0] == keys[i] && keys[i..][1..] == keys[i + 1..];
    AddAllFirst(root, before, keys[i..], contents);
  }

  lemma AddAllFirst(root: string, files: map<string, string>, keys: seq<string>, contents: map<string, string>)
    requires Absolute(root) && |keys| > 0
    requires forall i | 0 <= i < |keys| :: keys[i] in contents
    ensures var added := AddedFile(root, files, keys[0], contents[keys[0]]);
      && (added.0.Err? ==> AddAll(PlacementIn(root), files, keys, contents) == (added.0, files))
      && (added.0.Ok? ==> AddAll(PlacementIn(root), files, keys, contents)
                          == AddAll(PlacementIn(root), added.1, keys[1..], contents))
  {
    var place := PlacementIn(root);
    assert place(keys[0]) == Placement(Accepted(root, keys[0]), Target(root, keys[0]));
  }

  /** The files `create` is given: `files || {}`. */
  function Given(files: Option<FileMap>): FileMap
  {
    if files.Some? then files.value else Empty
  }

  // ---------------------------------------------------------------------------
  // The userspace object

  /** A loaded module in Node's `require.cache`. */
  datatype LoadedModule = LoadedModule(filename: string)

  /** Node's `require.cache`: loaded modules by resolved file name. */
  class RequireCache {
    var modules: map<string, LoadedModule>

    constructor(modules: map<string, LoadedModule>)
      ensures this.modules == modules
    {
      this.modules := modules;
    }
  }

  const UserspaceMarker := "userspace"

  class Userspace {
    /** `path.resolve('userspace/code')`, for the process's working directory. */
    const root: string
    ghost const rootSegments: seq<string>
    /** The contents of the userspace directory, by absolute path. */
    var files: map<string, string>

    ghost predicate Valid()
      reads this
    {
      && RootShape(rootSegments)
      && root == Render(rootSegments, false)
      && AllWithin(files, root)
    }

    /** A userspace in the working directory `cwd` whose directory has just
        been emptied (`fs.rm` then `fs.mkdir`). */
    constructor(cwd: string)
      requires Absolute(cwd)
      ensures Valid() && root == UserspaceRoot(cwd) && files == map[]
    {
      UserspaceRootSegments(cwd);
      root := UserspaceRoot(cwd);
      rootSegments := Segments(cwd) + ["userspace", "code"];
      files := map[];
    }

    /** `addFile`: writes `content` at the target of `filePath` when that lies
        within the root, and otherwise throws without writing. */
    method AddFile(filePath: string, content: string) returns (r: Result<()>)
      requires Valid()
      modifies this
      ensures Valid()
      ensures (r, files) == AddedFile(root, old(files), filePath, content)
    {
      var target := Target(root, filePath);
      if !Within(target, root) {
        return Err(OutsideMessage(target));
      }
      files := files[target := content];
      r := Ok(());
    }

    /** `JavaScriptUserspace.create(files)`: a fresh userspace in `cwd` with one
        file added per key of the map, in key order, stopping at the first
        rejected path. */
    static method Create(cwd: string, files: Option<FileMap>) returns (u: Userspace, r: Result<()>)
      requires Absolute(cwd)
      requires EditorFiles.Valid(Given(files))
      ensures fresh(u) && u.Valid() && u.root == UserspaceRoot(cwd)
      ensures (r, u.files) == AddAll(PlacementIn(u.root), map[], Given(files).keys, Given(files).contents)
    {
      u := new Userspace(cwd);
      var given := Given(files);
      r := u.AddFiles(given.keys, given.contents);
    }

    /** Writes each given file in turn and stops at the first one that is
        rejected. */
    method AddFiles(keys: seq<string>, contents: map<string, string>) returns (r: Result<()>)
      requires Valid()
      requires forall i | 0 <= i < |keys| :: keys[i] in contents
      modifies this
      ensures Valid()
      ensures (r, files) == AddAll(PlacementIn(root), old(files), keys, contents)
    {
      var i := 0;
      while i < |keys|
        invariant 0 <= i <= |keys| && Valid()
        invariant AddAll(PlacementIn(root), old(files), keys, contents)
                  == AddAll(PlacementIn(root), files, keys[i..], contents)
      {
        ghost var before := files;
        var added := AddFile(keys[i], contents[keys[i]]);
        AddAllStep(root, before, keys, i, contents, added, files);
        if added.Err? {
          return added;
        }
        i := i + 1;
      }
      r := Ok(());
    }

    /** `invalidateRequireCache`: drops exactly the cached modules whose file
        name contains "userspace" and keeps every other one as it was. */
    method InvalidateRequireCache(cache: RequireCache)
      modifies cache
      ensures forall k :: k in cache.modules <==> k in old(cache.modules) && !Contains(k, UserspaceMarker)
      ensures forall k | k in cache.modules :: cache.modules[k] == old(cache.modules)[k]
    {
      var pending := cache.modules.Keys;
      while pending != {}
        invariant pending <= old(cache.modules).Keys
        invariant forall k :: k in cache.modules
                    <==> k in old(cache.modules) && (k in pending || !Contains(k, UserspaceMarker))
        invariant forall k | k in cache.modules :: cache.modules[k] == old(cache.modules)[k]
        decreases pending
      {
        var k :| k in pending;
        if Contains(k, UserspaceMarker) {
          cache.modules := cache.modules - {k};
        }
        pending := pending - {k};
      }
    }
  }
}

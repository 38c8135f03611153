/** The Solana runner's lessons: every directory under the course's base
    directory whose name starts with a prefix is a lesson, registered under its
    name without the prefix. The file system is an input: the canonical base
    directory and the listing are given. */
module SolanaLesson {
  import opened Wrappers
  import opened Text

  datatype Lesson = Lesson(slug: string, dir: string)

  datatype Course = Course(lessonsBySlug: map<string, Lesson>, basedir: string)

  /** An entry of the base directory: its file name and whether it is a
      directory. */
  datatype DirEntry = DirEntry(name: string, isDir: bool)

  function PathJoin(dir: string, name: string): string
  {
    dir + "/" + name
  }

  /** The lessons the first entries register: a later entry with the same slug
      replaces an earlier one, as `HashMap::insert` does. */
  function Registered(basedir: string, entries: seq<DirEntry>, prefix: string): map<string, Lesson>
  {
    if entries == [] then map[]
    else
      var m := Registered(basedir, entries[..|entries| - 1], prefix);
      var e := entries[|entries| - 1];
      if e.isDir && StartsWith(e.name, prefix) then m[e.name[|prefix|..] := Lesson(e.name[|prefix|..], PathJoin(basedir, e.name))]
      else m
  }

  /** A slug is registered exactly when some directory is named by the prefix
      followed by that slug, and it names that directory. */
  lemma {:induction false} RegisteredLookup(basedir: string, entries: seq<DirEntry>, prefix: string, slug: string)
    ensures slug in Registered(basedir, entries, prefix) <==>
              exists i | 0 <= i < |entries| :: entries[i].isDir && entries[i].name == prefix + slug
    ensures slug in Registered(basedir, entries, prefix) ==>
              Registered(basedir, entries, prefix)[slug] == Lesson(slug, PathJoin(basedir, prefix + slug))
  {
    if entries != [] {
      var init := entries[..|entries| - 1];
      var e := entries[|entries| - 1];
      RegisteredLookup(basedir, init, prefix, slug);
      if e.isDir && StartsWith(e.name, prefix) {
        assert e.name == prefix + e.name[|prefix|..];
        if e.name == prefix + slug {
          assert e.name[|prefix|..] == slug;
        }
      }
      if e.isDir && e.name == prefix + slug {
        assert StartsWith(e.name, prefix);
        assert e.name[|prefix|..] == slug;
      }
      if exists i | 0 <= i < |init| :: init[i].isDir && init[i].name == prefix + slug {
        var i :| 0 <= i < |init| && init[i].isDir && init[i].name == prefix + slug;
        assert entries[i] == init[i];
      }
      if exists i | 0 <= i < |entries| :: entries[i].isDir && entries[i].name == prefix + slug {
        var i :| 0 <= i < |entries| && entries[i].isDir && entries[i].name == prefix + slug;
        if i < |init| {
          assert init[i] == entries[i];
        }
      }
    }
  }

  /** `Course::from_dir`. A base directory that cannot be canonicalised is an
      error (the current directory's own error first, when it has one); so is
      a listing or an entry that cannot be read. */
  function Loaded(canonical: Result<string>, currentDir: Result<string>, listing: Result<seq<Result<DirEntry>>>,
                  prefix: string): (r: Result<Course>)
    ensures canonical.Err? ==> r.Err?
    ensures r.Ok? ==> r.value.basedir == canonical.value
  {
    if canonical.Err? then
      if currentDir.Err? then Err(currentDir.msg) else Err(canonical.msg)
    else if listing.Err? then Err(listing.msg)
    else match FirstError(listing.value)
      case Some(message) => Err(message)
      case None => Ok(Course(Registered(canonical.value, Entries(listing.value), prefix), canonical.value))
  }

  function FirstError(entries: seq<Result<DirEntry>>): (r: Option<string>)
    ensures r.None? <==> forall i | 0 <= i < |entries| :: entries[i].Ok?
  {
    if entries == [] then None
    else if entries[0].Err? then Some(entries[0].msg)
    else FirstError(entries[1..])
  }

  function Entries(entries: seq<Result<DirEntry>>): (r: seq<DirEntry>)
    requires forall i | 0 <= i < |entries| :: entries[i].Ok?
    ensures |r| == |entries| && forall i | 0 <= i < |entries| :: r[i] == entries[i].value
  {
    seq(|entries|, i requires 0 <= i < |entries| => entries[i].value)
  }

  lemma {:induction false} FirstErrorAt(entries: seq<Result<DirEntry>>, i: nat)
    requires i < |entries| && entries[i].Err?
    requires forall k | 0 <= k < i :: entries[k].Ok?
    ensures FirstError(entries) == Some(entries[i].msg)
  {
    if i > 0 {
      FirstErrorAt(entries[1..], i - 1);
    }
  }

  method FromDir(canonical: Result<string>, currentDir: Result<string>, listing: Result<seq<Result<DirEntry>>>,
                 prefix: string) returns (r: Result<Course>)
    ensures r == Loaded(canonical, currentDir, listing, prefix)
  {
    if canonical.Err? {
      if currentDir.Err? {
        return Err(currentDir.msg);
      }
      return Err(canonical.msg);
    }
    var basedir := canonical.value;
    if listing.Err? {
      return Err(listing.msg);
    }
    var entries := listing.value;
    var lessonsBySlug: map<string, Lesson> := map[];
    for i := 0 to |entries|
      invariant forall k | 0 <= k < i :: entries[k].Ok?
      invariant lessonsBySlug == Registered(basedir, Entries(entries[..i]), prefix)
    {
      if entries[i].Err? {
        FirstErrorAt(entries, i);
        return Err(entries[i].msg);
      }
      var entry := entries[i].value;
      assert Entries(entries[..i + 1])[..i] == Entries(entries[..i]);
      if entry.isDir {
        if StartsWith(entry.name, prefix) {
          var slug := entry.name[|prefix|..];
          lessonsBySlug := lessonsBySlug[slug := Lesson(slug, PathJoin(basedir, entry.name))];
        }
      }
    }
    assert entries[..|entries|] == entries;
    return Ok(Course(lessonsBySlug, basedir));
  }

  /** `Course::lesson`. */
  function LessonOf(course: Course, slug: string): (r: Option<Lesson>)
    ensures r.Some? <==> slug in course.lessonsBySlug
    ensures r.Some? ==> r.value == course.lessonsBySlug[slug]
  {
    if slug in course.lessonsBySlug then Some(course.lessonsBySlug[slug]) else None
  }

  /** Looking a lesson up in a loaded course finds the directory named by the
      prefix and the slug, and nothing when there is none. */
  lemma LoadedLesson(canonical: Result<string>, currentDir: Result<string>, listing: Result<seq<Result<DirEntry>>>,
                     prefix: string, slug: string)
    requires Loaded(canonical, currentDir, listing, prefix).Ok?
    ensures var course := Loaded(canonical, currentDir, listing, prefix).value;
      var entries := Entries(listing.value);
      && (LessonOf(course, slug).Some? <==> exists i | 0 <= i < |entries| :: entries[i].isDir && entries[i].name == prefix + slug)
      && (LessonOf(course, slug).Some? ==> LessonOf(course, slug).value == Lesson(slug, PathJoin(canonical.value, prefix + slug)))
  {
    RegisteredLookup(canonical.value, Entries(listing.value), prefix, slug);
  }
}

/** The metadata the course decorators attach to course classes, lesson classes
    and test methods, and the check registry of the course checker.

    In the source the metadata lives in symbol-keyed properties of the
    constructors and functions themselves; here a `Metadata` object holds it,
    keyed by the identity (`Ref`) of the constructor or function. A read of such
    a property goes up the prototype chain, so a subclass sees what its parent
    holds. What reflection finds on the classes (the class each one extends, the
    `lessons` array of a course instance, the test and action methods of a
    class, which lifecycle hooks it defines) is the fixed `Classes` declaration. */
module CourseMetadata {
  import opened Wrappers
  import opened EditorFiles

  /** Identity of a JavaScript constructor or function. */
  type Ref = nat

  datatype CourseMeta = CourseMeta(ctor: Ref, slug: string, lessons: seq<Ref>, timeout: Option<int>,
                                   only: Option<bool>, skip: Option<bool>)

  datatype LessonMeta = LessonMeta(ctor: Ref, slug: string, timeout: Option<int>,
                                   only: Option<bool>, skip: Option<bool>)

  datatype TestMeta = TestMeta(title: string, fn: Ref, timeout: Option<int>,
                               only: Option<bool>, skip: Option<bool>)

  datatype ActionMeta = ActionMeta(name: string, fn: Ref)

  datatype CheckKind = Passes | Fails

  /** A check; `expected` is the `match` text a failing check looks for and
      `resultMatch` the opaque object a passing check compares with. */
  datatype Check = Check(kind: CheckKind, name: string, files: FileMap, expected: Option<string>,
                         resultMatch: Option<string>, only: Option<bool>, skip: Option<bool>)

  /** Which lifecycle hooks an instance of a class defines. */
  datatype Hooks = Hooks(beforeAll: bool, beforeEach: bool, afterEach: bool, afterAll: bool)

  /** The class each constructor `extends`, which is also its prototype:
      `None` for a base class and for a plain function. JavaScript evaluates the
      `extends` clause before it creates the class, so with identities numbered
      in creation order every class extends an older one. */
  type Extends = f: Ref -> Option<Ref> | forall r :: f(r).Some? ==> f(r).value < r
    witness (r: Ref) => None

  /** The declarations of the course and lesson classes. */
  datatype Classes = Classes(
    extendsOf: Extends,                 // `class C extends P`
    lessonsOf: Ref -> seq<Ref>,         // `new Course().lessons`
    testsOf: Ref -> seq<TestMeta>,      // `getTests` on an instance of a lesson class
    actionsOf: Ref -> seq<ActionMeta>,  // `getActions` on an instance of a class
    hooksOf: Ref -> Hooks)

  /** The prototype chain of a constructor: itself, the class it extends, and so
      on up to a base class. */
  function Chain(ext: Extends, r: Ref): (c: seq<Ref>)
    ensures |c| >= 1 && c[0] == r
    ensures forall x | x in c :: x <= r
    decreases r
  {
    match ext(r)
    case None => [r]
    case Some(p) => [r] + Chain(ext, p)
  }

  /** The constructor whose own property a read `r[key]` finds: the nearest one
      on the prototype chain that holds the key, `None` when none does. */
  function Holder<T>(own: map<Ref, T>, ext: Extends, r: Ref): (h: Option<Ref>)
    ensures h.Some? ==> h.value in own
    decreases r
  {
    if r in own then Some(r)
    else match ext(r)
      case None => None
      case Some(p) => Holder(own, ext, p)
  }

  /** The holder is found exactly when some class on the chain owns the key, and
      it is the nearest such class. */
  lemma {:induction false} HolderNearest<T>(own: map<Ref, T>, ext: Extends, r: Ref)
    ensures var h := Holder(own, ext, r);
      && (h.Some? <==> exists x | x in Chain(ext, r) :: x in own)
      && (h.Some? ==> h.value in Chain(ext, r))
      && (h.Some? ==> forall x | x in Chain(ext, r) && x > h.value :: x !in own)
    decreases r
  {
    if r !in own {
      match ext(r)
      case None =>
      case Some(p) =>
        HolderNearest(own, ext, p);
        assert Chain(ext, r) == [r] + Chain(ext, p);
    }
  }

  /** A property read through the prototype chain. */
  function Inherited<T>(own: map<Ref, T>, ext: Extends, r: Ref): Option<T>
  {
    match Holder(own, ext, r)
    case None => None
    case Some(h) => Some(own[h])
  }

  /** A constructor reads what an ancestor reads when no class between them
      holds the key as its own property. */
  lemma {:induction false} InheritedAlongChain<T>(own: map<Ref, T>, ext: Extends, r: Ref, x: Ref)
    requires x in Chain(ext, r)
    requires forall y | y in Chain(ext, r) && y > x :: y !in own
    ensures Inherited(own, ext, r) == Inherited(own, ext, x)
    decreases r
  {
    if r != x {
      assert r in Chain(ext, r) && r > x;
      match ext(r)
      case None =>
      case Some(p) =>
        assert Chain(ext, r) == [r] + Chain(ext, p);
        InheritedAlongChain(own, ext, p, x);
    }
  }

  /** Setting `t[key]` changes what a read `r[key]` finds only for a constructor
      whose read found what `t[key]` found: either the read is unchanged or it
      now finds the new value. */
  lemma {:induction false} InheritedAfterSet<T>(own: map<Ref, T>, ext: Extends, t: Ref, v: T, r: Ref)
    ensures Inherited(own[t := v], ext, r) == Inherited(own, ext, r)
         || (Inherited(own[t := v], ext, r) == Some(v) && Inherited(own, ext, r) == Inherited(own, ext, t))
    decreases r
  {
    if r != t && r !in own {
      match ext(r)
      case None =>
      case Some(p) => InheritedAfterSet(own, ext, t, v, p);
    }
  }

  class Metadata {
    var courseMetas: map<Ref, CourseMeta>
    var lessonMetas: map<Ref, LessonMeta>
    /** The `checkMetaKey` own properties: which meta object each class or
        function holds, as an index into `checkLists`. */
    var checkMetas: map<Ref, nat>
    /** The `checks` array of every meta object `addCheck` has created. */
    var checkLists: seq<seq<Check>>
    const classes: Classes

    /** Every meta object a class or function holds exists. */
    ghost predicate Valid()
      reads this`checkMetas, this`checkLists
    {
      forall r | r in checkMetas :: checkMetas[r] < |checkLists|
    }

    constructor (classes: Classes)
      ensures this.classes == classes
      ensures courseMetas == map[] && lessonMetas == map[] && checkMetas == map[] && checkLists == []
      ensures Valid()
    {
      this.classes := classes;
      courseMetas := map[];
      lessonMetas := map[];
      checkMetas := map[];
      checkLists := [];
    }

    method SetCourseMeta(courseCtor: Ref, meta: CourseMeta)
      modifies this`courseMetas
      ensures courseMetas == old(courseMetas)[courseCtor := meta]
      ensures GetCourseMeta(courseCtor) == Some(meta)
    {
      courseMetas := courseMetas[courseCtor := meta];
    }

    /** `undefined` when no class on the prototype chain has `@Course`; a
        subclass without its own decorator reads its parent's metadata. */
    function GetCourseMeta(courseCtor: Ref): (r: Option<CourseMeta>)
      reads this`courseMetas
      ensures courseCtor in courseMetas ==> r == Some(courseMetas[courseCtor])
    {
      Inherited(courseMetas, classes.extendsOf, courseCtor)
    }

    method SetLessonMeta(lessonCtor: Ref, meta: LessonMeta)
      modifies this`lessonMetas
      ensures lessonMetas == old(lessonMetas)[lessonCtor := meta]
      ensures GetLessonMeta(lessonCtor) == Some(meta)
    {
      lessonMetas := lessonMetas[lessonCtor := meta];
    }

    /** `undefined` when no class on the prototype chain has `@Lesson`; a
        subclass without its own decorator reads its parent's metadata. */
    function GetLessonMeta(lessonCtor: Ref): (r: Option<LessonMeta>)
      reads this`lessonMetas
      ensures lessonCtor in lessonMetas ==> r == Some(lessonMetas[lessonCtor])
    {
      Inherited(lessonMetas, classes.extendsOf, lessonCtor)
    }

    /** The metadata of the course's lessons, in the order of the course's
        `lessons` array (`None` for a class without `@Lesson`). */
    function GetLessons(course: CourseMeta): (r: seq<Option<LessonMeta>>)
      reads this`lessonMetas
      ensures |r| == |classes.lessonsOf(course.ctor)|
      ensures forall i | 0 <= i < |r| :: r[i] == GetLessonMeta(classes.lessonsOf(course.ctor)[i])
    {
      var lessons := classes.lessonsOf(course.ctor);
      var metas := lessonMetas;
      seq(|lessons|, i requires 0 <= i < |lessons| => Inherited(metas, classes.extendsOf, lessons[i]))
    }

    /** The meta object a read `target[checkMetaKey]` finds. */
    function ListOf(target: Ref): Option<nat>
      reads this`checkMetas
    {
      Inherited(checkMetas, classes.extendsOf, target)
    }

    /** The checks a class or function sees, `[]` when it finds no meta object. */
    function ChecksOf(target: Ref): seq<Check>
      requires Valid()
      reads this`checkMetas, this`checkLists
    {
      match ListOf(target)
      case None => []
      case Some(id) => checkLists[id]
    }

    /** `addCheck`: pushes the check onto the list the target finds, creating a
        meta object when it finds none, and makes that object the target's own.
        A subclass without checks of its own pushes onto its parent's list, so
        every class or function sharing that list sees the check. */
    method AddCheck(target: Ref, check: Check)
      requires Valid()
      modifies this`checkMetas, this`checkLists
      ensures Valid()
      ensures old(ListOf(target)).None? ==>
        checkMetas == old(checkMetas)[target := old(|checkLists|)] && checkLists == old(checkLists) + [[check]]
      ensures old(ListOf(target)).Some? ==>
        var id := old(ListOf(target)).value;
        checkMetas == old(checkMetas)[target := id] && checkLists == old(checkLists)[id := old(checkLists[id]) + [check]]
      ensures ChecksOf(target) == old(ChecksOf(target)) + [check]
      ensures forall other | old(ListOf(other)).Some? && old(ListOf(other)) == old(ListOf(target)) ::
        ChecksOf(other) == old(ChecksOf(other)) + [check]
      ensures forall other | old(ListOf(other)) != old(ListOf(target)) :: ChecksOf(other) == old(ChecksOf(other))
    {
      var id: nat;
      match ListOf(target) {
        case None =>
          id := |checkLists|;
          checkLists := checkLists + [[check]];
        case Some(found) =>
          id := found;
          checkLists := checkLists[id := checkLists[id] + [check]];
      }
      ghost var before := checkMetas;
      checkMetas := checkMetas[target := id];
      forall other
        ensures ListOf(other) == Inherited(before, classes.extendsOf, other)
             || (ListOf(other) == Some(id) && Inherited(before, classes.extendsOf, other) == Inherited(before, classes.extendsOf, target))
      {
        InheritedAfterSet(before, classes.extendsOf, target, id, other);
      }
    }

    function GetLessonChecks(lesson: LessonMeta): (r: seq<Check>)
      requires Valid()
      reads this`checkMetas, this`checkLists
      ensures ListOf(lesson.ctor).None? ==> r == []
    {
      ChecksOf(lesson.ctor)
    }

    function GetTestChecks(test: TestMeta): (r: seq<Check>)
      requires Valid()
      reads this`checkMetas, this`checkLists
      ensures ListOf(test.fn).None? ==> r == []
    {
      ChecksOf(test.fn)
    }
  }
}

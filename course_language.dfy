/** `ECourseLanguage`: the course language values, each carrying its lower-case name, and the parser
    that accepts exactly those names. */
module CourseLanguage {
  import opened Wrappers
  import opened Text

  datatype ECourseLanguage = Solidity | Typescript | Motoko | Func | Rust

  /** The members in declaration order, as `Object.values(ECourseLanguage)` lists them. */
  const Members: seq<ECourseLanguage> := [Solidity, Typescript, Motoko, Func, Rust]

  /** The string value of each member. */
  function Name(v: ECourseLanguage): string
  {
    match v
    case Solidity => "solidity"
    case Typescript => "typescript"
    case Motoko => "motoko"
    case Func => "func"
    case Rust => "rust"
  }

  /** `parseCourseLanguage`: accepts a member's string value, case-sensitively, and rejects
      anything else with "Invalid language: <str>". */
  function ParseCourseLanguage(str: string): (r: Result<ECourseLanguage>)
    ensures r.Ok? <==> exists v | v in Members :: Name(v) == str
    ensures r.Ok? ==> Name(r.value) == str
    ensures r.Err? ==> r.msg == "Invalid language: " + str
  {
    match FindNamed(Members, Name, str)
    case Some(v) => Ok(v)
    case None => Err("Invalid language: " + str)
  }

  /** Parsing a member's name gives the member back. */
  lemma ParseName(v: ECourseLanguage)
    ensures ParseCourseLanguage(Name(v)) == Ok(v)
  {
    assert v in Members;
    var found := FindNamed(Members, Name, Name(v));
    NameInjective(found.value, v);
  }

  /** A string parses exactly when it is some member's name. */
  lemma ParseAccepts(str: string)
    ensures ParseCourseLanguage(str).Ok? <==> exists v: ECourseLanguage :: Name(v) == str
  {
    if exists v: ECourseLanguage :: Name(v) == str {
      var v: ECourseLanguage :| Name(v) == str;
      ParseName(v);
    }
  }

  /** Distinct members have distinct names: already their lengths and first
      letters tell them apart. */
  lemma NameInjective(a: ECourseLanguage, b: ECourseLanguage)
    ensures Name(a) == Name(b) ==> a == b
  {
    if Name(a) == Name(b) {
      assert |Name(a)| == |Name(b)| && Name(a)[0] == Name(b)[0];
    }
  }

  /** Matching is on the string values, not the member names: the upper-case
      spelling is rejected. */
  lemma KeySpellingRejected()
    ensures ParseCourseLanguage("RUST").Err?
  {
    var str := "RUST";
    forall v: ECourseLanguage
      ensures Name(v) != str
    {
      assert Name(v)[0] != str[0];
    }
  }
}

/** `ECourseChain`: the chain values, each carrying its lower-case name, and the parser
    that accepts exactly those names. */
module CourseChain {
  import opened Wrappers
  import opened Text

  datatype ECourseChain = Ethereum | Swarm | Icp | Ton | Lisk | Near | Solana

  /** The members in declaration order, as `Object.values(ECourseChain)` lists them. */
  const Members: seq<ECourseChain> := [Ethereum, Swarm, Icp, Ton, Lisk, Near, Solana]

  /** The string value of each member. */
  function Name(v: ECourseChain): string
  {
    match v
    case Ethereum => "ethereum"
    case Swarm => "swarm"
    case Icp => "icp"
    case Ton => "ton"
    case Lisk => "lisk"
    case Near => "near"
    case Solana => "solana"
  }

  /** `parseCourseChain`: accepts a member's string value, case-sensitively, and rejects
      anything else with "Invalid chain: <str>". */
  function ParseCourseChain(str: string): (r: Result<ECourseChain>)
    ensures r.Ok? <==> exists v | v in Members :: Name(v) == str
    ensures r.Ok? ==> Name(r.value) == str
    ensures r.Err? ==> r.msg == "Invalid chain: " + str
  {
    match FindNamed(Members, Name, str)
    case Some(v) => Ok(v)
    case None => Err("Invalid chain: " + str)
  }

  /** Parsing a member's name gives the member back. */
  lemma ParseName(v: ECourseChain)
    ensures ParseCourseChain(Name(v)) == Ok(v)
  {
    assert v in Members;
    var found := FindNamed(Members, Name, Name(v));
    NameInjective(found.value, v);
  }

  /** A string parses exactly when it is some member's name. */
  lemma ParseAccepts(str: string)
    ensures ParseCourseChain(str).Ok? <==> exists v: ECourseChain :: Name(v) == str
  {
    if exists v: ECourseChain :: Name(v) == str {
      var v: ECourseChain :| Name(v) == str;
      ParseName(v);
    }
  }

  /** Distinct members have distinct names: already their lengths and first
      letters tell them apart. */
  lemma NameInjective(a: ECourseChain, b: ECourseChain)
    ensures Name(a) == Name(b) ==> a == b
  {
    if Name(a) == Name(b) {
      assert |Name(a)| == |Name(b)| && Name(a)[0] == Name(b)[0];
    }
  }

  /** Matching is on the string values, not the member names: the upper-case
      spelling is rejected. */
  lemma KeySpellingRejected()
    ensures ParseCourseChain("SOLANA").Err?
  {
    var str := "SOLANA";
    forall v: ECourseChain
      ensures Name(v) != str
    {
      assert Name(v)[0] != str[0];
    }
  }
}

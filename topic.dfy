/** `ETopic`: the topic values, each carrying its lower-case name, and the parser
    that accepts exactly those names. */
module Topic {
  import opened Wrappers
  import opened Text

  datatype ETopic = Solidity | Smartpy | Func | Lisk | Motoko | Markdown | Nearjs | Swarm

  /** The members in declaration order, as `Object.values(ETopic)` lists them. */
  const Members: seq<ETopic> := [Solidity, Smartpy, Func, Lisk, Motoko, Markdown, Nearjs, Swarm]

  /** The string value of each member. */
  function Name(v: ETopic): string
  {
    match v
    case Solidity => "solidity"
    case Smartpy => "smartpy"
    case Func => "func"
    case Lisk => "lisk"
    case Motoko => "motoko"
    case Markdown => "markdown"
    case Nearjs => "nearjs"
    case Swarm => "swarm"
  }

  /** `parseTopic`: accepts a member's string value, case-sensitively, and rejects
      anything else with "Invalid topic: <str>". */
  function ParseTopic(str: string): (r: Result<ETopic>)
    ensures r.Ok? <==> exists v | v in Members :: Name(v) == str
    ensures r.Ok? ==> Name(r.value) == str
    ensures r.Err? ==> r.msg == "Invalid topic: " + str
  {
    match FindNamed(Members, Name, str)
    case Some(v) => Ok(v)
    case None => Err("Invalid topic: " + str)
  }

  /** Parsing a member's name gives the member back. */
  lemma ParseName(v: ETopic)
    ensures ParseTopic(Name(v)) == Ok(v)
  {
    assert v in Members;
    var found := FindNamed(Members, Name, Name(v));
    NameInjective(found.value, v);
  }

  /** A string parses exactly when it is some member's name. */
  lemma ParseAccepts(str: string)
    ensures ParseTopic(str).Ok? <==> exists v: ETopic :: Name(v) == str
  {
    if exists v: ETopic :: Name(v) == str {
      var v: ETopic :| Name(v) == str;
      ParseName(v);
    }
  }

  /** Distinct members have distinct names: already their lengths and first
      letters tell them apart. */
  lemma NameInjective(a: ETopic, b: ETopic)
    ensures Name(a) == Name(b) ==> a == b
  {
    if Name(a) == Name(b) {
      assert |Name(a)| == |Name(b)| && Name(a)[0] == Name(b)[0];
    }
  }

  /** Matching is on the string values, not the member names: the upper-case
      spelling is rejected. */
  lemma KeySpellingRejected()
    ensures ParseTopic("SOLIDITY").Err?
  {
    var str := "SOLIDITY";
    forall v: ETopic
      ensures Name(v) != str
    {
      assert Name(v)[0] != str[0];
    }
  }
}

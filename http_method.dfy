/** The HTTP methods a request may use, with their raw string values
    (section 9 of RFC 9110, plus PATCH from RFC 5789). */
module HttpMethod {
  import opened Wrappers

  datatype Method = Get | Post | Put | Delete | Patch | Options | Head | Trace | Connect

  const AllMethods: seq<Method> := [Get, Post, Put, Delete, Patch, Options, Head, Trace, Connect]

  /** `rawValue`: the upper-case method token. */
  function RawValue(m: Method): (s: string)
    ensures |s| >= 3
    ensures forall i :: 0 <= i < |s| ==> 'A' <= s[i] <= 'Z'
  {
    match m
    case Get => "GET"
    case Post => "POST"
    case Put => "PUT"
    case Delete => "DELETE"
    case Patch => "PATCH"
    case Options => "OPTIONS"
    case Head => "HEAD"
    case Trace => "TRACE"
    case Connect => "CONNECT"
  }

  /** `init?(rawValue:)`: exact, case-sensitive match of one of the nine tokens. */
  function Parse(s: string): (r: Option<Method>)
    ensures r.Some? ==> RawValue(r.value) == s
  {
    if s == "GET" then Some(Get)
    else if s == "POST" then Some(Post)
    else if s == "PUT" then Some(Put)
    else if s == "DELETE" then Some(Delete)
    else if s == "PATCH" then Some(Patch)
    else if s == "OPTIONS" then Some(Options)
    else if s == "HEAD" then Some(Head)
    else if s == "TRACE" then Some(Trace)
    else if s == "CONNECT" then Some(Connect)
    else None
  }

  /** There are exactly nine methods. */
  lemma NineMethods(m: Method)
    ensures m in AllMethods
    ensures |AllMethods| == 9
    ensures forall i, j :: 0 <= i < j < |AllMethods| ==> AllMethods[i] != AllMethods[j]
  {
  }

  /** Parsing a method's raw value gives back that method. */
  lemma ParseRawValue(m: Method)
    ensures Parse(RawValue(m)) == Some(m)
  {
  }

  /** Distinct methods have distinct raw values. */
  lemma RawValueInjective(m1: Method, m2: Method)
    ensures RawValue(m1) == RawValue(m2) ==> m1 == m2
  {
    ParseRawValue(m1);
    ParseRawValue(m2);
  }

  /** A string parses if and only if it is one of the nine tokens. */
  lemma ParseExactly(s: string)
    ensures Parse(s).Some? <==> exists m :: RawValue(m) == s
  {
    if exists m :: RawValue(m) == s {
      var m :| RawValue(m) == s;
      ParseRawValue(m);
    }
  }

  /** Lower-case tokens are not methods. */
  lemma LowerCaseGetIsNotAMethod()
    ensures Parse("get") == None
  {
  }
}

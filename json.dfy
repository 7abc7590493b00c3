/** The already-parsed JSON document the engine inspects. Parsing itself is
    done by rapidjson and is not modelled: a `Document` is whatever the parser
    produced for a payload, or the fact that it reported a parse error. */
module Json {
  import opened Basics

  datatype Value =
    | Null
    | Bool(b: bool)
    | Number(n: real)
    | String(s: string)
    | Array(items: seq<Value>)
    | Object(members: seq<Member>)

  /** Object members keep their document order; names may repeat. */
  datatype Member = Member(name: string, value: Value)

  datatype Document = ParseError | Parsed(root: Value)

  /** rapidjson's `FindMember`: the position of the first member with the given
      name, where `|members|` plays the part of `MemberEnd()`. */
  function FindMember(members: seq<Member>, name: string): (it: nat)
    ensures it <= |members|
    ensures forall j :: 0 <= j < it ==> members[j].name != name
    ensures it < |members| ==> members[it].name == name
  {
    if |members| == 0 || members[0].name == name then 0
    else 1 + FindMember(members[1..], name)
  }

  /** The value of the first member called `name`, if there is one. */
  function Get(members: seq<Member>, name: string): (r: Option<Value>)
    ensures r.None? <==> forall j :: 0 <= j < |members| ==> members[j].name != name
    ensures r.Some? ==> exists j :: 0 <= j < |members| && members[j] == Member(name, r.value)
                                    && forall k :: 0 <= k < j ==> members[k].name != name
  {
    var it := FindMember(members, name);
    if it < |members| then Some(members[it].value) else None
  }

  /** What a `std::string` built from rapidjson's `GetString()` holds: the
      buffer is read as a NUL-terminated C string, so the copy ends just
      before the first NUL character of the JSON string. */
  function CString(s: string): (r: string)
    ensures |r| <= |s| && r == s[..|r|]
    ensures '\0' !in r
    ensures |r| < |s| ==> s[|r|] == '\0'
  {
    if s == [] || s[0] == '\0' then []
    else [s[0]] + CString(s[1..])
  }

  /** A string without NUL characters is copied whole. */
  lemma CStringOfNulFree(s: string)
    requires '\0' !in s
    ensures CString(s) == s
  {
  }
}

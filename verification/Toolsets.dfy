/** Toolset identity and tool_choice (normalizeTools in tools.go). */
module Toolsets {
  import opened Types
  import opened History
  import opened Ordering
  import opened Json

  // A tool as the client sends it; None stands for absent parameters.
  datatype RawTool =
    RawTool(kind: string, name: string, description: string, parameters: Option<Tree>, strict: Option<bool>)

  // tool_choice after JSON decoding: absent or null, a string, or an object naming a function.
  datatype Choice = Absent | Mode(mode: string) | Function(kind: string, name: string) | Malformed

  datatype Normalized = Normalized(tools: seq<FunctionTool>, hash: ToolHash, policy: Policy)

  const DEFAULT_SCHEMA :=
    Object(Member("type", Text("object"), Member("properties", Object(NoMember), NoMember)))

  function Lower(c: char): char {
    if 'A' <= c <= 'Z' then c - 'A' + 'a' else c
  }

  /** Go matches struct keys without regard to case. */
  predicate IsTypeKey(key: string) {
    |key| == 4 && Lower(key[0]) == 't' && Lower(key[1]) == 'y' && Lower(key[2]) == 'p' && Lower(key[3]) == 'e'
  }

  /** Decoding the members into a struct with one string field: the last matching key wins, null is skipped. */
  function SchemaType(members: Members, sofar: string): Result<string> {
    match members
    case NoMember => Ok(sofar)
    case Member(key, value, rest) =>
      if !IsTypeKey(key) || value.Null? then SchemaType(rest, sofar)
      else if value.Text? then SchemaType(rest, value.text)
      else Err
  }

  function Parameters(t: RawTool): Tree {
    if t.parameters.Some? then t.parameters.value else DEFAULT_SCHEMA
  }

  predicate ValidTool(t: RawTool) {
    && t.kind == "function" && ValidName(t.name)
    && Canon(Parameters(t)).Object?
    && SchemaType(Canon(Parameters(t)).members, "") == Ok("object")
  }

  function NormalTool(t: RawTool): FunctionTool {
    FunctionTool(t.name, t.description, Canon(Parameters(t)), t.strict)
  }

  ghost predicate DistinctNames(tools: seq<RawTool>) {
    forall a, b :: 0 <= a < b < |tools| ==> tools[a].name != tools[b].name
  }

  ghost predicate ValidTools(tools: seq<RawTool>) {
    (forall t | t in tools :: ValidTool(t)) && DistinctNames(tools)
  }

  function NormalTools(tools: seq<RawTool>): seq<FunctionTool> {
    seq(|tools|, i requires 0 <= i < |tools| => NormalTool(tools[i]))
  }

  // Sorting by name. Any sort gives the same list, see SortedIsUnique.

  function InsertTool(t: FunctionTool, tools: seq<FunctionTool>): seq<FunctionTool> {
    if tools == [] || Before(t.name, tools[0].name) then [t] + tools
    else [tools[0]] + InsertTool(t, tools[1..])
  }

  function SortTools(tools: seq<FunctionTool>): seq<FunctionTool> {
    if tools == [] then [] else InsertTool(tools[0], SortTools(tools[1..]))
  }

  ghost predicate Sorted(tools: seq<FunctionTool>) {
    forall a, b :: 0 <= a < b < |tools| ==> Before(tools[a].name, tools[b].name)
  }

  ghost predicate NamesDiffer(tools: seq<FunctionTool>) {
    forall a, b :: 0 <= a < b < |tools| ==> tools[a].name != tools[b].name
  }

  function PolicyFor(choice: Choice, names: set<string>): Result<Policy> {
    match choice
    case Absent => Ok(Auto)
    case Mode(mode) =>
      if mode == "auto" then Ok(Auto)
      else if mode == "none" then Ok(Never)
      else if mode == "required" && names != {} then Ok(Required)
      else Err
    case Function(kind, name) => if kind == "function" && name in names then Ok(Named(name)) else Err
    case Malformed => Err
  }

  function NamesOf(tools: seq<RawTool>): set<string> {
    set t | t in tools :: t.name
  }

  ghost function NormalizedTools(tools: seq<RawTool>, choice: Choice): Result<Normalized> {
    var policy := PolicyFor(choice, NamesOf(tools));
    if !ValidTools(tools) || policy.Err? then Err
    else
      var sorted := SortTools(NormalTools(tools));
      Ok(Normalized(sorted, ToolHashOf(sorted), policy.value))
  }

  /** A tool_choice that can be kept: no call is demanded without tools, and a named function is one of them. */
  ghost predicate Answerable(tools: seq<RawTool>, choice: Choice) {
    match choice
    case Absent => true
    case Mode(mode) => mode == "auto" || mode == "none" || (mode == "required" && tools != [])
    case Function(kind, name) => kind == "function" && exists t | t in tools :: t.name == name
    case Malformed => false
  }

  /** Which calls a tool_choice lets through: all, none, or those of the one function it names. */
  lemma ChoiceAllows(tools: seq<RawTool>, choice: Choice, name: string)
    requires NormalizedTools(tools, choice).Ok?
    ensures Allows(NormalizedTools(tools, choice).value.policy, name) <==>
      && choice != Mode("none")
      && (choice.Function? ==> name == choice.name)
  {
  }

  method NormalizeTools(tools: seq<RawTool>, choice: Choice) returns (r: Result<Normalized>)
    ensures r == NormalizedTools(tools, choice)
    ensures r.Ok? <==> ValidTools(tools) && Answerable(tools, choice)
    ensures r.Ok? ==>
      && (r.value.policy == Auto <==> choice == Absent || choice == Mode("auto"))
      && (r.value.policy == Never <==> choice == Mode("none"))
      && (r.value.policy == Required <==> choice == Mode("required"))
      && (forall n :: r.value.policy == Named(n) <==> choice == Function("function", n))
  {
    hide ValidTool, NormalTool, Before;
    var normalized := [];
    var names: set<string> := {};
    for i := 0 to |tools|
      invariant normalized == NormalTools(tools[..i])
      invariant names == NamesOf(tools[..i])
      invariant ValidTools(tools[..i])
    {
      var t := tools[i];
      assert tools[..i + 1] == tools[..i] + [t];
      assert t in tools;
      if t.name in names {
        SeenTwice(tools, i);
        return Err;
      }
      if !ValidTool(t) {
        return Err;
      }
      AnotherName(tools, i);
      names := names + {t.name};
      normalized := normalized + [NormalTool(t)];
    }
    assert tools[..|tools|] == tools;
    normalized := SortTools(normalized);
    var hash := NoTools;
    if |normalized| > 0 {
      hash := HashOf(normalized);
    }
    var policy := Auto;
    if !choice.Absent? {
      match choice {
        case Mode(mode) =>
          if mode == "named" {
            return Err;
          } else if mode == "none" {
            policy := Never;
          } else if mode == "required" {
            policy := Required;
          } else if mode != "auto" {
            return Err;
          }
        case Function(kind, name) =>
          if kind != "function" || name !in names {
            return Err;
          }
          policy := Named(name);
        case _ =>
          return Err;
      }
    }
    SortKeepsLength(NormalTools(tools));
    if |normalized| == 0 && (policy.Required? || policy.Named?) {
      return Err;
    }
    assert tools != [] ==> tools[0].name in names;
    return Ok(Normalized(normalized, hash, policy));
  }

  lemma SeenTwice(tools: seq<RawTool>, i: nat)
    requires i < |tools| && tools[i].name in NamesOf(tools[..i])
    ensures !DistinctNames(tools)
  {
    var t :| t in tools[..i] && t.name == tools[i].name;
    var a :| 0 <= a < i && tools[a] == t;
  }

  lemma AnotherName(tools: seq<RawTool>, i: nat)
    requires i < |tools| && DistinctNames(tools[..i]) && tools[i].name !in NamesOf(tools[..i])
    ensures DistinctNames(tools[..i + 1])
  {
    forall a | 0 <= a < i
      ensures tools[a].name != tools[i].name
    {
      assert tools[a] in tools[..i];
    }
  }

  lemma {:induction false} InsertedAnywhere(t: FunctionTool, tools: seq<FunctionTool>)
    ensures multiset(InsertTool(t, tools)) == multiset(tools) + multiset{t}
    ensures |InsertTool(t, tools)| == |tools| + 1
  {
    if tools != [] && !Before(t.name, tools[0].name) {
      InsertedAnywhere(t, tools[1..]);
      assert tools == [tools[0]] + tools[1..];
    }
  }

  lemma {:induction false} SortKeepsLength(tools: seq<FunctionTool>)
    ensures multiset(SortTools(tools)) == multiset(tools) && |SortTools(tools)| == |tools|
  {
    if tools != [] {
      SortKeepsLength(tools[1..]);
      InsertedAnywhere(tools[0], SortTools(tools[1..]));
      assert tools == [tools[0]] + tools[1..];
    }
  }

  lemma {:induction false} InsertKeepsSorted(t: FunctionTool, tools: seq<FunctionTool>)
    requires Sorted(tools) && forall x | x in tools :: x.name != t.name
    ensures Sorted(InsertTool(t, tools))
  {
    if tools != [] {
      assert tools[0] in tools;
      if Before(t.name, tools[0].name) {
        forall b | 0 <= b < |tools|
          ensures Before(t.name, tools[b].name)
        {
          if b > 0 {
            BeforeIsTransitive(t.name, tools[0].name, tools[b].name);
          }
        }
      } else {
        BeforeIsTotal(t.name, tools[0].name);
        var rest := InsertTool(t, tools[1..]);
        InsertKeepsSorted(t, tools[1..]);
        InsertedAnywhere(t, tools[1..]);
        forall b | 0 <= b < |rest|
          ensures Before(tools[0].name, rest[b].name)
        {
          assert rest[b] in multiset(rest);
          assert rest[b] == t || rest[b] in tools[1..];
          if rest[b] != t {
            var k :| 0 <= k < |tools[1..]| && tools[1..][k] == rest[b];
            assert tools[k + 1] == rest[b];
          }
        }
      }
    }
  }

  /** With different names, sorting yields a strictly increasing list of the same tools. */
  lemma {:induction false} SortSorts(tools: seq<FunctionTool>)
    requires NamesDiffer(tools)
    ensures Sorted(SortTools(tools)) && multiset(SortTools(tools)) == multiset(tools)
  {
    SortKeepsLength(tools);
    if tools != [] {
      var rest := SortTools(tools[1..]);
      SortSorts(tools[1..]);
      forall x | x in rest
        ensures x.name != tools[0].name
      {
        assert x in multiset(tools[1..]);
        var k :| 0 <= k < |tools[1..]| && tools[1..][k] == x;
        assert tools[k + 1] == x;
      }
      InsertKeepsSorted(tools[0], rest);
    }
  }

  function Elements(tools: seq<FunctionTool>): set<FunctionTool> {
    set t | t in tools
  }

  /** A strictly increasing list is determined by its elements, so no sort can give another. */
  lemma {:induction false} SortedIsUnique(a: seq<FunctionTool>, b: seq<FunctionTool>)
    requires Sorted(a) && Sorted(b) && Elements(a) == Elements(b)
    ensures a == b
    decreases |a|
  {
    if a == [] || b == [] {
      NoElements(a);
      NoElements(b);
    } else {
      FirstIsLeast(a, b);
      FirstIsLeast(b, a);
      SortedFirst(a, b);
      RestElements(a);
      RestElements(b);
      SortedIsUnique(a[1..], b[1..]);
    }
  }

  lemma NoElements(a: seq<FunctionTool>)
    ensures Elements(a) == {} <==> a == []
  {
    if a != [] {
      assert a[0] in Elements(a);
    }
  }

  lemma FirstIsLeast(a: seq<FunctionTool>, b: seq<FunctionTool>)
    requires a != [] && b != [] && Sorted(b) && Elements(a) <= Elements(b)
    ensures a[0] == b[0] || Before(b[0].name, a[0].name)
  {
    assert a[0] in Elements(a);
    var k :| 0 <= k < |b| && b[k] == a[0];
  }

  lemma SortedFirst(a: seq<FunctionTool>, b: seq<FunctionTool>)
    requires a != [] && b != []
    requires a[0] == b[0] || Before(b[0].name, a[0].name)
    requires b[0] == a[0] || Before(a[0].name, b[0].name)
    ensures a[0] == b[0]
  {
    if Before(b[0].name, a[0].name) {
      BeforeIsAsymmetric(b[0].name, a[0].name);
    }
  }

  lemma RestElements(a: seq<FunctionTool>)
    requires a != [] && Sorted(a)
    ensures Elements(a[1..]) == Elements(a) - {a[0]} && Sorted(a[1..])
  {
    if a[0] in a[1..] {
      var k :| 0 <= k < |a[1..]| && a[1..][k] == a[0];
      assert Before(a[0].name, a[k + 1].name);
      BeforeIsStrict(a[0].name);
    }
    assert a == [a[0]] + a[1..];
  }

  lemma NormalNamesDiffer(tools: seq<RawTool>)
    requires DistinctNames(tools)
    ensures NamesDiffer(NormalTools(tools))
  {
  }

  /** What a toolset means: names, descriptions, strictness and the schemas as JSON values. */
  function Meaning(tools: seq<RawTool>): set<(string, string, Value, Option<bool>)> {
    set t | t in tools :: (t.name, t.description, Denote(Parameters(t)), t.strict)
  }

  lemma NormalIsMeaning(s: RawTool, t: RawTool)
    ensures NormalTool(s) == NormalTool(t) <==>
      (s.name, s.description, Denote(Parameters(s)), s.strict)
      == (t.name, t.description, Denote(Parameters(t)), t.strict)
  {
    CanonicalFormIsIdentity(Parameters(s), Parameters(t));
  }

  lemma SameMeaningIsSameElements(s: seq<RawTool>, t: seq<RawTool>)
    ensures Meaning(s) <= Meaning(t) <==> Elements(NormalTools(s)) <= Elements(NormalTools(t))
  {
    if Meaning(s) <= Meaning(t) {
      forall i | 0 <= i < |s|
        ensures NormalTools(s)[i] in Elements(NormalTools(t))
      {
        var x := s[i];
        assert (x.name, x.description, Denote(Parameters(x)), x.strict) in Meaning(s);
        var y :| y in t && (y.name, y.description, Denote(Parameters(y)), y.strict)
                        == (x.name, x.description, Denote(Parameters(x)), x.strict);
        NormalIsMeaning(x, y);
        var j :| 0 <= j < |t| && t[j] == y;
        assert NormalTools(t)[j] == NormalTool(y);
      }
    }
    if Elements(NormalTools(s)) <= Elements(NormalTools(t)) {
      forall x | x in s
        ensures (x.name, x.description, Denote(Parameters(x)), x.strict) in Meaning(t)
      {
        var i :| 0 <= i < |s| && s[i] == x;
        assert NormalTools(s)[i] in Elements(NormalTools(s));
        var j :| 0 <= j < |t| && NormalTools(t)[j] == NormalTool(x);
        NormalIsMeaning(x, t[j]);
        assert t[j] in t;
      }
    }
  }

  lemma SortedElements(tools: seq<RawTool>)
    requires DistinctNames(tools)
    ensures Sorted(SortTools(NormalTools(tools))) &&
      Elements(SortTools(NormalTools(tools))) == Elements(NormalTools(tools))
  {
    NormalNamesDiffer(tools);
    SortSorts(NormalTools(tools));
    forall x
      ensures x in SortTools(NormalTools(tools)) <==> x in NormalTools(tools)
    {
      assert x in multiset(SortTools(NormalTools(tools))) <==> x in multiset(NormalTools(tools));
    }
  }

  /** Two accepted toolsets have the same hash exactly when they mean the same. */
  lemma HashIsIdentity(s: seq<RawTool>, t: seq<RawTool>, c: Choice, d: Choice)
    requires NormalizedTools(s, c).Ok? && NormalizedTools(t, d).Ok?
    ensures NormalizedTools(s, c).value.hash == NormalizedTools(t, d).value.hash <==> Meaning(s) == Meaning(t)
  {
    hide NormalTools, Meaning, SortTools, PolicyFor;
    SortedElements(s);
    SortedElements(t);
    SameMeaningIsSameElements(s, t);
    SameMeaningIsSameElements(t, s);
    if Meaning(s) == Meaning(t) {
      SortedIsUnique(SortTools(NormalTools(s)), SortTools(NormalTools(t)));
    }
  }

  lemma {:induction false} CountedTwice<T>(s: seq<T>, x: T)
    ensures multiset(s)[x] >= 2 <==> exists a, b :: 0 <= a < b < |s| && s[a] == x && s[b] == x
  {
    if s != [] {
      var init, last := s[..|s| - 1], s[|s| - 1];
      assert s == init + [last];
      CountedTwice(init, x);
      if multiset(s)[x] >= 2 && multiset(init)[x] < 2 {
        assert x in multiset(init);
        var a :| 0 <= a < |init| && init[a] == x;
        assert s[a] == x && s[|s| - 1] == x;
      } else if multiset(init)[x] >= 2 {
        var a, b :| 0 <= a < b < |init| && init[a] == x && init[b] == x;
        assert s[a] == x && s[b] == x;
      }
      if a, b :| 0 <= a < b < |s| && s[a] == x && s[b] == x {
        assert init[a] == x && x in multiset(init);
        if b < |init| {
          assert init[b] == x;
        }
      }
    }
  }

  lemma PermutingKeepsDistinct(s: seq<RawTool>, t: seq<RawTool>)
    requires multiset(s) == multiset(t) && DistinctNames(s)
    ensures DistinctNames(t)
  {
    forall a, b | 0 <= a < b < |t|
      ensures t[a].name != t[b].name
    {
      if t[a] == t[b] {
        CountedTwice(t, t[a]);
        CountedTwice(s, t[a]);
      } else {
        assert t[a] in multiset(s) && t[b] in multiset(s);
        var i :| 0 <= i < |s| && s[i] == t[a];
        var j :| 0 <= j < |s| && s[j] == t[b];
      }
    }
  }

  /** The order in which a client lists its tools never matters: same list, hash and policy, or the same refusal. */
  lemma ToolOrderIsIrrelevant(s: seq<RawTool>, t: seq<RawTool>, choice: Choice)
    requires multiset(s) == multiset(t)
    ensures NormalizedTools(s, choice) == NormalizedTools(t, choice)
  {
    hide ValidTool, PolicyFor, NormalTools, SortTools;
    forall x
      ensures x in s <==> x in t
    {
      assert x in multiset(s) <==> x in multiset(t);
    }
    assert NamesOf(s) == NamesOf(t) && Meaning(s) == Meaning(t);
    if DistinctNames(s) {
      PermutingKeepsDistinct(s, t);
    }
    if DistinctNames(t) {
      PermutingKeepsDistinct(t, s);
    }
    if ValidTools(s) {
      SameMeaningIsSameElements(s, t);
      SameMeaningIsSameElements(t, s);
      SortedElements(s);
      SortedElements(t);
      SortedIsUnique(SortTools(NormalTools(s)), SortTools(NormalTools(t)));
    }
  }

  // Which tools are accepted, in terms of what their schemas mean.

  /** A member that decoding takes for the type: its key is spelt "type" in any case, and it is not null. */
  predicate GivesType(meaning: map<string, Value>, key: string) {
    key in meaning && IsTypeKey(key) && meaning[key] != VNull
  }

  /** Of several such members the one with the greatest key is decoded last. */
  ghost predicate LastType(meaning: map<string, Value>, key: string) {
    GivesType(meaning, key) && forall other | GivesType(meaning, other) && other != key :: Before(other, key)
  }

  lemma {:induction false} SchemaTypeMeans(members: Members, before: string) returns (from: Option<string>)
    requires CanonicalMembers(members)
    ensures var meaning, r := DenoteMembers(members), SchemaType(members, before);
      && (r.Ok? <==> forall key | GivesType(meaning, key) :: meaning[key].VText?)
      && (from.Some? ==> LastType(meaning, from.value))
      && (from.None? ==> forall key :: !GivesType(meaning, key))
      && (r.Ok? ==> if from.Some? then meaning[from.value] == VText(r.value) else r.value == before)
  {
    from := None;
    if members.Member? {
      var next := if IsTypeKey(members.key) && members.value.Text? then members.value.text else before;
      from := SchemaTypeMeans(members.rest, next);
      TypesOfRest(members);
      if from.Some? {
        FirstKeyIsLeast(members, from.value);
      } else if GivesType(DenoteMembers(members), members.key) {
        from := Some(members.key);
      }
    }
  }

  lemma TypesOfRest(members: Members)
    requires members.Member? && CanonicalMembers(members)
    ensures var meaning, rest := DenoteMembers(members), DenoteMembers(members.rest);
      && (forall key ::
            GivesType(meaning, key) <==> GivesType(rest, key) || (key == members.key && GivesType(meaning, key)))
      && (forall key | GivesType(rest, key) :: meaning[key] == rest[key])
      && members.key in meaning && meaning[members.key] == Denote(members.value)
  {
    RestDenotes(members);
  }

  lemma OneLastType(meaning: map<string, Value>, a: string, b: string)
    requires LastType(meaning, a) && LastType(meaning, b)
    ensures a == b
  {
    if a != b {
      BeforeIsAsymmetric(a, b);
    }
  }

  /**
   A tool is accepted exactly when it is a function with a valid name and its schema means an
   object in which whatever gives its type is text, and the type decoded last is "object".
   */
  lemma ToolIsValidExactly(t: RawTool)
    ensures ValidTool(t) <==>
      && t.kind == "function" && ValidName(t.name)
      && var schema := Denote(Parameters(t));
      && schema.VObject?
      && (forall key | GivesType(schema.members, key) :: schema.members[key].VText?)
      && exists key :: LastType(schema.members, key) && schema.members[key] == VText("object")
  {
    CanonKeepsMeaning(Parameters(t));
    if Canon(Parameters(t)).Object? {
      var meaning := DenoteMembers(Canon(Parameters(t)).members);
      var from := SchemaTypeMeans(Canon(Parameters(t)).members, "");
      forall a, b | LastType(meaning, a) && LastType(meaning, b)
        ensures a == b
      {
        OneLastType(meaning, a, b);
      }
    }
  }

  lemma NoParametersAreValid(kind: string, name: string, description: string, strict: Option<bool>)
    ensures ValidTool(RawTool(kind, name, description, None, strict)) <==> kind == "function" && ValidName(name)
  {
    var t := RawTool(kind, name, description, None, strict);
    var inner := Member("properties", Object(NoMember), NoMember);
    CanonKeepsMeaning(DEFAULT_SCHEMA);
    assert DEFAULT_SCHEMA.members == Member("type", Text("object"), inner);
    assert Denote(DEFAULT_SCHEMA) == VObject(DenoteMembers(DEFAULT_SCHEMA.members));
    assert DenoteMembers(inner).Keys == {"properties"};
    assert DenoteMembers(DEFAULT_SCHEMA.members).Keys == {"type", "properties"};
    assert Denote(Canon(DEFAULT_SCHEMA)) == VObject(DenoteMembers(Canon(DEFAULT_SCHEMA).members));
    assert LastType(DenoteMembers(DEFAULT_SCHEMA.members), "type");
    ToolIsValidExactly(t);
  }
}

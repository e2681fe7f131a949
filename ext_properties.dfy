/** Looking up the description of a schema element among the database's
    extended properties (ThisDocument.GetExtPropertyDescription). */
module ExtendedProperties {
  import opened Results
  import opened Strings

  /** An extended property: its name as text, its name as hierarchical parts
      (`[kind].[schema].[object]...`), and its value as text. */
  datatype ExtProperty = ExtProperty(fullName: string, parts: seq<string>, value: string)

  /** The search can copy the first |key| name parts of `p`. */
  predicate Reaches(key: seq<string>, p: ExtProperty) {
    |key| <= |p.parts|
  }

  /** The first |key| name parts of `p` are `key`. */
  predicate Matches(key: seq<string>, p: ExtProperty) {
    Reaches(key, p) && p.parts[..|key|] == key
  }

  /** Every property before index `k` was examined without failing and did not match. */
  predicate PassedOver(key: seq<string>, props: seq<ExtProperty>, k: nat)
    requires k <= |props|
  {
    forall j :: 0 <= j < k ==> Reaches(key, props[j]) && !Matches(key, props[j])
  }

  /** The predicate given to FirstOrDefault: copy |key| parts, then compare. */
  function PrefixTest(key: seq<string>, p: ExtProperty): Result<bool> {
    if |p.parts| < |key| then Err(IndexOutOfRange) else Ok(p.parts[..|key|] == key)
  }

  /** FirstOrDefault over the properties in order. */
  function FindFirst(key: seq<string>, props: seq<ExtProperty>): Result<Option<ExtProperty>>
    decreases |props|
  {
    if props == [] then Ok(None)
    else
      var hit :- PrefixTest(key, props[0]);
      if hit then Ok(Some(props[0])) else FindFirst(key, props[1..])
  }

  /** The value starts with `N'` and ends with `'` (SQL national-string quoting). */
  predicate IsNQuoted(s: string) {
    StartsWith(s, "N'") && EndsWith(s, "'")
  }

  function Quote(t: string): string {
    "N'" + t + "'"
  }

  /** Strips `N'...'` quoting; fails on the two-character value `N'`, for
      which the substring length would be negative. */
  function Unquote(s: string): (r: Result<string>)
    ensures r.Err? <==> s == "N'"
    ensures r.Err? ==> r.error == SubstringOutOfRange
    ensures IsNQuoted(s) && r.Ok? ==> |r.value| == |s| - 3 && Quote(r.value) == s
    ensures !IsNQuoted(s) ==> r == Ok(s)
  {
    if IsNQuoted(s) then
      if |s| - 3 < 0 then Err(SubstringOutOfRange) else Ok(s[2..|s| - 1])
    else Ok(s)
  }

  /** The description: the first matching property's value, or the empty
      string, unquoted. */
  function Description(key: seq<string>, props: seq<ExtProperty>): Result<string> {
    var found :- FindFirst(key, props);
    var text := match found case Some(p) => p.value case None => "";
    Unquote(text)
  }

  lemma UnquoteQuote(t: string)
    ensures Unquote(Quote(t)) == Ok(t)
  {
    var s := Quote(t);
    assert s[..2] == "N'";
    assert s[|s| - 1..] == "'";
    assert s[2..|s| - 1] == t;
  }

  /** The first property, in list order, whose leading parts equal `key` is
      the one found, provided every property before it could be examined. */
  lemma {:induction false} FindFirstFound(key: seq<string>, props: seq<ExtProperty>, k: nat)
    requires k < |props| && Matches(key, props[k]) && PassedOver(key, props, k)
    ensures FindFirst(key, props) == Ok(Some(props[k]))
    decreases k
  {
    if k > 0 {
      FindFirstFound(key, props[1..], k - 1);
    }
  }

  /** With no match among properties that can all be examined, nothing is found. */
  lemma {:induction false} FindFirstAbsent(key: seq<string>, props: seq<ExtProperty>)
    requires PassedOver(key, props, |props|)
    ensures FindFirst(key, props) == Ok(None)
    decreases |props|
  {
    if props != [] {
      FindFirstAbsent(key, props[1..]);
    }
  }

  /** A property with fewer than |key| parts reached before any match fails the search. */
  lemma {:induction false} FindFirstFails(key: seq<string>, props: seq<ExtProperty>, k: nat)
    requires k < |props| && !Reaches(key, props[k]) && PassedOver(key, props, k)
    ensures FindFirst(key, props) == Err(IndexOutOfRange)
    decreases k
  {
    if k > 0 {
      FindFirstFails(key, props[1..], k - 1);
    }
  }

  /** Nothing is found only when every property can be examined and none matches. */
  lemma {:induction false} FindFirstNone(key: seq<string>, props: seq<ExtProperty>)
    requires FindFirst(key, props) == Ok(None)
    ensures PassedOver(key, props, |props|)
    decreases |props|
  {
    if props != [] {
      var rest := props[1..];
      FindFirstNone(key, rest);
      assert forall j :: 0 <= j < |rest| ==> rest[j] == props[j + 1];
    }
  }

  /** What is found is a matching property with only non-matching ones before it. */
  lemma {:induction false} FindFirstSome(key: seq<string>, props: seq<ExtProperty>)
    requires FindFirst(key, props).Ok? && FindFirst(key, props).value.Some?
    ensures exists k :: 0 <= k < |props| && props[k] == FindFirst(key, props).value.value &&
                        Matches(key, props[k]) && PassedOver(key, props, k)
    decreases |props|
  {
    if !Matches(key, props[0]) {
      var rest := props[1..];
      FindFirstSome(key, rest);
      var k :| 0 <= k < |rest| && rest[k] == FindFirst(key, rest).value.value &&
               Matches(key, rest[k]) && PassedOver(key, rest, k);
      assert props[k + 1] == rest[k];
      assert forall j :: 0 <= j < k ==> rest[j] == props[j + 1];
    }
  }

  /** A failure comes from a property too short to compare, with only
      non-matching ones before it. */
  lemma {:induction false} FindFirstErr(key: seq<string>, props: seq<ExtProperty>)
    requires FindFirst(key, props).Err?
    ensures FindFirst(key, props).error == IndexOutOfRange
    ensures exists k :: 0 <= k < |props| && !Reaches(key, props[k]) && PassedOver(key, props, k)
    decreases |props|
  {
    if Reaches(key, props[0]) {
      var rest := props[1..];
      FindFirstErr(key, rest);
      var k :| 0 <= k < |rest| && !Reaches(key, rest[k]) && PassedOver(key, rest, k);
      assert props[k + 1] == rest[k];
      assert forall j :: 0 <= j < k ==> rest[j] == props[j + 1];
    }
  }

  /** Conversely, each outcome of the search is explained by one of the three cases. */
  lemma FindFirstCases(key: seq<string>, props: seq<ExtProperty>)
    ensures FindFirst(key, props) == Ok(None) ==> PassedOver(key, props, |props|)
    ensures FindFirst(key, props).Ok? && FindFirst(key, props).value.Some? ==>
              exists k :: 0 <= k < |props| && props[k] == FindFirst(key, props).value.value &&
                          Matches(key, props[k]) && PassedOver(key, props, k)
    ensures FindFirst(key, props).Err? ==>
              FindFirst(key, props).error == IndexOutOfRange &&
              exists k :: 0 <= k < |props| && !Reaches(key, props[k]) && PassedOver(key, props, k)
  {
    match FindFirst(key, props)
    case Ok(None) => FindFirstNone(key, props);
    case Ok(Some(_)) => FindFirstSome(key, props);
    case Err(_) => FindFirstErr(key, props);
  }

  /** The description of the first match is its unquoted value. */
  lemma DescriptionOfMatch(key: seq<string>, props: seq<ExtProperty>, k: nat)
    requires k < |props| && Matches(key, props[k]) && PassedOver(key, props, k)
    ensures Description(key, props) == Unquote(props[k].value)
  {
    FindFirstFound(key, props, k);
  }

  /** Without a match the description is empty. */
  lemma DescriptionAbsent(key: seq<string>, props: seq<ExtProperty>)
    requires PassedOver(key, props, |props|)
    ensures Description(key, props) == Ok("")
  {
    FindFirstAbsent(key, props);
  }

  /** The lookup fails only by a short property name or by the value `N'`. */
  lemma DescriptionFaults(key: seq<string>, props: seq<ExtProperty>)
    ensures Description(key, props).Err? ==>
              Description(key, props).error == IndexOutOfRange || Description(key, props).error == SubstringOutOfRange
  {
    FindFirstCases(key, props);
  }

  /** The imperative lookup: scan the properties in order, copying the first
      |subBranches| name parts of each and comparing them with the key. */
  method GetExtPropertyDescription(subBranches: seq<string>, allExtProperties: seq<ExtProperty>)
    returns (r: Result<string>)
    ensures r == Description(subBranches, allExtProperties)
  {
    var property: Option<ExtProperty> := None;
    var n := 0;
    while n < |allExtProperties| && property.None?
      invariant 0 <= n <= |allExtProperties|
      invariant property.None? ==>
                  FindFirst(subBranches, allExtProperties) == FindFirst(subBranches, allExtProperties[n..])
      invariant property.Some? ==> FindFirst(subBranches, allExtProperties) == Ok(property)
      decreases |allExtProperties| - n, property.None?
    {
      var p := allExtProperties[n];
      assert allExtProperties[n..][0] == p && allExtProperties[n..][1..] == allExtProperties[n + 1..];
      var branches: seq<string> := [];
      for i := 0 to |subBranches|
        invariant i <= |p.parts| && branches == p.parts[..i]
      {
        if i >= |p.parts| {
          return Err(IndexOutOfRange);
        }
        branches := branches + [p.parts[i]];
      }
      if subBranches == branches {
        property := Some(p);
      } else {
        n := n + 1;
      }
    }
    var description := if property.Some? then property.value.value else "";
    if StartsWith(description, "N'") && EndsWith(description, "'") {
      if |description| - 3 < 0 {
        return Err(SubstringOutOfRange);
      }
      return Ok(description[2..|description| - 1]);
    }
    return Ok(description);
  }
}

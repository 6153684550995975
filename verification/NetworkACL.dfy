/** Comparing a desired network ACL with an observed one: normalization, then structural equality. */
module NetworkACLs {
  import opened JSONKeys
  import opened Sorting

  /** Go tells a nil slice or map from an empty one, and so does reflect.DeepEqual. */
  datatype Slice<T> = NilSlice | Slice(items: seq<T>)
  datatype StringMap = NilMap | StringMap(entries: map<string, string>)

  datatype Rule = Rule(
    action: string, source: string, destination: string, protocol: string, sourcePort: string,
    destinationPort: string, icmpType: string, icmpCode: string, description: string, state: string)

  datatype NetworkACL = NetworkACL(description: string, config: StringMap, ingress: Slice<Rule>, egress: Slice<Rule>)

  function Items<T>(s: Slice<T>): seq<T> {
    if s.NilSlice? then [] else s.items
  }

  function Entries(m: StringMap): map<string, string> {
    if m.NilMap? then map[] else m.entries
  }

  // ---- The sort key -----------------------------------------------------------------------------------

  /** The JSON names of a rule's fields, in order; all but the first and the last are left out when empty. */
  const NAMES: seq<string> := [
    "action", "source", "destination", "protocol", "source_port",
    "destination_port", "icmp_type", "icmp_code", "description", "state"]

  function FieldValues(r: Rule): (values: seq<string>)
    ensures |values| == |NAMES|
  {
    [r.action, r.source, r.destination, r.protocol, r.sourcePort,
     r.destinationPort, r.icmpType, r.icmpCode, r.description, r.state]
  }

  predicate Omitted(i: nat, value: string) {
    0 < i < |NAMES| - 1 && value == ""
  }

  function Members(values: seq<string>, i: nat): seq<Member>
    requires |values| == |NAMES| && i <= |NAMES|
    decreases |NAMES| - i
  {
    if i == |NAMES| then []
    else (if Omitted(i, values[i]) then [] else [Member(NAMES[i], values[i])]) + Members(values, i + 1)
  }

  /** ruleSortKey: the rule's JSON encoding. */
  function RuleSortKey(r: Rule): string {
    Object(Members(FieldValues(r), 0))
  }

  lemma NamesDistinct(i: nat, j: nat)
    requires i < j < |NAMES|
    ensures NAMES[i] != NAMES[j]
  {
    assert |NAMES[0]| == 6 && |NAMES[1]| == 6 && |NAMES[2]| == 11 && |NAMES[3]| == 8 && |NAMES[4]| == 11;
    assert |NAMES[5]| == 16 && |NAMES[6]| == 9 && |NAMES[7]| == 9 && |NAMES[8]| == 11 && |NAMES[9]| == 5;
    assert NAMES[0][0] == 'a' && NAMES[1][0] == 's' && NAMES[2][2] == 's' && NAMES[4][2] == 'u' && NAMES[8][3] == 'c';
    assert NAMES[2][3] == 't' && NAMES[6][5] == 't' && NAMES[7][5] == 'c';
  }

  /** The first member written from position i on bears the name of a field from there on. */
  lemma {:induction false} FirstMember(values: seq<string>, i: nat)
    requires |values| == |NAMES| && i <= |NAMES| && Members(values, i) != []
    ensures exists k | i <= k < |NAMES| :: Members(values, i)[0].name == NAMES[k]
    decreases |NAMES| - i
  {
    if Omitted(i, values[i]) {
      FirstMember(values, i + 1);
    }
  }

  lemma NotFirst(values: seq<string>, i: nat)
    requires |values| == |NAMES| && i < |NAMES| && Members(values, i + 1) != []
    ensures Members(values, i + 1)[0].name != NAMES[i]
  {
    FirstMember(values, i + 1);
    var k :| i + 1 <= k < |NAMES| && Members(values, i + 1)[0].name == NAMES[k];
    NamesDistinct(i, k);
  }

  lemma {:induction false} MembersInjective(a: seq<string>, b: seq<string>, i: nat)
    requires |a| == |b| == |NAMES| && i <= |NAMES| && Members(a, i) == Members(b, i)
    ensures a[i..] == b[i..]
    decreases |NAMES| - i
  {
    hide Members;
    if i < |NAMES| {
      FieldShown(a, i);
      FieldShown(b, i);
      assert a[i] == b[i] && Members(a, i + 1) == Members(b, i + 1);
      MembersInjective(a, b, i + 1);
      assert a[i..] == [a[i]] + a[i + 1..] && b[i..] == [b[i]] + b[i + 1..];
    }
  }

  /** Whether field i was written, and with what value, can be read off the members from there on. */
  lemma FieldShown(values: seq<string>, i: nat)
    requires |values| == |NAMES| && i < |NAMES|
    ensures var shown := Members(values, i);
            if shown != [] && shown[0].name == NAMES[i]
            then values[i] == shown[0].value && Members(values, i + 1) == shown[1..]
            else values[i] == "" && Members(values, i + 1) == shown
  {
    if Omitted(i, values[i]) {
      if Members(values, i + 1) != [] {
        NotFirst(values, i);
      }
    } else {
      assert Members(values, i)[1..] == Members(values, i + 1);
    }
  }

  lemma FieldValuesInjective(r: Rule, t: Rule)
    requires FieldValues(r) == FieldValues(t)
    ensures r == t
  {
    var a, b := FieldValues(r), FieldValues(t);
    assert r.action == a[0] && r.source == a[1] && r.destination == a[2] && r.protocol == a[3] && r.sourcePort == a[4];
    assert t.action == b[0] && t.source == b[1] && t.destination == b[2] && t.protocol == b[3] && t.sourcePort == b[4];
  }

  /** The sort key tells any two rules apart. */
  lemma RuleSortKeyInjective(r: Rule, t: Rule)
    requires RuleSortKey(r) == RuleSortKey(t)
    ensures r == t
  {
    hide FieldValues, Object;
    var a, b := FieldValues(r), FieldValues(t);
    ObjectInjective(Members(a, 0), Members(b, 0));
    MembersInjective(a, b, 0);
    assert a == a[0..] == b[0..] == b;
    FieldValuesInjective(r, t);
  }

  lemma RulesDistinguished(rules: seq<Rule>)
    ensures KeysDistinguish(rules, RuleSortKey)
  {
    forall x, y | x in rules && y in rules && RuleSortKey(x) == RuleSortKey(y) ensures x == y {
      RuleSortKeyInjective(x, y);
    }
  }

  // ---- Normalization and comparison -------------------------------------------------------------------

  /** normalizeRules: a sorted copy, never nil. */
  method NormalizeRules(rules: Slice<Rule>) returns (normalized: Slice<Rule>)
    ensures NormalizedRules(rules, normalized)
  {
    var sorted := SortBy(Items(rules), RuleSortKey);
    normalized := Slice(sorted);
  }

  ghost predicate NormalizedRules(rules: Slice<Rule>, normalized: Slice<Rule>) {
    && normalized.Slice?
    && SortedBy(normalized.items, RuleSortKey)
    && multiset(normalized.items) == multiset(Items(rules))
  }

  /** normalizeNetworkACL, for whatever order the unstable sort leaves ties in. */
  ghost predicate Normalized(acl: NetworkACL, n: NetworkACL) {
    && n.description == acl.description
    && n.config == StringMap(Entries(acl.config))
    && NormalizedRules(acl.ingress, n.ingress)
    && NormalizedRules(acl.egress, n.egress)
  }

  method NormalizeNetworkACL(acl: NetworkACL) returns (n: NetworkACL)
    ensures Normalized(acl, n)
  {
    var ingress := NormalizeRules(acl.ingress);
    var egress := NormalizeRules(acl.egress);
    n := NetworkACL(acl.description, StringMap(Entries(acl.config)), ingress, egress);
  }

  /** The same rules in any order; a nil list has none. */
  ghost predicate SameRules(a: Slice<Rule>, b: Slice<Rule>) {
    match (a, b)
    case (NilSlice, NilSlice) => true
    case (NilSlice, Slice(rules)) => rules == []
    case (Slice(rules), NilSlice) => rules == []
    case (Slice(x), Slice(y)) => forall rule :: multiset(x)[rule] == multiset(y)[rule]
  }

  /** The same entries; a nil map has none. */
  ghost predicate SameConfig(a: StringMap, b: StringMap) {
    match (a, b)
    case (NilMap, NilMap) => true
    case (NilMap, StringMap(entries)) => entries == map[]
    case (StringMap(entries), NilMap) => entries == map[]
    case (StringMap(x), StringMap(y)) => x == y
  }

  /** What the comparison is for: the same settings and the same rules in any order, nil counting as empty. */
  ghost predicate SameACL(a: NetworkACL, b: NetworkACL) {
    && a.description == b.description && SameConfig(a.config, b.config)
    && SameRules(a.ingress, b.ingress) && SameRules(a.egress, b.egress)
  }

  lemma SameRulesAsMultisets(a: Slice<Rule>, b: Slice<Rule>)
    ensures SameRules(a, b) <==> multiset(Items(a)) == multiset(Items(b))
  {
    if a.NilSlice? && b.Slice? && b.items != [] {
      assert b.items[0] in multiset(b.items);
    } else if a.Slice? && b.NilSlice? && a.items != [] {
      assert a.items[0] in multiset(a.items);
    }
  }

  lemma NormalizedRulesEqual(a: Slice<Rule>, b: Slice<Rule>, na: Slice<Rule>, nb: Slice<Rule>)
    requires NormalizedRules(a, na) && NormalizedRules(b, nb)
    requires multiset(Items(a)) == multiset(Items(b))
    ensures na == nb
  {
    RulesDistinguished(na.items);
    SortedPermutationsEqual(na.items, nb.items, RuleSortKey);
  }

  /** Normalized ACLs compare equal if and only if they are the same ACL up to rule order. */
  lemma ComparisonDecidesSameness(a: NetworkACL, b: NetworkACL, na: NetworkACL, nb: NetworkACL)
    requires Normalized(a, na) && Normalized(b, nb)
    ensures na == nb <==> SameACL(a, b)
  {
    SameRulesAsMultisets(a.ingress, b.ingress);
    SameRulesAsMultisets(a.egress, b.egress);
    if SameACL(a, b) {
      NormalizedRulesEqual(a.ingress, b.ingress, na.ingress, nb.ingress);
      NormalizedRulesEqual(a.egress, b.egress, na.egress, nb.egress);
    }
  }

  /** compareResource on two normalized ACLs. */
  method HasDrift(expected: NetworkACL, actual: NetworkACL) returns (drift: bool)
    ensures drift <==> !SameACL(expected, actual)
  {
    var e := NormalizeNetworkACL(expected);
    var a := NormalizeNetworkACL(actual);
    drift := e != a;
    ComparisonDecidesSameness(expected, actual, e, a);
  }
}

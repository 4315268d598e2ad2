/**
 JSON trees (objects as in section 4 of RFC 8259) and the canonical form that the gateway
 uses as the identity of schemas and tool arguments. A tree is one parsed JSON text: key
 order and repeated keys are still visible in it, number literals are kept verbatim.
 */
module Json {
  import opened Ordering

  datatype Tree =
    | Null
    | Bool(truth: bool)
    | Number(literal: string)
    | Text(text: string)
    | Array(items: Items)
    | Object(members: Members)

  datatype Items = NoItem | Item(head: Tree, tail: Items)

  datatype Members = NoMember | Member(key: string, value: Tree, rest: Members)

  /** What a text means: objects are maps from keys to values, a repeated key keeps its last value. */
  datatype Value =
    | VNull
    | VBool(truth: bool)
    | VNumber(literal: string)
    | VText(text: string)
    | VArray(items: seq<Value>)
    | VObject(members: map<string, Value>)

  function Denote(t: Tree): Value {
    match t
    case Null => VNull
    case Bool(b) => VBool(b)
    case Number(n) => VNumber(n)
    case Text(s) => VText(s)
    case Array(items) => VArray(DenoteItems(items))
    case Object(members) => VObject(DenoteMembers(members))
  }

  function DenoteItems(items: Items): seq<Value> {
    match items
    case NoItem => []
    case Item(head, tail) => [Denote(head)] + DenoteItems(tail)
  }

  function DenoteMembers(members: Members): map<string, Value> {
    match members
    case NoMember => map[]
    case Member(key, value, rest) => map[key := Denote(value)] + DenoteMembers(rest)
  }

  // Decoding into Go maps and encoding them again: later duplicates win and keys come out sorted.

  function Canon(t: Tree): Tree {
    match t
    case Array(items) => Array(CanonItems(items))
    case Object(members) => Object(CanonMembers(members))
    case _ => t
  }

  function CanonItems(items: Items): Items {
    match items
    case NoItem => NoItem
    case Item(head, tail) => Item(Canon(head), CanonItems(tail))
  }

  function CanonMembers(members: Members): Members {
    match members
    case NoMember => NoMember
    case Member(key, value, rest) =>
      var later := CanonMembers(rest);
      if HasKey(later, key) then later else Insert(key, Canon(value), later)
  }

  predicate HasKey(members: Members, key: string) {
    members.Member? && (members.key == key || HasKey(members.rest, key))
  }

  function Insert(key: string, value: Tree, members: Members): Members {
    if members.NoMember? || Before(key, members.key) then Member(key, value, members)
    else Member(members.key, members.value, Insert(key, value, members.rest))
  }

  // Canonical trees: keys strictly increasing at every level.

  predicate Canonical(t: Tree) {
    match t
    case Array(items) => CanonicalItems(items)
    case Object(members) => CanonicalMembers(members)
    case _ => true
  }

  predicate CanonicalItems(items: Items) {
    items.Item? ==> Canonical(items.head) && CanonicalItems(items.tail)
  }

  predicate CanonicalMembers(members: Members) {
    members.Member? ==>
      && Canonical(members.value)
      && CanonicalMembers(members.rest)
      && (members.rest.Member? ==> Before(members.key, members.rest.key))
  }

  lemma {:induction false} HasKeyIsDomain(members: Members, key: string)
    ensures HasKey(members, key) <==> key in DenoteMembers(members)
  {
    if members.Member? {
      HasKeyIsDomain(members.rest, key);
    }
  }

  /** In a canonical object the first key precedes every other key. */
  lemma {:induction false} FirstKeyIsLeast(members: Members, key: string)
    requires members.Member? && CanonicalMembers(members) && key in DenoteMembers(members.rest)
    ensures Before(members.key, key)
  {
    var rest := members.rest;
    if key != rest.key {
      FirstKeyIsLeast(rest, key);
      BeforeIsTransitive(members.key, rest.key, key);
    }
  }

  lemma {:induction false} InsertKeepsCanonical(key: string, value: Tree, members: Members)
    requires CanonicalMembers(members) && Canonical(value) && !HasKey(members, key)
    ensures CanonicalMembers(Insert(key, value, members))
  {
    if members.Member? && !Before(key, members.key) {
      BeforeIsTotal(key, members.key);
      InsertKeepsCanonical(key, value, members.rest);
      assert members.rest.Member? ==> Insert(key, value, members.rest).key in {key, members.rest.key};
    }
  }

  lemma {:induction false} InsertDenotes(key: string, value: Tree, members: Members)
    requires !HasKey(members, key)
    ensures DenoteMembers(Insert(key, value, members)) == DenoteMembers(members)[key := Denote(value)]
  {
    hide Denote, Before;
    if members.NoMember? || Before(key, members.key) {
      HasKeyIsDomain(members, key);
    } else {
      InsertDenotes(key, value, members.rest);
      UpdateAfterMerge(map[members.key := Denote(members.value)], DenoteMembers(members.rest), key, Denote(value));
    }
  }

  lemma UpdateAfterMerge<K, V>(a: map<K, V>, b: map<K, V>, k: K, v: V)
    ensures a + b[k := v] == (a + b)[k := v]
  {
  }

  /** Canonicalisation keeps the meaning and yields a canonical tree. */
  lemma {:induction false} CanonKeepsMeaning(t: Tree)
    ensures Canonical(Canon(t)) && Denote(Canon(t)) == Denote(t)
  {
    match t
    case Array(items) => CanonItemsKeepMeaning(items);
    case Object(members) => CanonMembersKeepMeaning(members);
    case _ =>
  }

  lemma {:induction false} CanonItemsKeepMeaning(items: Items)
    ensures CanonicalItems(CanonItems(items)) && DenoteItems(CanonItems(items)) == DenoteItems(items)
  {
    if items.Item? {
      CanonKeepsMeaning(items.head);
      CanonItemsKeepMeaning(items.tail);
    }
  }

  lemma {:induction false} CanonMembersKeepMeaning(members: Members)
    ensures CanonicalMembers(CanonMembers(members))
    ensures DenoteMembers(CanonMembers(members)) == DenoteMembers(members)
  {
    if members.Member? {
      var later := CanonMembers(members.rest);
      CanonKeepsMeaning(members.value);
      CanonMembersKeepMeaning(members.rest);
      HasKeyIsDomain(later, members.key);
      if !HasKey(later, members.key) {
        InsertKeepsCanonical(members.key, Canon(members.value), later);
        InsertDenotes(members.key, Canon(members.value), later);
      }
    }
  }

  /** A value has one canonical tree. */
  lemma {:induction false} CanonicalIsUnique(a: Tree, b: Tree)
    requires Canonical(a) && Canonical(b) && Denote(a) == Denote(b)
    ensures a == b
  {
    match a
    case Array(items) => CanonicalItemsUnique(items, b.items);
    case Object(members) => CanonicalMembersUnique(members, b.members);
    case _ =>
  }

  lemma {:induction false} CanonicalItemsUnique(a: Items, b: Items)
    requires CanonicalItems(a) && CanonicalItems(b) && DenoteItems(a) == DenoteItems(b)
    ensures a == b
  {
    if a.Item? {
      assert DenoteItems(a)[0] == Denote(a.head) && DenoteItems(b)[0] == Denote(b.head);
      assert DenoteItems(a)[1..] == DenoteItems(a.tail) && DenoteItems(b)[1..] == DenoteItems(b.tail);
      CanonicalIsUnique(a.head, b.head);
      CanonicalItemsUnique(a.tail, b.tail);
    }
  }

  lemma {:induction false} CanonicalMembersUnique(a: Members, b: Members)
    requires CanonicalMembers(a) && CanonicalMembers(b) && DenoteMembers(a) == DenoteMembers(b)
    ensures a == b
  {
    OnlyEmptyDenotesEmpty(a);
    OnlyEmptyDenotesEmpty(b);
    if a.Member? && b.Member? {
      SameFirstKey(a, b);
      RestDenotes(a);
      RestDenotes(b);
      CanonicalIsUnique(a.value, b.value);
      CanonicalMembersUnique(a.rest, b.rest);
    }
  }

  lemma OnlyEmptyDenotesEmpty(m: Members)
    ensures m.NoMember? <==> DenoteMembers(m) == map[]
  {
    if m.Member? {
      assert m.key in DenoteMembers(m);
    }
  }

  lemma SameFirstKey(a: Members, b: Members)
    requires a.Member? && b.Member? && CanonicalMembers(a) && CanonicalMembers(b)
    requires DenoteMembers(a).Keys == DenoteMembers(b).Keys
    ensures a.key == b.key
  {
    if a.key != b.key {
      assert a.key in DenoteMembers(a) && b.key in DenoteMembers(b);
      FirstKeyIsLeast(b, a.key);
      FirstKeyIsLeast(a, b.key);
      BeforeIsAsymmetric(a.key, b.key);
    }
  }

  lemma RestDenotes(m: Members)
    requires m.Member? && CanonicalMembers(m)
    ensures DenoteMembers(m.rest) == DenoteMembers(m) - {m.key}
    ensures DenoteMembers(m)[m.key] == Denote(m.value)
  {
    if m.key in DenoteMembers(m.rest) {
      FirstKeyIsLeast(m, m.key);
      BeforeIsStrict(m.key);
    }
  }

  /** Two texts have the same canonical form exactly when they mean the same value. */
  lemma CanonicalFormIsIdentity(a: Tree, b: Tree)
    ensures Canon(a) == Canon(b) <==> Denote(a) == Denote(b)
  {
    CanonKeepsMeaning(a);
    CanonKeepsMeaning(b);
    if Denote(a) == Denote(b) {
      CanonicalIsUnique(Canon(a), Canon(b));
    }
  }

  lemma CanonIsIdempotent(t: Tree)
    ensures Canon(Canon(t)) == Canon(t)
  {
    CanonKeepsMeaning(t);
    CanonicalFormIsIdentity(Canon(t), t);
  }

  /** Exchanging two neighbouring members with different keys never changes the canonical form. */
  lemma KeyOrderIsIrrelevant(k1: string, v1: Tree, k2: string, v2: Tree, rest: Members)
    requires k1 != k2
    ensures Canon(Object(Member(k1, v1, Member(k2, v2, rest)))) == Canon(Object(Member(k2, v2, Member(k1, v1, rest))))
  {
    var a, b := Member(k1, v1, Member(k2, v2, rest)), Member(k2, v2, Member(k1, v1, rest));
    assert DenoteMembers(a) == DenoteMembers(b);
    CanonicalFormIsIdentity(Object(a), Object(b));
  }
}

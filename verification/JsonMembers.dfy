/** The members of a JSON object: in key order, all of them, and no key twice. */
module JsonMembers {
  import opened Wrappers
  import opened Bytes
  import opened Json

  ghost function Keys(ms: Members): multiset<seq<Byte>> {
    match ms case NoMore => multiset{} case Member(key, _, rest) => multiset{key} + Keys(rest)
  }

  ghost function Pairs(ms: Members): multiset<(seq<Byte>, Value)> {
    match ms case NoMore => multiset{} case Member(key, value, rest) => multiset{(key, value)} + Pairs(rest)
  }

  /** Some key occurs more than once. */
  ghost predicate Repeats(ms: Members) { exists key :: Keys(ms)[key] > 1 }

  /** No key is less than the one before it. */
  ghost predicate Ascend(ms: Members) {
    ms.Member? && ms.rest.Member? ==> !TextLess(ms.rest.key, ms.key) && Ascend(ms.rest)
  }

  // ----- the order of keys -----

  lemma {:induction false} Comparable(a: seq<Byte>, b: seq<Byte>)
    requires !TextLess(a, b) && !TextLess(b, a)
    ensures a == b
  {
    if a != [] && b != [] {
      Comparable(a[1..], b[1..]);
      assert a == [a[0]] + a[1..] && b == [b[0]] + b[1..];
    }
  }

  lemma {:induction false} Transitive(a: seq<Byte>, b: seq<Byte>, c: seq<Byte>)
    requires !TextLess(b, a) && !TextLess(c, b)
    ensures !TextLess(c, a)
  {
    if a != [] && b != [] && c != [] && a[0] == b[0] == c[0] { Transitive(a[1..], b[1..], c[1..]); }
  }

  // ----- sorting -----

  lemma {:induction false} InsertKeeps(key: seq<Byte>, value: Value, ms: Members)
    ensures var r := InsertMember(key, value, ms);
      Pairs(r) == Pairs(ms) + multiset{(key, value)} && Keys(r) == Keys(ms) + multiset{key}
  {
    hide TextLess;
    if ms.Member? && TextLess(ms.key, key) { InsertKeeps(key, value, ms.rest); }
  }

  lemma {:induction false} InsertAscends(key: seq<Byte>, value: Value, ms: Members)
    requires Ascend(ms)
    ensures var r := InsertMember(key, value, ms);
      Ascend(r) && r.Member? && (r.key == key || (ms.Member? && r.key == ms.key && TextLess(ms.key, key)))
  {
    hide TextLess;
    if ms.Member? && TextLess(ms.key, key) {
      InsertAscends(key, value, ms.rest);
      TextLessAsymmetric(ms.key, key);
    }
  }

  lemma NothingAscends()
    ensures Ascend(NoMore)
  {
  }

  lemma {:induction false} SortKeeps(ms: Members)
    ensures var r := SortMembers(ms); Ascend(r) && Pairs(r) == Pairs(ms) && Keys(r) == Keys(ms)
  {
    hide Ascend, InsertMember;
    if ms == NoMore {
      NothingAscends();
    } else {
      var rest := SortMembers(ms.rest);
      SortKeeps(ms.rest);
      InsertKeeps(ms.key, ms.value, rest);
      InsertAscends(ms.key, ms.value, rest);
    }
  }

  /** In ascending order a key that comes again comes next. */
  lemma {:induction false} ComesNext(ms: Members, key: seq<Byte>)
    requires ms.Member? && Ascend(ms) && !TextLess(ms.key, key) && key in Keys(ms)
    ensures ms.key == key
  {
    if ms.key != key {
      var next := ms.rest;
      assert key in Keys(next);
      Transitive(key, ms.key, next.key);
      ComesNext(next, key);
      Comparable(key, ms.key);
    }
  }

  lemma {:induction false} DuplicatesFound(ms: Members)
    requires Ascend(ms)
    ensures HasDuplicate(ms) <==> Repeats(ms)
  {
    if ms.Member? {
      DuplicatesFound(ms.rest);
      var first, later := multiset{ms.key}, Keys(ms.rest);
      assert Keys(ms) == first + later;
      if ms.rest.Member? && ms.key == ms.rest.key { assert (first + later)[ms.key] > 1; }
      if key :| later[key] > 1 { assert (first + later)[key] > 1; }
      if key :| (first + later)[key] > 1 && later[key] <= 1 {
        assert key == ms.key && key in Keys(ms.rest);
        ComesNext(ms.rest, key);
      }
    }
  }

  lemma {:induction false} AscendStrictly(ms: Members)
    requires Ascend(ms) && !HasDuplicate(ms)
    ensures KeysRise(ms)
  {
    if ms.Member? && ms.rest.Member? {
      AscendStrictly(ms.rest);
      if !TextLess(ms.key, ms.rest.key) { Comparable(ms.key, ms.rest.key); }
    }
  }

  /** Members are refused exactly if a key occurs twice among them; otherwise the object holds all of them,
      in strictly ascending order of their keys. */
  lemma ObjectHolds(text: seq<Byte>, depth: nat, lim: Limits, p: ParsedMembers)
    requires Skip(text) == [] || Skip(text)[0] != CLOSE_OBJECT
    requires ParseMembers(Skip(text), 0, depth, lim) == Some(p)
    ensures Json.ParseObject(text, depth, lim) == None <==> Repeats(p.members)
    ensures !Repeats(p.members) ==>
      exists ms: Members ::
        && Json.ParseObject(text, depth, lim) == Some(Parsed(Obj(ms), p.rest))
        && KeysRise(ms) && Pairs(ms) == Pairs(p.members)
  {
    hide ParseMembers, SortMembers, HasDuplicate, KeysRise;
    SortKeeps(p.members);
    var sorted := SortMembers(p.members);
    DuplicatesFound(sorted);
    if !HasDuplicate(sorted) {
      AscendStrictly(sorted);
      assert KeysRise(sorted) && Pairs(sorted) == Pairs(p.members);
    }
  }
}

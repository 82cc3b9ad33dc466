/**
 * The naming policy of the coordination client: member ids and lock names are
 * the non-empty parts among prefix, member id and lock name, joined with '-'
 * (`'-'.join(s for s in (...) if s)` in cinder/coordination.py).
 */
module Naming {

  const Separator: char := '-'

  /** The parts that survive the `if s` filter: the non-empty ones, in their order. */
  function NonEmpty(parts: seq<string>): (r: seq<string>)
    ensures forall p :: p in r <==> p in parts && p != ""
    ensures |r| <= |parts|
  {
    if parts == [] then []
    else (if parts[0] == "" then [] else [parts[0]]) + NonEmpty(parts[1..])
  }

  /** Total number of characters in the parts. */
  function Width(parts: seq<string>): nat
  {
    if parts == [] then 0 else |parts[0]| + Width(parts[1..])
  }

  /** `'-'.join(parts)`. */
  function Join(parts: seq<string>): (r: string)
    ensures parts == [] ==> r == ""
    ensures parts != [] ==> |r| == Width(parts) + |parts| - 1
  {
    if parts == [] then ""
    else if |parts| == 1 then parts[0]
    else parts[0] + [Separator] + Join(parts[1..])
  }

  /** `s.split('-')`: the inverse of Join on parts free of the separator. */
  function Split(s: string): (r: seq<string>)
    ensures |r| > 0
  {
    if s == [] then [""]
    else
      var rest := Split(s[1..]);
      if s[0] == Separator then [""] + rest
      else [[s[0]] + rest[0]] + rest[1..]
  }

  lemma {:induction false} SplitWithoutSeparator(p: string)
    requires Separator !in p
    ensures Split(p) == [p]
  {
    if p != [] {
      SplitWithoutSeparator(p[1..]);
      assert [p[0]] + p[1..] == p;
    }
  }

  lemma {:induction false} SplitAfterPart(p: string, t: string)
    requires Separator !in p
    ensures Split(p + [Separator] + t) == [p] + Split(t)
  {
    if p == [] {
      assert p + [Separator] + t == [Separator] + t;
    } else {
      var s := p + [Separator] + t;
      assert s[1..] == p[1..] + [Separator] + t;
      SplitAfterPart(p[1..], t);
      assert [p[0]] + p[1..] == p;
    }
  }

  /** Splitting a joined name on '-' gives back its parts when no part holds a '-'. */
  lemma {:induction false} SplitJoin(parts: seq<string>)
    requires parts != []
    requires forall p :: p in parts ==> Separator !in p
    ensures Split(Join(parts)) == parts
  {
    if |parts| == 1 {
      SplitWithoutSeparator(parts[0]);
    } else {
      SplitJoin(parts[1..]);
      SplitAfterPart(parts[0], Join(parts[1..]));
      assert [parts[0]] + parts[1..] == parts;
    }
  }

  /** Empty parts add no characters, so dropping them keeps the width. */
  lemma {:induction false} NonEmptyWidth(parts: seq<string>)
    ensures Width(NonEmpty(parts)) == Width(parts)
  {
    if parts != [] {
      NonEmptyWidth(parts[1..]);
      WidthAppend(if parts[0] == "" then [] else [parts[0]], NonEmpty(parts[1..]));
    }
  }

  lemma {:induction false} WidthAppend(a: seq<string>, b: seq<string>)
    ensures Width(a + b) == Width(a) + Width(b)
  {
    if a != [] {
      assert (a + b)[0] == a[0];
      assert (a + b)[1..] == a[1..] + b;
      WidthAppend(a[1..], b);
    } else {
      assert a + b == b;
    }
  }

  /** The filter applied to two parts. */
  lemma NonEmptyPair(a: string, b: string)
    ensures NonEmpty([a, b]) == (if a == "" then [] else [a]) + (if b == "" then [] else [b])
  {
    assert [a, b][1..] == [b];
    assert [b][1..] == [];
  }

  /** Joining two parts puts one separator between them. */
  lemma JoinPair(a: string, b: string)
    ensures Join([a, b]) == a + "-" + b
    ensures Join([a] + [b]) == a + "-" + b
  {
    assert [a, b][1..] == [b];
    assert [a] + [b] == [a, b];
  }

  /** The filter applied to three parts. */
  lemma NonEmptyTriple(a: string, b: string, c: string)
    ensures NonEmpty([a, b, c]) == (if a == "" then [] else [a]) + NonEmpty([b, c])
  {
    assert [a, b, c][1..] == [b, c];
  }

  /** The member id presented to the backend: the non-empty parts of prefix and my_id, joined. */
  function MemberId(prefix: string, myId: string): (r: string)
    ensures prefix != "" && myId != "" ==> r == prefix + "-" + myId
    ensures prefix == "" ==> r == myId
    ensures myId == "" ==> r == prefix
  {
    NonEmptyPair(prefix, myId);
    JoinPair(prefix, myId);
    Join(NonEmpty([prefix, myId]))
  }

  /**
   * The fully qualified lock name: prefix, my_id unless the lock is external
   * (`not external and self.my_id` is falsy then), and the lock name.
   */
  function LockName(prefix: string, myId: string, name: string, external: bool): string
  {
    Join(NonEmpty([prefix, if external then "" else myId, name]))
  }

  /** An external lock name is the private name of a member with no id: my_id is left out. */
  lemma ExternalOmitsMemberId(prefix: string, myId: string, name: string)
    ensures LockName(prefix, myId, name, true) == Join(NonEmpty([prefix, name]))
    ensures LockName(prefix, myId, name, true) == LockName(prefix, "", name, false)
  {
    assert NonEmpty([prefix, "", name]) == NonEmpty([prefix, name]) by {
      assert [prefix, "", name][1..] == ["", name];
      assert [prefix, "", name][1..][1..] == [name];
      assert [prefix, name][1..] == [name];
    }
  }

  /** A private lock name carries my_id and the extra separator in front of it. */
  lemma LockNameWidth(prefix: string, myId: string, name: string)
    requires myId != ""
    ensures |LockName(prefix, myId, name, false)|
         == |LockName(prefix, myId, name, true)| + |myId| + (if prefix == "" && name == "" then 0 else 1)
  {
    var priv := NonEmpty([prefix, myId, name]);
    var ext := NonEmpty([prefix, "", name]);
    NonEmptyWidth([prefix, myId, name]);
    NonEmptyWidth([prefix, "", name]);
    assert Width([prefix, myId, name]) == |prefix| + |myId| + |name| by {
      assert [prefix, myId, name][1..] == [myId, name];
      assert [myId, name][1..] == [name];
      assert [name][1..] == [];
      assert Width([name]) == |name|;
      assert Width([myId, name]) == |myId| + |name|;
    }
    assert Width([prefix, "", name]) == |prefix| + |name| by {
      assert [prefix, "", name][1..] == ["", name];
      assert ["", name][1..] == [name];
      assert [name][1..] == [];
    }
    NonEmptyTriple(prefix, myId, name);
    NonEmptyTriple(prefix, "", name);
    NonEmptyPair(myId, name);
    NonEmptyPair("", name);
    assert |priv| == |ext| + 1;
    assert |ext| == 0 <==> prefix == "" && name == "";
  }

  /** With a non-empty my_id, the private and the external name of a lock always differ. */
  lemma PrivateAndExternalNamesDiffer(prefix: string, myId: string, name: string)
    requires myId != ""
    ensures LockName(prefix, myId, name, false) != LockName(prefix, myId, name, true)
  {
    LockNameWidth(prefix, myId, name);
  }

  /** When no part holds a '-', the parts of a lock name can be read back from it. */
  lemma LockNameParts(prefix: string, myId: string, name: string, external: bool)
    requires Separator !in prefix && Separator !in myId && Separator !in name
    requires name != ""
    ensures Split(LockName(prefix, myId, name, external))
         == NonEmpty([prefix, if external then "" else myId, name])
  {
    var parts := NonEmpty([prefix, if external then "" else myId, name]);
    assert name in parts;
    SplitJoin(parts);
  }

  /** Prefix "app", member "m1", lock "foo": the private and the external name. */
  lemma LockNameExample()
    ensures LockName("app", "m1", "foo", false) == "app-m1-foo"
    ensures LockName("app", "m1", "foo", true) == "app-foo"
  {
    NonEmptyTriple("app", "m1", "foo");
    NonEmptyPair("m1", "foo");
    NonEmptyTriple("app", "", "foo");
    NonEmptyPair("", "foo");
    assert NonEmpty(["app", "m1", "foo"]) == ["app", "m1", "foo"];
    assert NonEmpty(["app", "", "foo"]) == ["app", "foo"];
    assert ["app", "m1", "foo"][1..] == ["m1", "foo"];
    assert ["m1", "foo"][1..] == ["foo"];
    assert ["app", "foo"][1..] == ["foo"];
  }
}

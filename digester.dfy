/**
 * An abstract view of the Commons Digester object that the component
 * configurer fills in: the ordered table of registered rules and the rule
 * namespace URI that every newly added rule is stamped with. How the digester
 * later matches patterns against the element stack and fires its rules is not
 * part of this model; only the registration side is.
 */
module CommonsDigester {

  import opened Wrappers

  /**
   * What a registered rule does. The rule and factory classes are recorded by
   * their constructor arguments only; Java classes are given by name.
   */
  datatype Action =
    | ObjectCreate(cls: string)
    | FactoryCreate(factory: string)
    // SetPropertiesRule: bind every attribute to the property of the same
    // name, except the attributes listed in `ignored`
    | SetProperties(ignored: seq<string>)
    // SetNextRule: pass the top object to `methodName` of the object below it
    | SetNext(methodName: string, paramType: Option<string>)
    // CallMethodRule with `paramCount` parameters (0 means the element's text)
    | CallMethod(methodName: string, paramCount: nat)
    | XmlConstantProperty(attr: string, prop: string, enumName: string)
    | UuidProperty(attr: string, prop: string)
    | DatasetRunReportContext(ownerCls: string)
    | StyleContainer

  /** One entry of the rule table: where it applies, its namespace stamp, what it does. */
  datatype Rule = Rule(pattern: string, ns: Option<string>, action: Action)

  /** The rules registered on exactly the pattern `p`, in registration order. */
  function RulesFor(rs: seq<Rule>, p: string): seq<Rule>
  {
    if rs == [] then []
    else (if rs[0].pattern == p then [rs[0]] else []) + RulesFor(rs[1..], p)
  }

  /** RulesFor(rs, p) holds exactly the registered rules on `p`. */
  lemma {:induction false} RulesForMembers(rs: seq<Rule>, p: string, x: Rule)
    ensures x in RulesFor(rs, p) <==> x in rs && x.pattern == p
  {
    if rs != [] {
      RulesForMembers(rs[1..], p, x);
      assert rs == [rs[0]] + rs[1..];
    }
  }

  lemma {:induction false} RulesForAppend(a: seq<Rule>, b: seq<Rule>, p: string)
    ensures RulesFor(a + b, p) == RulesFor(a, p) + RulesFor(b, p)
  {
    if a == [] {
      assert a + b == b;
    } else {
      var head := if a[0].pattern == p then [a[0]] else [];
      assert (a + b)[0] == a[0] && (a + b)[1..] == a[1..] + b;
      assert RulesFor(a + b, p) == head + RulesFor(a[1..] + b, p);
      RulesForAppend(a[1..], b, p);
      assert head + (RulesFor(a[1..], p) + RulesFor(b, p)) == head + RulesFor(a[1..], p) + RulesFor(b, p);
    }
  }

  /** A block whose rules all sit on `p` is found whole, in order, by RulesFor. */
  lemma {:induction false} RulesForSame(rs: seq<Rule>, p: string)
    requires forall x :: x in rs ==> x.pattern == p
    ensures RulesFor(rs, p) == rs
  {
    if rs != [] {
      assert rs[0] in rs;
      assert forall x :: x in rs[1..] ==> x in rs;
      RulesForSame(rs[1..], p);
    }
  }

  /** A block whose rules all sit on `p` is found whole for `p` and not at all for any other pattern. */
  lemma RulesForBlock(rs: seq<Rule>, p: string, t: string)
    requires forall x :: x in rs ==> x.pattern == p
    ensures RulesFor(rs, t) == if p == t then rs else []
  {
    if p == t {
      RulesForSame(rs, p);
    } else {
      RulesForNone(rs, t);
    }
  }

  /** Two consecutive blocks, each on one pattern. */
  lemma RulesForTwoBlocks(a: seq<Rule>, pa: string, b: seq<Rule>, pb: string, t: string)
    requires forall x :: x in a ==> x.pattern == pa
    requires forall x :: x in b ==> x.pattern == pb
    ensures RulesFor(a + b, t) == (if pa == t then a else []) + (if pb == t then b else [])
  {
    RulesForBlock(a, pa, t);
    RulesForBlock(b, pb, t);
    RulesForAppend(a, b, t);
  }

  /** Three consecutive blocks, each on one pattern. */
  lemma RulesForThreeBlocks(a: seq<Rule>, pa: string, b: seq<Rule>, pb: string, c: seq<Rule>, pc: string, t: string)
    requires forall x :: x in a ==> x.pattern == pa
    requires forall x :: x in b ==> x.pattern == pb
    requires forall x :: x in c ==> x.pattern == pc
    ensures RulesFor(a + b + c, t)
            == (if pa == t then a else []) + (if pb == t then b else []) + (if pc == t then c else [])
  {
    RulesForTwoBlocks(a, pa, b, pb, t);
    RulesForBlock(c, pc, t);
    RulesForAppend(a + b, c, t);
  }

  /**
   * `p` is the pattern `root` itself or the pattern of an element nested
   * somewhere below it (`root + "/" + ...`).
   */
  predicate Within(root: string, p: string)
  {
    p == root || (|root| < |p| && p[..|root| + 1] == root + "/")
  }

  /** No rule of `rs` sits on `p`. */
  lemma {:induction false} RulesForNone(rs: seq<Rule>, p: string)
    requires forall x :: x in rs ==> x.pattern != p
    ensures RulesFor(rs, p) == []
  {
    if rs != [] {
      assert rs[0] in rs;
      assert forall x :: x in rs[1..] ==> x in rs;
      RulesForNone(rs[1..], p);
    }
  }

  /** Every rule of `rs` sits on `root` or below it. */
  predicate AllWithin(rs: seq<Rule>, root: string)
  {
    forall x :: x in rs ==> Within(root, x.pattern)
  }

  /** A block whose rules all sit on `p` lies within any root `p` is within. */
  lemma AllWithinSame(rs: seq<Rule>, root: string, p: string)
    requires Within(root, p)
    requires forall x :: x in rs ==> x.pattern == p
    ensures AllWithin(rs, root)
  {
  }

  lemma AllWithinAppend(a: seq<Rule>, b: seq<Rule>, root: string)
    requires AllWithin(a, root) && AllWithin(b, root)
    ensures AllWithin(a + b, root)
  {
  }

  /** Rules that all sit within `root` say nothing about a pattern outside it. */
  lemma RulesForOutside(rs: seq<Rule>, root: string, p: string)
    requires AllWithin(rs, root)
    requires !Within(root, p)
    ensures RulesFor(rs, p) == []
  {
    RulesForNone(rs, p);
  }

  /** `root + suffix` names an element nested below `root`. */
  lemma WithinExtension(root: string, suffix: string)
    requires |suffix| > 0 && suffix[0] == '/'
    ensures Within(root, root + suffix)
  {
    assert (root + suffix)[..|root| + 1] == root + "/";
  }

  /** A pattern within a child `root + suffix` of `root` is within `root`. */
  lemma WithinChild(root: string, suffix: string, p: string)
    requires |suffix| > 0 && suffix[0] == '/'
    requires Within(root + suffix, p)
    ensures Within(root, p)
  {
    var q := root + suffix;
    assert q[..|root| + 1] == root + "/";
    if p != q {
      assert p[..|root| + 1] == p[..|q| + 1][..|root| + 1];
    }
  }

  /** No pattern is within two roots that differ at position `k`. */
  lemma RootsDisjoint(r1: string, r2: string, k: nat, p: string)
    requires k < |r1| && k < |r2| + 1 && r1[k] != (r2 + "/")[k]
    ensures !(Within(r1, p) && Within(r2, p))
  {
    if Within(r1, p) {
      assert p[k] == r1[k] by {
        if p != r1 { assert p[..|r1| + 1][k] == p[k]; }
      }
      if p != r2 && |r2| < |p| {
        assert p[..|r2| + 1][k] == p[k];
      }
    }
  }

  /** One step down a path: a separator followed by a non-empty element name. */
  predicate Step(e: string)
  {
    |e| > 1 && e[0] == '/' && forall i :: 1 <= i < |e| ==> e[i] != '/'
  }

  /** Two different child elements of one owner do not interfere. */
  lemma ChildrenDisjoint(o: string, a: string, b: string)
    requires Step(a) && Step(b) && a != b
    ensures !Within(o + a, o + b)
  {
    var pa, pb := o + a, o + b;
    assert pa[|o|..] == a && pb[|o|..] == b;
    if |pa| < |pb| {
      assert pb[|pa|] == b[|a|];
      assert pb[..|pa| + 1][|pa|] == pb[|pa|];
      assert (pa + "/")[|pa|] == '/';
    }
  }

  /** A pattern within `r` starts with `r`. */
  lemma WithinPrefix(r: string, q: string)
    requires Within(r, q)
    ensures |r| <= |q| && q[..|r|] == r
  {
    if q != r {
      assert q[..|r|] == q[..|r| + 1][..|r|];
    }
  }

  lemma SiblingsDisjointShorter(o: string, a: string, b: string, q: string)
    requires Step(a) && Step(b) && a != b && |a| <= |b|
    requires Within(o + a, q)
    ensures !Within(o + b, q)
  {
    var pa, pb := o + a, o + b;
    if |pb| <= |q| {
      WithinPrefix(pa, q);
      if |a| < |b| {
        // `q` continues `pa` with a separator, where `pb` continues it with a letter of `b`
        assert q[|pa|] == q[..|pa| + 1][|pa|] == '/';
        assert pb[|pa|] == b[|a|];
        if |pb| < |q| {
          assert q[..|pb| + 1][|pa|] == q[|pa|];
          assert (pb + "/")[|pa|] == pb[|pa|];
        }
      } else {
        // `q` starts with `pa`, which has the length of `pb` but differs from it
        assert pa[|o|..] == a && pb[|o|..] == b;
        assert q[..|pb|] == pa;
        if |pb| < |q| {
          assert q[..|pb| + 1][..|pb|] == pa;
          assert (pb + "/")[..|pb|] == pb;
        }
      }
    }
  }

  /** Nothing lies within two different child elements of one owner. */
  lemma SiblingsDisjoint(o: string, a: string, b: string, q: string)
    requires Step(a) && Step(b) && a != b
    ensures !(Within(o + a, q) && Within(o + b, q))
  {
    if Within(o + a, q) && Within(o + b, q) {
      if |a| <= |b| {
        SiblingsDisjointShorter(o, a, b, q);
      } else {
        SiblingsDisjointShorter(o, b, a, q);
      }
    }
  }

  /**
   * The digester's registration state. A rule is stamped with the rule
   * namespace URI current when it is added; `None` stands for Java's `null`
   * namespace, under which a rule is not tied to any namespace.
   */
  class Digester {
    var rules: seq<Rule>
    var ns: Option<string>

    constructor ()
      ensures rules == [] && ns == None
    {
      rules := [];
      ns := None;
    }

    method AddRule(pattern: string, action: Action)
      modifies this
      ensures rules == old(rules) + [Rule(pattern, old(ns), action)]
      ensures ns == old(ns)
    {
      rules := rules + [Rule(pattern, ns, action)];
    }

    method AddObjectCreate(pattern: string, cls: string)
      modifies this
      ensures rules == old(rules) + [Rule(pattern, old(ns), ObjectCreate(cls))]
      ensures ns == old(ns)
    {
      AddRule(pattern, ObjectCreate(cls));
    }

    method AddFactoryCreate(pattern: string, factory: string)
      modifies this
      ensures rules == old(rules) + [Rule(pattern, old(ns), FactoryCreate(factory))]
      ensures ns == old(ns)
    {
      AddRule(pattern, FactoryCreate(factory));
    }

    /**
     * `addSetProperties(pattern)` is the case `ignored == []`; the
     * three-argument form with an empty property-name array ignores the
     * attributes it names.
     */
    method AddSetProperties(pattern: string, ignored: seq<string>)
      modifies this
      ensures rules == old(rules) + [Rule(pattern, old(ns), SetProperties(ignored))]
      ensures ns == old(ns)
    {
      AddRule(pattern, SetProperties(ignored));
    }

    method AddSetNext(pattern: string, methodName: string, paramType: Option<string>)
      modifies this
      ensures rules == old(rules) + [Rule(pattern, old(ns), SetNext(methodName, paramType))]
      ensures ns == old(ns)
    {
      AddRule(pattern, SetNext(methodName, paramType));
    }

    method AddCallMethod(pattern: string, methodName: string, paramCount: nat)
      modifies this
      ensures rules == old(rules) + [Rule(pattern, old(ns), CallMethod(methodName, paramCount))]
      ensures ns == old(ns)
    {
      AddRule(pattern, CallMethod(methodName, paramCount));
    }

    method SetRuleNamespaceURI(uri: Option<string>)
      modifies this
      ensures ns == uri && rules == old(rules)
    {
      ns := uri;
    }

    method GetRuleNamespaceURI() returns (uri: Option<string>)
      ensures uri == ns
    {
      uri := ns;
    }
  }
}

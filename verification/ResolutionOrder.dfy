/** Exactly when the order of the candidates does not matter to the grouping of entities. */
module ResolutionOrder {
  import opened Resolution

  /** Whoever shares an identifier with a common neighbour shares one directly. */
  ghost predicate Transitive(s: set<Candidate>) {
    forall a, b, c :: a in s && b in s && c in s && Share(a, c) && Share(c, b) ==> Share(a, b)
  }

  /** The same candidates are resolved, and they are grouped in the same way. */
  ghost predicate SameOutcome(cs: seq<Candidate>, ds: seq<Candidate>) {
    var t, u := Replay(NO_TABLES, cs), Replay(NO_TABLES, ds);
    && (forall c :: c in cs ==> (Assigned(t, c) <==> Assigned(u, c)))
    && (forall a, b :: a in cs && b in cs && Assigned(t, a) && Assigned(t, b) && Assigned(u, a) && Assigned(u, b) ==>
          (EntityOf(t, a) == EntityOf(t, b) <==> EntityOf(u, a) == EntityOf(u, b)))
  }

  ghost predicate OrderNeverMatters(s: set<Candidate>) {
    forall cs, ds :: SetOf(cs) == s && SetOf(ds) == s ==> SameOutcome(cs, ds)
  }

  ghost predicate NoOrderDefers(s: set<Candidate>) {
    forall cs :: SetOf(cs) == s ==> NoneDeferred(cs)
  }

  // ---------- Transitive sharing defers nothing ----------

  lemma {:induction false} ChainIsShare(s: set<Candidate>, p: seq<Candidate>)
    requires Transitive(s) && Chain(s, p)
    ensures p[0] == p[|p| - 1] || Share(p[0], p[|p| - 1])
    decreases |p|
  {
    hide Share;
    if |p| > 1 {
      var n: nat := |p| - 2;
      var q := p[..n + 1];
      forall i: nat | i + 1 < |q| ensures Share(q[i], q[i + 1]) {
        assert Share(p[i], p[i + 1]);
      }
      assert forall c :: c in q ==> c in p;
      ChainIsShare(s, q);
      assert Share(p[n], p[n + 1]);
      assert p[0] in p && p[n] in p && p[n + 1] in p;
    }
  }

  lemma LinkedIsShare(s: set<Candidate>, a: Candidate, b: Candidate)
    requires Transitive(s) && Linked(s, a, b)
    ensures a == b || Share(a, b)
  {
    var p :| Chain(s, p) && p[0] == a && p[|p| - 1] == b;
    ChainIsShare(s, p);
  }

  lemma SharersAreLinked(s: set<Candidate>, a: Candidate, b: Candidate)
    requires a in s && b in s && Share(a, b)
    ensures Linked(s, a, b)
  {
    assert Chain(s, [a, b]);
  }

  /** What a candidate was decided stays decided. */
  lemma {:induction false} DecisionStays(cs: seq<Candidate>, ds: seq<Candidate>, id: CandidateId)
    requires id in Replay(NO_TABLES, cs).decisions
    ensures id in Replay(NO_TABLES, cs + ds).decisions
    ensures Replay(NO_TABLES, cs + ds).decisions[id] == Replay(NO_TABLES, cs).decisions[id]
    decreases |ds|
  {
    if ds == [] {
      assert cs + ds == cs;
    } else {
      var n: nat := |ds| - 1;
      DecisionStays(cs, ds[..n], id);
      assert (cs + ds)[..|cs + ds| - 1] == cs + ds[..n];
      assert (cs + ds)[|cs + ds| - 1] == ds[n];
      ResolvedKeepsDecisions(Replay(NO_TABLES, cs + ds[..n]), ds[n], id);
    }
  }

  lemma ResolvedKeepsDecisions(t: Tables, c: Candidate, id: CandidateId)
    requires id in t.decisions
    ensures id in Resolved(t, c).decisions && Resolved(t, c).decisions[id] == t.decisions[id]
  {
    hide ReviewTargets, Matched;
  }

  lemma SomeDecision(t: Tables, c: Candidate)
    ensures c.id in Resolved(t, c).decisions
  {
    hide ReviewTargets, Matched;
  }

  lemma {:induction false} TransitiveDefersNone(cs: seq<Candidate>)
    requires UniqueIds(SetOf(cs)) && Transitive(SetOf(cs))
    ensures NoneDeferred(cs)
  {
    hide Replay, Resolved, Share;
    if cs == [] {
    } else {
      var n: nat := |cs| - 1;
      var rest, c := cs[..n], cs[n];
      assert cs == rest + [c];
      assert SetOf(cs) == SetOf(rest) + {c};
      TransitiveDefersNone(rest);
      LastIsAssigned(rest, c);
      forall d | d in rest ensures Assigned(Replay(NO_TABLES, cs), d) {
        DecisionStays(rest, [c], d.id);
      }
    }
  }

  lemma ReplayLast(rest: seq<Candidate>, c: Candidate)
    ensures Replay(NO_TABLES, rest + [c]) == Resolved(Replay(NO_TABLES, rest), c)
  {
    assert (rest + [c])[..|rest + [c]| - 1] == rest;
  }

  lemma LastIsAssigned(rest: seq<Candidate>, c: Candidate)
    requires UniqueIds(SetOf(rest + [c])) && Transitive(SetOf(rest + [c])) && NoneDeferred(rest)
    ensures Assigned(Replay(NO_TABLES, rest + [c]), c)
  {
    hide Replay, Resolved, Share;
    var t := Replay(NO_TABLES, rest);
    assert SetOf(rest + [c]) == SetOf(rest) + {c};
    ReplayIsConsistent(rest);
    if c.id in t.decisions {
      var d :| d in SetOf(rest) && d.id == c.id;
      assert d in SetOf(rest + [c]) && c in SetOf(rest + [c]) && d == c && c in rest;
      DecisionStays(rest, [c], c.id);
    } else {
      DeferredExactlyWhen(rest, c);
      ReplayLast(rest, c);
      SomeDecision(t, c);
      var m := Members(t, SetOf(rest));
      if TouchesTwoGroups(m, c) {
        var a, b :| a in m && b in m && Share(a, c) && Share(b, c) && !Linked(m, a, b);
        ShareIsSymmetric(b, c);
        assert a in SetOf(rest + [c]) && b in SetOf(rest + [c]) && c in SetOf(rest + [c]);
        SharersAreLinked(m, a, b);
        assert false;
      }
    }
  }

  lemma ShareIsSymmetric(a: Candidate, b: Candidate)
    requires Share(a, b)
    ensures Share(b, a)
  {
    var k :| k in KeysOf(a) && k in KeysOf(b);
  }

  lemma SharerSharesItself(a: Candidate, b: Candidate)
    requires Share(a, b)
    ensures Share(a, a)
  {
    var k :| k in KeysOf(a) && k in KeysOf(b);
  }

  // ---------- Otherwise the order decides ----------

  lemma {:induction false} Listed(s: set<Candidate>) returns (cs: seq<Candidate>)
    ensures SetOf(cs) == s
  {
    if s == {} {
      cs := [];
    } else {
      var c :| c in s;
      var rest := Listed(s - {c});
      cs := rest + [c];
      assert SetOf(cs) == SetOf(rest) + {c};
    }
  }

  /** `c` shares with two candidates that do not share with each other. */
  ghost predicate Between(a: Candidate, b: Candidate, c: Candidate) {
    Share(a, c) && Share(c, b) && !Share(a, b)
  }

  lemma BetweenIsDistinct(a: Candidate, b: Candidate, c: Candidate)
    requires Between(a, b, c)
    ensures a != b && b != c && a != c && !Share(b, a) && Share(b, c)
  {
    SharerSharesItself(a, c);
    ShareIsSymmetric(c, b);
    if Share(b, a) {
      ShareIsSymmetric(b, a);
    }
  }

  lemma LastBetweenIsDeferred(a: Candidate, b: Candidate, c: Candidate)
    requires UniqueIds({a, b, c}) && Between(a, b, c)
    ensures c.id in Replay(NO_TABLES, [a, b, c]).decisions
    ensures Replay(NO_TABLES, [a, b, c]).decisions[c.id].Deferred?
  {
    hide Replay, Resolved, Share;
    BetweenIsDistinct(a, b, c);
    SharerSharesItself(a, c);
    SharerSharesItself(b, c);
    assert SetOf([a, b]) == {a, b};
    assert Transitive({a, b});
    TransitiveDefersNone([a, b]);
    ReplayIsConsistent([a, b]);
    var t := Replay(NO_TABLES, [a, b]);
    var m := Members(t, SetOf([a, b]));
    assert a in [a, b] && b in [a, b];
    assert m == {a, b};
    if Linked(m, a, b) {
      LinkedIsShare(m, a, b);
    }
    assert TouchesTwoGroups(m, c);
    assert c.id !in t.decisions;
    DeferredExactlyWhen([a, b], c);
    assert [a, b] + [c] == [a, b, c];
    ReplayLast([a, b], c);
    SomeDecision(t, c);
  }

  lemma SecondIsAssigned(a: Candidate, c: Candidate)
    requires UniqueIds({a, c}) && a != c && Share(a, c)
    ensures Assigned(Replay(NO_TABLES, [a, c]), c)
  {
    hide Replay, Resolved, Share;
    assert SetOf([a]) == {a} && SetOf([a, c]) == {a, c};
    ReplayIsConsistent([a]);
    var t := Replay(NO_TABLES, [a]);
    DeferredExactlyWhen([a], c);
    assert [a] + [c] == [a, c];
    ReplayLast([a], c);
    SomeDecision(t, c);
    var m := Members(t, SetOf([a]));
    forall x, y | x in m && y in m ensures Linked(m, x, y) {
      LinkedSelf(m, x);
    }
  }

  /** Two orders with different outcomes: the candidate in between comes third, or second. */
  lemma OrderDecides(s: set<Candidate>, a: Candidate, b: Candidate, c: Candidate)
    returns (cs: seq<Candidate>, ds: seq<Candidate>)
    requires UniqueIds(s) && a in s && b in s && c in s && Between(a, b, c)
    ensures SetOf(cs) == s && SetOf(ds) == s && !NoneDeferred(cs) && !SameOutcome(cs, ds)
  {
    hide Replay, Share;
    BetweenIsDistinct(a, b, c);
    var rest := Listed(s);
    cs, ds := [a, b, c] + rest, [a, c] + rest;
    LastBetweenIsDeferred(a, b, c);
    DecisionStays([a, b, c], rest, c.id);
    SecondIsAssigned(a, c);
    DecisionStays([a, c], rest, c.id);
    ListedFirst([a, b, c], rest, s);
    ListedFirst([a, c], rest, s);
    assert c in cs;
  }

  lemma ListedFirst(first: seq<Candidate>, rest: seq<Candidate>, s: set<Candidate>)
    requires SetOf(rest) == s && forall c :: c in first ==> c in s
    ensures SetOf(first + rest) == s
  {
    forall c ensures c in SetOf(first + rest) <==> c in s {
      assert c in rest <==> c in SetOf(rest);
    }
  }

  // ---------- The result ----------

  /**
   For any set of candidates: no order defers one, and no two orders differ in whom they resolve or
   how they group them, if and only if sharing an identifier is transitive on the set.
   */
  lemma OrderNeverMattersExactlyWhen(s: set<Candidate>)
    requires UniqueIds(s)
    ensures NoOrderDefers(s) <==> Transitive(s)
    ensures OrderNeverMatters(s) <==> Transitive(s)
  {
    hide NoneDeferred, SameOutcome, Share, Between;
    if Transitive(s) {
      forall cs | SetOf(cs) == s ensures NoneDeferred(cs) {
        TransitiveDefersNone(cs);
      }
      forall cs, ds | SetOf(cs) == s && SetOf(ds) == s ensures SameOutcome(cs, ds) {
        TransitiveIsSameOutcome(cs, ds);
      }
    } else {
      var a, b, c :| a in s && b in s && c in s && Share(a, c) && Share(c, b) && !Share(a, b);
      AreBetween(a, b, c);
      var cs, ds := OrderDecides(s, a, b, c);
    }
  }

  lemma AreBetween(a: Candidate, b: Candidate, c: Candidate)
    requires Share(a, c) && Share(c, b) && !Share(a, b)
    ensures Between(a, b, c)
  {
  }

  lemma TransitiveIsSameOutcome(cs: seq<Candidate>, ds: seq<Candidate>)
    requires SetOf(cs) == SetOf(ds) && UniqueIds(SetOf(cs)) && Transitive(SetOf(cs))
    ensures SameOutcome(cs, ds)
  {
    hide Replay, Transitive, UniqueIds, Linked;
    TransitiveDefersNone(cs);
    TransitiveDefersNone(ds);
    forall c | c in cs ensures c in ds {
      assert c in SetOf(ds);
    }
    forall a, b | a in cs && b in cs
      ensures EntityOf(Replay(NO_TABLES, cs), a) == EntityOf(Replay(NO_TABLES, cs), b)
         <==> EntityOf(Replay(NO_TABLES, ds), a) == EntityOf(Replay(NO_TABLES, ds), b)
    {
      GroupingDoesNotDependOnOrder(cs, ds, a, b);
    }
  }
}

/**
 * The statement list of an entity: an ordered, non-unique collection of
 * statements, appended to in place, with three derived views (the property
 * ids used, one statement per main snak, the best statements per property).
 */
module StatementLists {
  import opened Basics
  import opened Collections
  import opened PhpArrays

  /** Statement ranks, lowest first. */
  datatype Rank = Deprecated | Normal | Preferred | Truth

  function RankOrder(r: Rank): nat
  {
    match r
    case Deprecated => 0
    case Normal => 1
    case Preferred => 2
    case Truth => 3
  }

  /** A property id, by its serialization ("P42"). */
  type PropertyId = string

  /** A snak: the property it is about and its hash (`getHash`). */
  datatype Snak = Snak(propertyId: PropertyId, hash: string)

  datatype Reference = Reference(snaks: seq<Snak>)

  datatype Statement = Statement(
    mainSnak: Snak,
    qualifiers: Option<seq<Snak>>,
    references: Option<seq<Reference>>,
    rank: Rank,
    guid: Option<string>)

  function PropertyOf(st: Statement): PropertyId
  {
    st.mainSnak.propertyId
  }

  // ---------------------------------------------------------------------
  // Constructor input and its validation

  /** One element of what the constructor is given: a Statement or any other value. */
  datatype Element = IsStatement(statement: Statement) | NotStatement

  /** The constructor's argument: a PHP array, a Traversable, or anything else (null, a string, ...). */
  datatype Input =
    | ArrayInput(elements: seq<Element>)
    | TraversableInput(elements: seq<Element>)
    | NotIterable

  /** The two InvalidArgumentExceptions the constructor can throw. */
  datatype InvalidArgument = NotArrayOrTraversable | NotAllStatements

  ghost predicate AllStatements(es: seq<Element>)
  {
    forall i :: 0 <= i < |es| ==> es[i].IsStatement?
  }

  /** Wrapped statements always pass `assertAreStatements`. */
  lemma WrapPasses(ss: seq<Statement>)
    ensures CheckStatements(ArrayInput(Wrap(ss))) == Pass
  {
  }

  /** What `assertAreStatements` decides about an input. */
  ghost function CheckStatements(input: Input): Outcome<InvalidArgument>
  {
    if input.NotIterable? then Fail(NotArrayOrTraversable)
    else if AllStatements(input.elements) then Pass
    else Fail(NotAllStatements)
  }

  function StatementsOf(es: seq<Element>): (ss: seq<Statement>)
    requires AllStatements(es)
    ensures |ss| == |es| && forall i :: 0 <= i < |es| ==> ss[i] == es[i].statement
  {
    seq(|es|, i requires 0 <= i < |es| => es[i].statement)
  }

  /** A PHP array holding exactly the given statements. */
  function Wrap(ss: seq<Statement>): (es: seq<Element>)
    ensures AllStatements(es) && StatementsOf(es) == ss
  {
    seq(|ss|, i requires 0 <= i < |ss| => IsStatement(ss[i]))
  }

  // ---------------------------------------------------------------------
  // addNewStatement

  /** The `$qualifiers` (or `$references`) argument: null, a PHP array, or a list object. */
  datatype ListArgument<T> = NullArgument | ArrayArgument(items: seq<T>) | ListObject(items: seq<T>)

  /** An array argument is wrapped into a list object; a list object or null passes through. */
  function ToList<T>(arg: ListArgument<T>): (r: Option<seq<T>>)
    ensures r.None? <==> arg.NullArgument?
    ensures r.Some? ==> r.value == arg.items
  {
    match arg
    case NullArgument => None
    case ArrayArgument(items) => Some(items)
    case ListObject(items) => Some(items)
  }

  /** The statement `addNewStatement` builds: normal rank, the given guid. */
  function NewStatement(mainSnak: Snak, qualifiers: ListArgument<Snak>,
                        references: ListArgument<Reference>, guid: Option<string>): (st: Statement)
    ensures st.mainSnak == mainSnak && st.rank == Normal && st.guid == guid
    ensures st.qualifiers == ToList(qualifiers) && st.references == ToList(references)
  {
    Statement(mainSnak, ToList(qualifiers), ToList(references), Normal, guid)
  }

  /** Qualifiers given as a snak array build the same statement as the same snaks in a list object. */
  lemma ArrayQualifiersAsList(mainSnak: Snak, snaks: seq<Snak>, references: ListArgument<Reference>, guid: Option<string>)
    ensures NewStatement(mainSnak, ArrayArgument(snaks), references, guid)
         == NewStatement(mainSnak, ListObject(snaks), references, guid)
  {
  }

  // ---------------------------------------------------------------------
  // getPropertyIds

  /** The property ids of the statements, in list order, repetitions included. */
  function PropertyIds(s: seq<Statement>): (ps: seq<PropertyId>)
    ensures |ps| == |s| && forall i :: 0 <= i < |s| ==> ps[i] == PropertyOf(s[i])
  {
    if s == [] then [] else PropertyIds(s[..|s| - 1]) + [PropertyOf(s[|s| - 1])]
  }

  /** One step of `getPropertyIds`: the property ids of one more statement. */
  lemma PropertyIdsStep(s: seq<Statement>, i: nat)
    requires i < |s|
    ensures Dedup(PropertyIds(s[..i + 1])) ==
            var d := Dedup(PropertyIds(s[..i])); var p := PropertyOf(s[i]);
            if p in d then d else d + [p]
  {
    assert s[..i + 1][..i] == s[..i];
    assert PropertyIds(s[..i + 1]) == PropertyIds(s[..i]) + [PropertyOf(s[i])];
    DedupSnoc(PropertyIds(s[..i]), PropertyOf(s[i]));
  }

  /** Setting `p => p` keeps an array whose every value equals its key. */
  lemma SelfKeyedSet(a: Assoc<PropertyId, PropertyId>, p: PropertyId)
    requires forall k :: 0 <= k < |a| ==> a[k].1 == a[k].0
    ensures forall k :: 0 <= k < |Set(a, p, p)| ==> Set(a, p, p)[k].1 == Set(a, p, p)[k].0
  {
    if HasKey(a, p) {
      var j := FirstIndex(KeysOf(a), p);
      assert Set(a, p, p) == a[..j] + [(p, p)] + a[j + 1..];
    } else {
      assert Set(a, p, p) == a + [(p, p)];
    }
  }

  /**
   * The property ids `getPropertyIds` returns: each once, in the order of
   * their first occurrence, and nothing for an empty list.
   */
  lemma PropertyIdsOnce(s: seq<Statement>)
    ensures NoDuplicates(Dedup(PropertyIds(s)))
    ensures forall i :: 0 <= i < |s| ==> PropertyOf(s[i]) in Dedup(PropertyIds(s))
    ensures forall p :: p in Dedup(PropertyIds(s)) ==> exists i :: 0 <= i < |s| && PropertyOf(s[i]) == p
    ensures forall i, j :: 0 <= i < j < |Dedup(PropertyIds(s))| ==>
              Dedup(PropertyIds(s))[i] in PropertyIds(s) && Dedup(PropertyIds(s))[j] in PropertyIds(s) &&
              FirstIndex(PropertyIds(s), Dedup(PropertyIds(s))[i]) < FirstIndex(PropertyIds(s), Dedup(PropertyIds(s))[j])
    ensures s == [] ==> Dedup(PropertyIds(s)) == []
  {
    var ps := PropertyIds(s);
    DedupFirstOccurrenceOrder(ps);
    forall p | p in Dedup(ps) ensures exists i :: 0 <= i < |s| && PropertyOf(s[i]) == p {
      var i := FirstIndex(ps, p);
      assert PropertyOf(s[i]) == p;
    }
  }

  // ---------------------------------------------------------------------
  // getWithUniqueMainSnaks

  function Hashes(s: seq<Statement>): (hs: seq<string>)
    ensures |hs| == |s| && forall i :: 0 <= i < |s| ==> hs[i] == s[i].mainSnak.hash
  {
    if s == [] then [] else Hashes(s[..|s| - 1]) + [s[|s| - 1].mainSnak.hash]
  }

  /** The keyed array `$statements[hash] = $statement` that the loop over `s` builds. */
  function IndexByHash(s: seq<Statement>): Assoc<string, Statement>
  {
    if s == [] then [] else Set(IndexByHash(s[..|s| - 1]), s[|s| - 1].mainSnak.hash, s[|s| - 1])
  }

  /** The position of the last statement of `s` whose main snak has hash `h`. */
  function LastWithHash(s: seq<Statement>, h: string): (r: Option<nat>)
    ensures r.Some? ==> r.value < |s| && s[r.value].mainSnak.hash == h &&
                        forall j :: r.value < j < |s| ==> s[j].mainSnak.hash != h
    ensures r.None? ==> forall j :: 0 <= j < |s| ==> s[j].mainSnak.hash != h
  {
    if s == [] then None
    else if s[|s| - 1].mainSnak.hash == h then Some(|s| - 1)
    else
      var r := LastWithHash(s[..|s| - 1], h);
      assert forall j :: 0 <= j < |s| - 1 ==> s[..|s| - 1][j] == s[j];
      r
  }

  /** What `getWithUniqueMainSnaks` lists: the values of the keyed array, in key order. */
  function UniqueMainSnaks(s: seq<Statement>): seq<Statement>
  {
    ValuesOf(IndexByHash(s))
  }

  lemma {:induction false} IndexByHashKeys(s: seq<Statement>)
    ensures KeysOf(IndexByHash(s)) == Dedup(Hashes(s))
  {
    if s != [] {
      var n := |s| - 1;
      IndexByHashKeys(s[..n]);
      SetKeys(IndexByHash(s[..n]), s[n].mainSnak.hash, s[n]);
      assert Hashes(s) == Hashes(s[..n]) + [s[n].mainSnak.hash];
      DedupSnoc(Hashes(s[..n]), s[n].mainSnak.hash);
    }
  }

  lemma {:induction false} IndexByHashGet(s: seq<Statement>, h: string)
    ensures Get(IndexByHash(s), h) == match LastWithHash(s, h) case Some(j) => Some(s[j]) case None => None
  {
    if s != [] {
      var n := |s| - 1;
      IndexByHashGet(s[..n], h);
      match LastWithHash(s[..n], h)
      case Some(j) => assert s[..n][j] == s[j];
      case None =>
    }
  }

  /**
   * `getWithUniqueMainSnaks` keeps one statement per main-snak hash: the
   * last statement with that hash, at the place of the hash's first
   * occurrence.
   */
  lemma UniqueMainSnaksKeepsLast(s: seq<Statement>)
    ensures |UniqueMainSnaks(s)| == |Dedup(Hashes(s))|
    ensures forall k :: 0 <= k < |UniqueMainSnaks(s)| ==>
              UniqueMainSnaks(s)[k].mainSnak.hash == Dedup(Hashes(s))[k] &&
              LastWithHash(s, Dedup(Hashes(s))[k]).Some? &&
              UniqueMainSnaks(s)[k] == s[LastWithHash(s, Dedup(Hashes(s))[k]).value]
  {
    var a := IndexByHash(s);
    IndexByHashKeys(s);
    forall k | 0 <= k < |a|
      ensures a[k].1.mainSnak.hash == a[k].0
      ensures LastWithHash(s, a[k].0).Some? && a[k].1 == s[LastWithHash(s, a[k].0).value]
    {
      GetAt(a, k);
      IndexByHashGet(s, a[k].0);
    }
  }

  // ---------------------------------------------------------------------
  // getBestStatementPerProperty

  /** The statements of `s` about property `p`, in list order (`getClaimsForProperty`). */
  function ForProperty(s: seq<Statement>, p: PropertyId): (r: seq<Statement>)
    ensures forall x {:trigger x in r} :: x in r ==> x in s && PropertyOf(x) == p
    ensures forall x {:trigger x in s} :: x in s && PropertyOf(x) == p ==> x in r
  {
    if s == [] then []
    else
      var r := ForProperty(s[..|s| - 1], p) + (if PropertyOf(s[|s| - 1]) == p then [s[|s| - 1]] else []);
      assert forall x :: x in s ==> x in s[..|s| - 1] || x == s[|s| - 1];
      r
  }

  /** The highest rank present in `ss`, Deprecated for no statements. */
  function MaxRank(ss: seq<Statement>): (r: Rank)
    ensures forall x :: x in ss ==> RankOrder(x.rank) <= RankOrder(r)
    ensures ss == [] ==> r == Deprecated
    ensures ss != [] ==> exists i :: 0 <= i < |ss| && ss[i].rank == r
  {
    if ss == [] then Deprecated
    else
      var m := MaxRank(ss[1..]);
      assert forall x :: x in ss ==> x == ss[0] || x in ss[1..];
      if RankOrder(ss[0].rank) >= RankOrder(m) then ss[0].rank
      else
        assert exists i :: 0 <= i < |ss[1..]| && ss[1..][i].rank == m;
        var i :| 0 <= i < |ss[1..]| && ss[1..][i].rank == m;
        assert ss[i + 1].rank == m;
        m
  }

  /** The statements of `ss` with rank `r`, in order. */
  function WithRank(ss: seq<Statement>, r: Rank): (w: seq<Statement>)
    ensures forall x :: x in w <==> x in ss && x.rank == r
  {
    if ss == [] then []
    else
      assert forall x :: x in ss <==> x in ss[..|ss| - 1] || x == ss[|ss| - 1];
      WithRank(ss[..|ss| - 1], r) + (if ss[|ss| - 1].rank == r then [ss[|ss| - 1]] else [])
  }

  /** Each statement of rank `r` is kept as often as it occurs, and no other is kept. */
  lemma {:induction false} WithRankCounts(ss: seq<Statement>, r: Rank)
    ensures forall x :: multiset(WithRank(ss, r))[x] == if x.rank == r then multiset(ss)[x] else 0
  {
    if ss != [] {
      var n := |ss| - 1;
      WithRankCounts(ss[..n], r);
      assert ss == ss[..n] + [ss[n]];
    }
  }

  /** Keeping one rank distributes over concatenation, so the kept statements stay in list order. */
  lemma {:induction false} WithRankConcat(a: seq<Statement>, b: seq<Statement>, r: Rank)
    ensures WithRank(a + b, r) == WithRank(a, r) + WithRank(b, r)
  {
    if b == [] {
      assert a + b == a;
    } else {
      var front, x := b[..|b| - 1], b[|b| - 1];
      var last := if x.rank == r then [x] else [];
      assert b == front + [x];
      assert a + b == (a + front) + [x];
      calc {
        WithRank(a + b, r);
        { WithRankSnoc(a + front, x, r); }
        WithRank(a + front, r) + last;
        { WithRankConcat(a, front, r); }
        (WithRank(a, r) + WithRank(front, r)) + last;
        WithRank(a, r) + (WithRank(front, r) + last);
        { WithRankSnoc(front, x, r); }
        WithRank(a, r) + WithRank(b, r);
      }
    }
  }

  lemma WithRankSnoc(s: seq<Statement>, x: Statement, r: Rank)
    ensures WithRank(s + [x], r) == WithRank(s, r) + (if x.rank == r then [x] else [])
  {
    assert (s + [x])[..|s|] == s;
  }

  /** `getBestClaims`: the statements of the highest rank present, none if that rank is Deprecated. */
  function Best(ss: seq<Statement>): (b: seq<Statement>)
    ensures forall x :: x in b <==>
              x in ss && x.rank != Deprecated && forall y :: y in ss ==> RankOrder(y.rank) <= RankOrder(x.rank)
    ensures forall x :: multiset(b)[x] ==
              if x.rank != Deprecated && forall y :: y in ss ==> RankOrder(y.rank) <= RankOrder(x.rank)
              then multiset(ss)[x] else 0
  {
    var m := MaxRank(ss);
    if m == Deprecated then []
    else
      forall x | x in ss && forall y :: y in ss ==> RankOrder(y.rank) <= RankOrder(x.rank)
        ensures x.rank == m
      {
        var i :| 0 <= i < |ss| && ss[i].rank == m;
        assert RankOrder(ss[i].rank) <= RankOrder(x.rank);
      }
      WithRankCounts(ss, m);
      WithRank(ss, m)
  }

  /** The best statements of each property of `ps`, property after property. */
  function BestFor(s: seq<Statement>, ps: seq<PropertyId>): seq<Statement>
  {
    if ps == [] then [] else BestFor(s, ps[..|ps| - 1]) + Best(ForProperty(s, ps[|ps| - 1]))
  }

  /** One step of `getBestStatementPerProperty`: the best statements of one more property. */
  lemma BestForStep(s: seq<Statement>, ps: seq<PropertyId>, i: nat)
    requires i < |ps|
    ensures BestFor(s, ps[..i + 1]) == BestFor(s, ps[..i]) + Best(ForProperty(s, ps[i]))
  {
    assert ps[..i + 1][..i] == ps[..i];
  }

  /** What `getBestStatementPerProperty` lists. */
  function BestPerProperty(s: seq<Statement>): seq<Statement>
  {
    BestFor(s, Dedup(PropertyIds(s)))
  }

  lemma {:induction false} ForPropertyConcat(a: seq<Statement>, b: seq<Statement>, p: PropertyId)
    ensures ForProperty(a + b, p) == ForProperty(a, p) + ForProperty(b, p)
  {
    if b == [] {
      assert a + b == a;
    } else {
      var n := |b| - 1;
      ForPropertyConcat(a, b[..n], p);
      assert (a + b)[..|a + b| - 1] == a + b[..n];
    }
  }

  /** All statements of `t` are about `q`. */
  ghost predicate AllAbout(t: seq<Statement>, q: PropertyId)
  {
    forall i :: 0 <= i < |t| ==> PropertyOf(t[i]) == q
  }

  /** Filtering statements that are all about `q`. */
  lemma {:induction false} ForPropertyUniform(t: seq<Statement>, q: PropertyId, p: PropertyId)
    requires AllAbout(t, q)
    ensures ForProperty(t, p) == if p == q then t else []
  {
    if t != [] {
      var n := |t| - 1;
      assert AllAbout(t[..n], q) by {
        assert forall i :: 0 <= i < n ==> t[..n][i] == t[i];
      }
      ForPropertyUniform(t[..n], q, p);
      assert PropertyOf(t[n]) == q;
      if p == q {
        calc {
          ForProperty(t, p);
          ForProperty(t[..n], p) + [t[n]];
          t[..n] + [t[n]];
          t;
        }
      } else {
        assert ForProperty(t, p) == ForProperty(t[..n], p);
      }
    }
  }

  /** The best statements of `q` are all about `q`. */
  lemma BestAbout(s: seq<Statement>, q: PropertyId)
    ensures AllAbout(Best(ForProperty(s, q)), q)
  {
    var b := Best(ForProperty(s, q));
    forall i | 0 <= i < |b|
      ensures PropertyOf(b[i]) == q
    {
      assert b[i] in b;
    }
  }

  lemma {:induction false} ForPropertyBestFor(s: seq<Statement>, ps: seq<PropertyId>, p: PropertyId)
    requires NoDuplicates(ps)
    ensures ForProperty(BestFor(s, ps), p) == if p in ps then Best(ForProperty(s, p)) else []
  {
    if ps != [] {
      var n := |ps| - 1;
      var q := ps[n];
      assert NoDuplicates(ps[..n]);
      ForPropertyBestFor(s, ps[..n], p);
      var b := Best(ForProperty(s, q));
      ForPropertyConcat(BestFor(s, ps[..n]), b, p);
      BestAbout(s, q);
      ForPropertyUniform(b, q, p);
      assert p in ps <==> p in ps[..n] || p == q;
      if p == q {
        assert p !in ps[..n];
      }
    }
  }

  /** A property without statements in `s` filters to nothing. */
  lemma ForPropertyAbsent(s: seq<Statement>, p: PropertyId)
    requires p !in PropertyIds(s)
    ensures ForProperty(s, p) == []
  {
  }

  /**
   * Per property, `getBestStatementPerProperty` keeps exactly the best
   * statements of that property, in their list order.
   */
  lemma BestPerPropertyByProperty(s: seq<Statement>, p: PropertyId)
    ensures ForProperty(BestPerProperty(s), p) == Best(ForProperty(s, p))
  {
    var ps := PropertyIds(s);
    ForPropertyBestFor(s, Dedup(ps), p);
    if p !in ps {
      assert p !in Dedup(ps);
      ForPropertyAbsent(s, p);
    }
  }

  /**
   * A statement is listed iff it is in the list, is not deprecated and no
   * statement of its property has a higher rank. In particular a property
   * whose statements are all deprecated contributes nothing.
   */
  lemma BestPerPropertyMembers(s: seq<Statement>)
    ensures forall x :: x in BestPerProperty(s) <==>
              x in s && x.rank != Deprecated &&
              forall y :: y in s && PropertyOf(y) == PropertyOf(x) ==> RankOrder(y.rank) <= RankOrder(x.rank)
  {
    forall x
      ensures x in BestPerProperty(s) <==>
              x in s && x.rank != Deprecated &&
              forall y :: y in s && PropertyOf(y) == PropertyOf(x) ==> RankOrder(y.rank) <= RankOrder(x.rank)
    {
      var p := PropertyOf(x);
      BestPerPropertyByProperty(s, p);
      if x in BestPerProperty(s) {
        assert x in ForProperty(BestPerProperty(s), p);
      }
    }
  }

  /** The statements of `r` come property by property, in the order the properties have in `ps`. */
  ghost predicate OrderedBy(r: seq<Statement>, ps: seq<PropertyId>)
  {
    forall i, j :: 0 <= i < j < |r| ==>
      PropertyOf(r[i]) in ps && PropertyOf(r[j]) in ps &&
      FirstIndex(ps, PropertyOf(r[i])) <= FirstIndex(ps, PropertyOf(r[j]))
  }

  /** Every statement of `r` is about a property of `ps`. */
  ghost predicate AboutSome(r: seq<Statement>, ps: seq<PropertyId>)
  {
    forall i :: 0 <= i < |r| ==> PropertyOf(r[i]) in ps
  }

  /** Appending statements about a new last property keeps the grouping. */
  lemma OrderedAppend(a: seq<Statement>, b: seq<Statement>, pre: seq<PropertyId>, q: PropertyId)
    requires AboutSome(a, pre) && OrderedBy(a, pre) && AllAbout(b, q) && q !in pre
    ensures AboutSome(a + b, pre + [q]) && OrderedBy(a + b, pre + [q])
  {
    var ps, r := pre + [q], a + b;
    assert ps[..|pre|] == pre;
    FirstIndexUnique(ps, q, |pre|);
    forall i | 0 <= i < |a|
      ensures PropertyOf(a[i]) in ps && FirstIndex(ps, PropertyOf(a[i])) == FirstIndex(pre, PropertyOf(a[i]))
    {
      FirstIndexPrefix(ps, |pre|, PropertyOf(a[i]));
    }
    forall i | 0 <= i < |r|
      ensures PropertyOf(r[i]) in ps
      ensures i >= |a| ==> FirstIndex(ps, PropertyOf(r[i])) == |pre|
      ensures i < |a| ==> FirstIndex(ps, PropertyOf(r[i])) < |pre|
    {
      if i < |a| {
        assert r[i] == a[i];
      } else {
        assert r[i] == b[i - |a|];
      }
    }
    forall i, j | 0 <= i < j < |r|
      ensures FirstIndex(ps, PropertyOf(r[i])) <= FirstIndex(ps, PropertyOf(r[j]))
    {
      if j < |a| {
        assert r[i] == a[i] && r[j] == a[j];
      }
    }
  }

  lemma {:induction false} BestForGrouped(s: seq<Statement>, ps: seq<PropertyId>)
    requires NoDuplicates(ps)
    ensures AboutSome(BestFor(s, ps), ps)
    ensures OrderedBy(BestFor(s, ps), ps)
  {
    if ps != [] {
      var n := |ps| - 1;
      var pre := ps[..n];
      assert NoDuplicates(pre);
      BestForGrouped(s, pre);
      BestAbout(s, ps[n]);
      assert ps[n] !in pre;
      OrderedAppend(BestFor(s, pre), Best(ForProperty(s, ps[n])), pre, ps[n]);
      assert pre + [ps[n]] == ps;
    }
  }

  /**
   * `getBestStatementPerProperty` groups its output by property, in the
   * order of the properties' first occurrences in the list.
   */
  lemma BestPerPropertyGrouped(s: seq<Statement>)
    ensures OrderedBy(BestPerProperty(s), PropertyIds(s))
  {
    var ps := PropertyIds(s);
    var d := Dedup(ps);
    var r := BestPerProperty(s);
    BestForGrouped(s, d);
    DedupFirstOccurrenceOrder(ps);
    forall i, j | 0 <= i < j < |r|
      ensures PropertyOf(r[i]) in ps && PropertyOf(r[j]) in ps &&
              FirstIndex(ps, PropertyOf(r[i])) <= FirstIndex(ps, PropertyOf(r[j]))
    {
      FirstOccurrenceMonotone(d, ps, PropertyOf(r[i]), PropertyOf(r[j]));
    }
  }

  /** The highest rank of a preferred, a normal and a preferred statement is Preferred. */
  lemma ExampleMaxRank(one: Statement, two: Statement, three: Statement)
    requires one.rank == Preferred && two.rank == Normal && three.rank == Preferred
    ensures MaxRank([one, two, three]) == Preferred
  {
    var ss := [one, two, three];
    assert ss[1..] == [two, three] && ss[1..][1..] == [three] && [three][1..] == [];
  }

  /** Keeping the preferred statements of that list drops the normal one and keeps the order. */
  lemma ExampleWithRank(one: Statement, two: Statement, three: Statement)
    requires one.rank == Preferred && two.rank == Normal && three.rank == Preferred
    ensures WithRank([one, two, three], Preferred) == [one, three]
  {
    var ss := [one, two, three];
    assert ss[..2] == [one, two] && [one, two][..1] == [one] && [one][..0] == [];
    assert WithRank([one], Preferred) == [one];
    assert WithRank([one, two], Preferred) == [one];
    assert WithRank(ss, Preferred) == WithRank([one, two], Preferred) + [three];
  }

  /**
   * Property P1 of the best-statement test: of a preferred, a normal and a
   * preferred statement, the two preferred ones are best, in list order.
   */
  lemma ExampleBestInOrder(one: Statement, two: Statement, three: Statement)
    requires one.rank == Preferred && two.rank == Normal && three.rank == Preferred
    ensures Best([one, two, three]) == [one, three]
  {
    ExampleMaxRank(one, two, three);
    ExampleWithRank(one, two, three);
  }

  // ---------------------------------------------------------------------
  // The list itself

  class StatementList {
    var statements: seq<Statement>

    /** `new StatementList()`: the default argument is an empty array. */
    constructor ()
      ensures statements == []
    {
      statements := [];
    }

    /** `new StatementList( $statements )`, which throws on invalid input. */
    static method New(input: Input) returns (r: Result<StatementList, InvalidArgument>)
      ensures r.Failure? <==> CheckStatements(input).Fail?
      ensures r.Failure? ==> r.error == CheckStatements(input).error
      ensures r.Success? ==> fresh(r.value) && r.value.statements == StatementsOf(input.elements)
    {
      var list := new StatementList();
      var outcome := list.AddStatements(input);
      if outcome.Fail? {
        return Failure(outcome.error);
      }
      return Success(list);
    }

    /** `assertAreStatements`: every element is checked. */
    static method AssertAreStatements(input: Input) returns (outcome: Outcome<InvalidArgument>)
      ensures outcome == CheckStatements(input)
    {
      if input.NotIterable? {
        return Fail(NotArrayOrTraversable);
      }
      var es := input.elements;
      for i := 0 to |es|
        invariant forall j :: 0 <= j < i ==> es[j].IsStatement?
      {
        if !es[i].IsStatement? {
          return Fail(NotAllStatements);
        }
      }
      return Pass;
    }

    /** `addStatements`: all elements are checked before the first is appended. */
    method AddStatements(input: Input) returns (outcome: Outcome<InvalidArgument>)
      modifies this
      ensures outcome == CheckStatements(input)
      ensures outcome.Pass? ==> statements == old(statements) + StatementsOf(input.elements)
      ensures outcome.Fail? ==> statements == old(statements)
    {
      outcome := AssertAreStatements(input);
      if outcome.Fail? {
        return;
      }
      var es := input.elements;
      for i := 0 to |es|
        invariant statements == old(statements) + StatementsOf(es[..i])
      {
        assert StatementsOf(es[..i + 1]) == StatementsOf(es[..i]) + [es[i].statement];
        statements := statements + [es[i].statement];
      }
      assert es[..|es|] == es;
    }

    /** `addStatement`: appends at the end. */
    method AddStatement(statement: Statement)
      modifies this
      ensures statements == old(statements) + [statement]
    {
      statements := statements + [statement];
    }

    /** `addNewStatement`: appends the statement built from a main snak, qualifiers, references and guid. */
    method AddNewStatement(mainSnak: Snak, qualifiers: ListArgument<Snak>,
                           references: ListArgument<Reference>, guid: Option<string>)
      modifies this
      ensures statements == old(statements) + [NewStatement(mainSnak, qualifiers, references, guid)]
    {
      var statement := Statement(mainSnak, ToList(qualifiers), ToList(references), Normal, None);
      statement := statement.(guid := guid);
      AddStatement(statement);
    }

    /** `getPropertyIds`: the keyed array serialization => property id. */
    method GetPropertyIds() returns (ids: Assoc<PropertyId, PropertyId>)
      ensures KeysOf(ids) == Dedup(PropertyIds(statements))
      ensures forall i :: 0 <= i < |ids| ==> ids[i].1 == ids[i].0
    {
      ids := [];
      var s := statements;
      for i := 0 to |s|
        invariant KeysOf(ids) == Dedup(PropertyIds(s[..i]))
        invariant forall k :: 0 <= k < |ids| ==> ids[k].1 == ids[k].0
      {
        var p := PropertyOf(s[i]);
        PropertyIdsStep(s, i);
        SelfKeyedSet(ids, p);
        SetKeys(ids, p, p);
        ids := Set(ids, p, p);
      }
      assert s[..|s|] == s;
    }

    /** `getWithUniqueMainSnaks`: a new list; the receiver is not changed. */
    method GetWithUniqueMainSnaks() returns (list: StatementList)
      ensures fresh(list) && list.statements == UniqueMainSnaks(statements)
    {
      var byHash: Assoc<string, Statement> := [];
      for i := 0 to |statements|
        invariant byHash == IndexByHash(statements[..i])
      {
        assert statements[..i + 1][..i] == statements[..i];
        byHash := Set(byHash, statements[i].mainSnak.hash, statements[i]);
      }
      assert statements[..|statements|] == statements;
      var r := New(ArrayInput(Wrap(ValuesOf(byHash))));
      list := r.value;
    }

    /** `getBestStatementPerProperty`: a new list; the receiver is not changed. */
    method GetBestStatementPerProperty() returns (list: StatementList)
      ensures fresh(list) && list.statements == BestPerProperty(statements)
    {
      var ids := GetPropertyIds();
      var s := statements;
      ghost var ks := KeysOf(ids);
      list := new StatementList();
      for i := 0 to |ids|
        invariant fresh(list)
        invariant list.statements == BestFor(s, ks[..i])
      {
        var p := ids[i].1;
        assert ks[i] == p;
        BestForStep(s, ks, i);
        list.AddBestClaims(s, p);
      }
      assert ks[..|ids|] == ks;
    }

    /** One round of `getBestStatementPerProperty`: the best claims of `s` for `p` are appended. */
    method AddBestClaims(s: seq<Statement>, p: PropertyId)
      modifies this
      ensures statements == old(statements) + Best(ForProperty(s, p))
    {
      var best := Best(ForProperty(s, p));
      WrapPasses(best);
      var outcome := AddStatements(ArrayInput(Wrap(best)));
      assert outcome == Pass;
    }

    /** `toArray`: the statements in insertion order. */
    function ToArray(): seq<Statement>
      reads this
    {
      statements
    }
  }
}

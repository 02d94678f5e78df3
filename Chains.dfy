// Fluent chains as values.  A chain such as
//   new PersonBuilder().CommonInfors.WithAge(21).Lives.At("...")...
// is a sequence of calls, each made on the builder the previous call returned.
// Accessors hand out a builder of another facet over the same person, and
// setters write one field of that person and return the builder they were
// called on; so what a chain does to the person is the setters' effects in
// order, and which setters it may call is fixed by the accessors before them.
module Chains {
  import opened People
  import opened Builders

  /** One link of a fluent chain: a facet accessor or a setter call. */
  datatype Call = Works | Lives | CommonInfors | Set(setter: Setter)

  /**
   * The facet of the builder a call returns, when made on a builder of facet
   * `f`: a setter returns its receiver, so the facet stays; an accessor
   * returns a facet builder, never a root builder.
   */
  function Next(f: Facet, c: Call): (r: Facet)
    ensures c.Set? ==> r == f
    ensures !c.Set? ==> r != Root
  {
    match c
    case Works => Job
    case Lives => Address
    case CommonInfors => CommonInfo
    case Set(_) => f
  }

  /**
   * The facet of the builder at the end of a chain started on a builder of
   * facet `f`.  No chain leads back to the root builder: a chain ends on the
   * root only if it started there.
   */
  function FacetAfter(f: Facet, calls: seq<Call>): (r: Facet)
    ensures r == Root ==> f == Root
  {
    if calls == [] then f else Next(FacetAfter(f, calls[..|calls| - 1]), calls[|calls| - 1])
  }

  /**
   * Every setter in the chain is called on a builder that declares it (the C#
   * type check).  The root builder has no setters, so a well-typed chain on
   * it begins with an accessor.
   */
  predicate WellTyped(f: Facet, calls: seq<Call>)
    ensures WellTyped(f, calls) && f == Root && calls != [] ==> !calls[0].Set?
  {
    calls == [] ||
    (WellTyped(f, calls[..|calls| - 1]) &&
     (calls[|calls| - 1].Set? ==> DeclaringFacet(calls[|calls| - 1].setter) == FacetAfter(f, calls[..|calls| - 1])))
  }

  /**
   * What a chain does to the shared person: its setters applied in order;
   * accessors write nothing, so a chain without setter calls leaves the
   * person as it was.
   */
  function Effect(p: PersonState, calls: seq<Call>): (r: PersonState)
    ensures Setters(calls) == [] ==> r == p
  {
    if calls == [] then p
    else
      var q := Effect(p, calls[..|calls| - 1]);
      match calls[|calls| - 1]
      case Set(s) => Assign(q, s)
      case _ => q
  }

  /** The value stored by the last setter in the chain that writes `f`, if there is one. */
  function LastWrite(calls: seq<Call>, f: Field): Option<Value> {
    if calls == [] then None
    else
      var c := calls[|calls| - 1];
      if c.Set? && Target(c.setter) == f then Some(Payload(c.setter))
      else LastWrite(calls[..|calls| - 1], f)
  }

  /** The setters of a chain, in call order. */
  function Setters(calls: seq<Call>): seq<Setter> {
    if calls == [] then []
    else
      var c := calls[|calls| - 1];
      Setters(calls[..|calls| - 1]) + (if c.Set? then [c.setter] else [])
  }

  /** A chain of setter calls only. */
  function Sets(ss: seq<Setter>): seq<Call> {
    seq(|ss|, i requires 0 <= i < |ss| => Set(ss[i]))
  }

  /** The accessor that returns a builder of facet `f`. */
  function Accessor(f: Facet): Call
    requires f != Root
  {
    match f
    case Job => Works
    case Address => Lives
    case CommonInfo => CommonInfors
  }

  /** A chain that reaches each setter through its facet's accessor. */
  function Expand(ss: seq<Setter>): seq<Call> {
    if ss == [] then []
    else
      var s := ss[|ss| - 1];
      Expand(ss[..|ss| - 1]) + [Accessor(DeclaringFacet(s)), Set(s)]
  }

  // Proof helper: the definitions above, unfolded once at a chain of the form `xs + [c]`.
  lemma AppendCall(f: Facet, p: PersonState, xs: seq<Call>, c: Call)
    ensures FacetAfter(f, xs + [c]) == Next(FacetAfter(f, xs), c)
    ensures WellTyped(f, xs + [c]) <==> WellTyped(f, xs) && (c.Set? ==> DeclaringFacet(c.setter) == FacetAfter(f, xs))
    ensures Effect(p, xs + [c]) == if c.Set? then Assign(Effect(p, xs), c.setter) else Effect(p, xs)
    ensures Setters(xs + [c]) == Setters(xs) + (if c.Set? then [c.setter] else [])
  {
  }

  /**
   * Last write wins: after a chain, each field holds the value of the last
   * setter that wrote it, or its earlier value when no setter did, whatever
   * facets were visited in between.
   */
  lemma {:induction false} EffectByLastWrite(p: PersonState, calls: seq<Call>, f: Field)
    ensures Get(Effect(p, calls), f) == match LastWrite(calls, f) case None => Get(p, f) case Some(v) => v
  {
    if calls != [] {
      EffectByLastWrite(p, calls[..|calls| - 1], f);
    }
  }

  /** Two chains whose last writes agree on every field build the same person: only the final values matter, not the order of facets. */
  lemma {:induction false} SameLastWritesSameEffect(p: PersonState, xs: seq<Call>, ys: seq<Call>)
    requires forall f: Field :: LastWrite(xs, f) == LastWrite(ys, f)
    ensures Effect(p, xs) == Effect(p, ys)
  {
    forall f: Field ensures Get(Effect(p, xs), f) == Get(Effect(p, ys), f) {
      EffectByLastWrite(p, xs, f);
      EffectByLastWrite(p, ys, f);
    }
    StateExtensionality(Effect(p, xs), Effect(p, ys));
  }

  /** Facet independence: a chain whose setters all belong to one facet leaves every field of the other facets unchanged. */
  lemma {:induction false} FacetIndependence(p: PersonState, calls: seq<Call>, facet: Facet, f: Field)
    requires forall i :: 0 <= i < |calls| && calls[i].Set? ==> DeclaringFacet(calls[i].setter) == facet
    requires FieldFacet(f) != facet
    ensures Get(Effect(p, calls), f) == Get(p, f)
  {
    if calls != [] {
      FacetIndependence(p, calls[..|calls| - 1], facet, f);
    }
  }

  /** Accessors write nothing: a chain does to the person exactly what its setters alone do. */
  lemma {:induction false} AccessorsWriteNothing(p: PersonState, calls: seq<Call>)
    ensures Effect(p, calls) == Effect(p, Sets(Setters(calls)))
  {
    if calls != [] {
      var init := calls[..|calls| - 1];
      var c := calls[|calls| - 1];
      AccessorsWriteNothing(p, init);
      var ss := Setters(init);
      if c.Set? {
        assert Sets(ss + [c.setter])[..|ss|] == Sets(ss);
      } else {
        assert Setters(calls) == ss;
      }
    }
  }

  /** `Setters` undoes `Sets`: a chain of setter calls only calls exactly those setters. */
  lemma {:induction false} SettersOfSets(ss: seq<Setter>)
    ensures Setters(Sets(ss)) == ss
  {
    if ss != [] {
      var init := ss[..|ss| - 1];
      SettersOfSets(init);
      assert Sets(ss)[..|ss| - 1] == Sets(init);
      assert init + [ss[|ss| - 1]] == ss;
    }
  }

  /** The last setter of a sequence is reached through its facet's accessor. */
  lemma ExpandLast(ss: seq<Setter>)
    requires ss != []
    ensures DeclaringFacet(ss[|ss| - 1]) != Root
    ensures Expand(ss) == (Expand(ss[..|ss| - 1]) + [Accessor(DeclaringFacet(ss[|ss| - 1]))]) + [Set(ss[|ss| - 1])]
  {
  }

  /**
   * Facets can be switched at will: any sequence of setter calls, in any
   * order, is reached by a well-typed chain that calls each setter's facet
   * accessor before it, starting from any builder (the root included).
   */
  lemma {:induction false} ExpandWellTyped(f: Facet, ss: seq<Setter>)
    ensures WellTyped(f, Expand(ss))
  {
    if ss != [] {
      var init, s := ss[..|ss| - 1], ss[|ss| - 1];
      ExpandWellTyped(f, init);
      ExpandLast(ss);
      var a := Accessor(DeclaringFacet(s));
      AppendCall(f, EMPTY, Expand(init), a);
      AppendCall(f, EMPTY, Expand(init) + [a], Set(s));
    }
  }

  /** The chain built by `Expand` calls exactly the given setters, in the given order. */
  lemma {:induction false} ExpandSetters(ss: seq<Setter>)
    ensures Setters(Expand(ss)) == ss
  {
    if ss != [] {
      var init, s := ss[..|ss| - 1], ss[|ss| - 1];
      ExpandSetters(init);
      ExpandLast(ss);
      var a := Accessor(DeclaringFacet(s));
      AppendCall(Root, EMPTY, Expand(init), a);
      AppendCall(Root, EMPTY, Expand(init) + [a], Set(s));
      assert init + [s] == ss;
    }
  }

  /**
   * Runs a well-typed chain on the heap builders, starting from `b`: the
   * builder it ends on is bound to `b`'s person and has the facet
   * `FacetAfter` predicts, and the person's new state is the chain's
   * `Effect` on its old state.  So the lemmas about `Effect` above hold of
   * the objects the builders change.
   */
  method Run(b: PersonBuilder, calls: seq<Call>) returns (e: PersonBuilder)
    requires WellTyped(b.facet, calls)
    modifies b.person
    ensures e.person == b.person && e.facet == FacetAfter(b.facet, calls)
    ensures b.person.State() == Effect(old(b.person.State()), calls)
    decreases |calls|
  {
    if calls == [] {
      return b;
    }
    var init, c := calls[..|calls| - 1], calls[|calls| - 1];
    assert calls == init + [c];
    AppendCall(b.facet, old(b.person.State()), init, c);
    var m := Run(b, init);
    match c
    case Works => e := m.Works();
    case Lives => e := m.Lives();
    case CommonInfors => e := m.CommonInfors();
    case Set(s) =>
      match s
      case SetAge(n) => e := m.WithAge(n);
      case SetCompanyName(t) => e := m.At(t);
      case SetPosition(t) => e := m.WorkAsA(t);
      case SetAnnualIncome(n) => e := m.Earning(n);
      case SetStreetAddress(t) => e := m.At(t);
      case SetPostalCode(t) => e := m.WithPostalCode(t);
      case SetCity(t) => e := m.In(t);
  }

  /**
   * The chain of the demo program's `Main`, one call per element; written as
   * appended singletons so that it matches the appends of the proof below.
   */
  const DEMO_CHAIN: seq<Call> :=
    [CommonInfors] + [Set(SetAge(21))]
    + [Lives] + [Set(SetStreetAddress("Street Address"))] + [Set(SetPostalCode("050822"))] + [Set(SetCity("HCM City"))]
    + [Works] + [Set(SetCompanyName("MoMo"))] + [Set(SetPosition("Backend Developer"))] + [Set(SetAnnualIncome(0))]

  /** The person the demo chain builds from a fresh root builder. */
  const DEMO_PERSON := PersonState(
    Some("Street Address"), Some("050822"), Some("HCM City"),
    Some("Backend Developer"), Some("MoMo"), 0, 21)

  /** The demo chain type-checks from the root builder, ends on a job builder, and builds `DEMO_PERSON`. */
  lemma DemoChainBuildsDemoPerson()
    ensures WellTyped(Root, DEMO_CHAIN) && FacetAfter(Root, DEMO_CHAIN) == Job
    ensures Effect(EMPTY, DEMO_CHAIN) == DEMO_PERSON
  {
    var c1 := [CommonInfors];
    AppendCall(Root, EMPTY, [], CommonInfors);
    var c2 := c1 + [Set(SetAge(21))];
    AppendCall(Root, EMPTY, c1, Set(SetAge(21)));
    var c3 := c2 + [Lives];
    AppendCall(Root, EMPTY, c2, Lives);
    var c4 := c3 + [Set(SetStreetAddress("Street Address"))];
    AppendCall(Root, EMPTY, c3, Set(SetStreetAddress("Street Address")));
    var c5 := c4 + [Set(SetPostalCode("050822"))];
    AppendCall(Root, EMPTY, c4, Set(SetPostalCode("050822")));
    var c6 := c5 + [Set(SetCity("HCM City"))];
    AppendCall(Root, EMPTY, c5, Set(SetCity("HCM City")));
    var c7 := c6 + [Works];
    AppendCall(Root, EMPTY, c6, Works);
    var c8 := c7 + [Set(SetCompanyName("MoMo"))];
    AppendCall(Root, EMPTY, c7, Set(SetCompanyName("MoMo")));
    var c9 := c8 + [Set(SetPosition("Backend Developer"))];
    AppendCall(Root, EMPTY, c8, Set(SetPosition("Backend Developer")));
    AppendCall(Root, EMPTY, c9, Set(SetAnnualIncome(0)));
  }
}

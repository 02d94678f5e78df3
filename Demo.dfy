// The demo program: one fluent chain that fills in every field of a new
// person through the three facets.
module Demo {
  import opened People
  import opened Builders
  import opened Chains

  /**
   * The chain of `Main`, call for call.  `last` is the job builder that the
   * final `Earning` returns (the value the source's `var person` holds);
   * `person` is what converting it to `Person` gives.  Every builder of the
   * chain is bound to the person the root builder allocated.
   */
  method BuildDemoPerson() returns (root: PersonBuilder, last: PersonBuilder, person: Person)
    ensures fresh(root) && fresh(person)
    ensures last.facet == Job
    ensures root.person == last.person == person
    ensures person.State() == Effect(EMPTY, DEMO_CHAIN) == DEMO_PERSON
  {
    root := new PersonBuilder();
    ghost var p := root.person;
    var b := root.CommonInfors();
    b := b.WithAge(21);
    assert b.person == p && p.State() == EMPTY.(age := 21);
    b := b.Lives();
    b := b.At("Street Address");
    assert b.person == p && p.State() == EMPTY.(age := 21, streetAddress := Some("Street Address"));
    b := b.WithPostalCode("050822");
    assert b.person == p && p.State() == DEMO_PERSON.(city := None, position := None, companyName := None);
    b := b.In("HCM City");
    assert b.person == p && p.State() == DEMO_PERSON.(position := None, companyName := None);
    b := b.Works();
    b := b.At("MoMo");
    assert b.person == p && p.State() == DEMO_PERSON.(position := None);
    b := b.WorkAsA("Backend Developer");
    assert b.person == p && p.State() == DEMO_PERSON;
    last := b.Earning(0);
    assert last.person == p && p.State() == DEMO_PERSON;
    person := last.Build();
    DemoChainBuildsDemoPerson();
  }
}

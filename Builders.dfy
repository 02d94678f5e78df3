// The builder family: a root builder that owns one `Person`, and the three
// facet builders (job, address, common info) that share it.  The source
// expresses the facets as subclasses of the root builder; here one class
// carries the facet as an immutable tag, which plays the part of the
// builder's static type: the setters of a facet require that tag, and the
// facet accessors, inherited by every subclass in the source, are available
// on every tag.
module Builders {
  import opened People

  /** Which builder class an object is: the root or one of its three subclasses. */
  datatype Facet = Root | Job | Address | CommonInfo

  /** One call of a fluent setter, with its argument. */
  datatype Setter =
    | SetAge(age: Int32)                   // CommonInfoPersonBuilder.WithAge
    | SetCompanyName(companyName: string)  // PersonJobBuilder.At
    | SetPosition(position: string)        // PersonJobBuilder.WorkAsA
    | SetAnnualIncome(amount: Int32)       // PersonJobBuilder.Earning
    | SetStreetAddress(street: string)     // PersonAddressBuilder.At
    | SetPostalCode(postalCode: string)    // PersonAddressBuilder.withPostalCode
    | SetCity(city: string)                // PersonAddressBuilder.In

  /**
   * The builder class that declares a setter: never the root builder, and
   * always the facet that owns the field the setter writes.
   */
  function DeclaringFacet(s: Setter): (r: Facet)
    ensures r != Root && r == FieldFacet(Target(s))
  {
    match s
    case SetAge(_) => CommonInfo
    case SetCompanyName(_) | SetPosition(_) | SetAnnualIncome(_) => Job
    case SetStreetAddress(_) | SetPostalCode(_) | SetCity(_) => Address
  }

  /** The one field a setter writes; it is an integer field exactly when the setter takes an `int`. */
  function Target(s: Setter): (r: Field)
    ensures Payload(s).Number? <==> r in {AnnualIncome, Age}
  {
    match s
    case SetAge(_) => Age
    case SetCompanyName(_) => CompanyName
    case SetPosition(_) => Position
    case SetAnnualIncome(_) => AnnualIncome
    case SetStreetAddress(_) => StreetAddress
    case SetPostalCode(_) => PostalCode
    case SetCity(_) => City
  }

  /** The value a setter stores: its argument, unchanged and unchecked. */
  function Payload(s: Setter): Value {
    match s
    case SetAge(n) => Number(n)
    case SetAnnualIncome(n) => Number(n)
    case SetCompanyName(t) => Text(Some(t))
    case SetPosition(t) => Text(Some(t))
    case SetStreetAddress(t) => Text(Some(t))
    case SetPostalCode(t) => Text(Some(t))
    case SetCity(t) => Text(Some(t))
  }

  /** The facet whose builder writes a field. */
  function FieldFacet(f: Field): Facet {
    match f
    case Age => CommonInfo
    case CompanyName | Position | AnnualIncome => Job
    case StreetAddress | PostalCode | City => Address
  }

  /**
   * The effect of one setter on the person's state: the target field takes the
   * argument as given (no validation, any 32-bit value including negatives),
   * and the six other fields keep their values.
   */
  function Assign(p: PersonState, s: Setter): (r: PersonState)
    ensures Get(r, Target(s)) == Payload(s)
    ensures forall f: Field :: f != Target(s) ==> Get(r, f) == Get(p, f)
  {
    match s
    case SetAge(n) => p.(age := n)
    case SetCompanyName(t) => p.(companyName := Some(t))
    case SetPosition(t) => p.(position := Some(t))
    case SetAnnualIncome(n) => p.(annualIncome := n)
    case SetStreetAddress(t) => p.(streetAddress := Some(t))
    case SetPostalCode(t) => p.(postalCode := Some(t))
    case SetCity(t) => p.(city := Some(t))
  }

  /** Calling a setter twice leaves the second value (last write wins). */
  lemma AssignOverwrites(p: PersonState, a: Setter, b: Setter)
    requires Target(a) == Target(b)
    ensures Assign(Assign(p, a), b) == Assign(p, b)
  {
  }

  /** Setters of different fields commute. */
  lemma AssignCommutes(p: PersonState, a: Setter, b: Setter)
    requires Target(a) != Target(b)
    ensures Assign(Assign(p, a), b) == Assign(Assign(p, b), a)
  {
  }

  /**
   * A builder: `PersonBuilder` when `facet == Root`, otherwise the subclass
   * named by `facet`.  `person` is the shared record.
   */
  class PersonBuilder {
    const person: Person
    const facet: Facet

    /** `new PersonBuilder()`: the root builder, owning a newly allocated, empty person. */
    constructor ()
      ensures facet == Root
      ensures fresh(person)
      ensures person.State() == EMPTY
    {
      facet := Root;
      person := new Person();
    }

    /** `new PersonJobBuilder(person)`: a job builder bound to the given person. */
    constructor PersonJobBuilder(person: Person)
      ensures facet == Job && this.person == person
    {
      facet := Job;
      this.person := person;
    }

    /** `new PersonAddressBuilder(person)`: an address builder bound to the given person. */
    constructor PersonAddressBuilder(person: Person)
      ensures facet == Address && this.person == person
    {
      facet := Address;
      this.person := person;
    }

    /** `new CommonInfoPersonBuilder(person)`: a common-info builder bound to the given person. */
    constructor CommonInfoPersonBuilder(person: Person)
      ensures facet == CommonInfo && this.person == person
    {
      facet := CommonInfo;
      this.person := person;
    }

    /** The `Works` accessor: a new job builder over the same person, which it leaves as it is. */
    method Works() returns (b: PersonBuilder)
      ensures fresh(b) && b.facet == Job
      ensures b.person == person && unchanged(person)
    {
      b := new PersonBuilder.PersonJobBuilder(person);
    }

    /** The `Lives` accessor: a new address builder over the same person, which it leaves as it is. */
    method Lives() returns (b: PersonBuilder)
      ensures fresh(b) && b.facet == Address
      ensures b.person == person && unchanged(person)
    {
      b := new PersonBuilder.PersonAddressBuilder(person);
    }

    /** The `CommonInfors` accessor: a new common-info builder over the same person, which it leaves as it is. */
    method CommonInfors() returns (b: PersonBuilder)
      ensures fresh(b) && b.facet == CommonInfo
      ensures b.person == person && unchanged(person)
    {
      b := new PersonBuilder.CommonInfoPersonBuilder(person);
    }

    /** The implicit conversion to `Person` ("build"): the shared reference itself; nothing changes. */
    method Build() returns (p: Person)
      ensures p == person
    {
      p := person;
    }

    /** `CommonInfoPersonBuilder.WithAge`: writes the age and returns this builder. */
    method WithAge(age: Int32) returns (self: PersonBuilder)
      requires facet == CommonInfo
      modifies person
      ensures self == this
      ensures person.State() == old(person.State()).(age := age)
    {
      person.age := age;
      self := this;
    }

    /**
     * `At`, which names two different methods: on a job builder it writes the
     * company name, on an address builder the street address.
     */
    method At(text: string) returns (self: PersonBuilder)
      requires facet == Job || facet == Address
      modifies person
      ensures self == this
      ensures facet == Job ==> person.State() == old(person.State()).(companyName := Some(text))
      ensures facet == Address ==> person.State() == old(person.State()).(streetAddress := Some(text))
    {
      if facet == Job {
        person.companyName := Some(text);
      } else {
        person.streetAddress := Some(text);
      }
      self := this;
    }

    /** `PersonJobBuilder.WorkAsA`: writes the position and returns this builder. */
    method WorkAsA(position: string) returns (self: PersonBuilder)
      requires facet == Job
      modifies person
      ensures self == this
      ensures person.State() == old(person.State()).(position := Some(position))
    {
      person.position := Some(position);
      self := this;
    }

    /** `PersonJobBuilder.Earning`: writes the annual income and returns this builder. */
    method Earning(amount: Int32) returns (self: PersonBuilder)
      requires facet == Job
      modifies person
      ensures self == this
      ensures person.State() == old(person.State()).(annualIncome := amount)
    {
      person.annualIncome := amount;
      self := this;
    }

    /** `PersonAddressBuilder.withPostalCode`: writes the postal code and returns this builder. */
    method WithPostalCode(postalCode: string) returns (self: PersonBuilder)
      requires facet == Address
      modifies person
      ensures self == this
      ensures person.State() == old(person.State()).(postalCode := Some(postalCode))
    {
      person.postalCode := Some(postalCode);
      self := this;
    }

    /** `PersonAddressBuilder.In`: writes the city and returns this builder. */
    method In(city: string) returns (self: PersonBuilder)
      requires facet == Address
      modifies person
      ensures self == this
      ensures person.State() == old(person.State()).(city := Some(city))
    {
      person.city := Some(city);
      self := this;
    }
  }
}

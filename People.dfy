// The record that the faceted builders fill in: a mutable `Person` object on
// the heap, and the value `PersonState` that describes its seven fields at one
// moment.
module People {

  /** An unset (null) or set reference-typed field. */
  datatype Option<+T> = None | Some(value: T)

  /** The C# `int`: a 32-bit signed integer. */
  newtype Int32 = x: int | -0x8000_0000 <= x < 0x8000_0000

  /** The seven fields of a person, grouped as the builders group them. */
  datatype Field =
    | StreetAddress | PostalCode | City        // address facet
    | Position | CompanyName | AnnualIncome    // job facet
    | Age                                      // common-info facet

  /** What one field holds: a nullable string or a 32-bit integer. */
  datatype Value = Text(text: Option<string>) | Number(number: Int32)

  /** The contents of a `Person` object, as a value. */
  datatype PersonState = PersonState(
    streetAddress: Option<string>,
    postalCode: Option<string>,
    city: Option<string>,
    position: Option<string>,
    companyName: Option<string>,
    annualIncome: Int32,
    age: Int32)

  /** Reads one field of a state. */
  function Get(p: PersonState, f: Field): Value {
    match f
    case StreetAddress => Text(p.streetAddress)
    case PostalCode => Text(p.postalCode)
    case City => Text(p.city)
    case Position => Text(p.position)
    case CompanyName => Text(p.companyName)
    case AnnualIncome => Number(p.annualIncome)
    case Age => Number(p.age)
  }

  /** The state of a freshly allocated person: every string null, every number 0. */
  const EMPTY := PersonState(None, None, None, None, None, 0, 0)

  /** Two states are equal as soon as every field reads the same. */
  lemma {:induction false} StateExtensionality(p: PersonState, q: PersonState)
    requires forall f: Field :: Get(p, f) == Get(q, f)
    ensures p == q
  {
    assert Get(p, StreetAddress) == Get(q, StreetAddress);
    assert Get(p, PostalCode) == Get(q, PostalCode);
    assert Get(p, City) == Get(q, City);
    assert Get(p, Position) == Get(q, Position);
    assert Get(p, CompanyName) == Get(q, CompanyName);
    assert Get(p, AnnualIncome) == Get(q, AnnualIncome);
    assert Get(p, Age) == Get(q, Age);
  }

  /** The mutable record; every builder of one session holds a reference to the same instance. */
  class Person {
    var streetAddress: Option<string>
    var postalCode: Option<string>
    var city: Option<string>
    var position: Option<string>
    var companyName: Option<string>
    var annualIncome: Int32
    var age: Int32

    /** The current contents of this object. */
    function State(): PersonState
      reads this
    {
      PersonState(streetAddress, postalCode, city, position, companyName, annualIncome, age)
    }

    /** `new Person()`: the C# defaults, null strings and zero integers. */
    constructor ()
      ensures State() == EMPTY
      ensures forall f: Field :: Get(State(), f) == (if f in {AnnualIncome, Age} then Number(0) else Text(None))
    {
      streetAddress, postalCode, city := None, None, None;
      position, companyName := None, None;
      annualIncome, age := 0, 0;
    }
  }
}

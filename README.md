# Faceted builder for a person record

This project models the faceted builder demo `FacetedBuilderPatternDemo/Program.cs` and proves properties about it.
A `Person` holds three address fields, three job fields and an age. One mutable `Person` is filled in
through several builder objects, and all of them hold a reference to that same instance:

- `PersonBuilder` is the root builder. It allocates the person, hands out facet builders through the
  accessors `Works`, `Lives` and `CommonInfors`, and converts back to `Person` (the "build" step).
- `PersonJobBuilder`, `PersonAddressBuilder` and `CommonInfoPersonBuilder` are the facet builders. Each
  has fluent setters that write one field of the shared person and return the builder itself. They
  inherit the accessors, so a chain can switch facets as it goes.

The model has four modules:

- `People` (`People.dfy`): the record. The class `Person` has the seven fields. `PersonState` is their
  value at one moment, `Get` reads one `Field`, and `EMPTY` is the state of a new person.
  - Nullable strings are `Option<string>`, and an unset string is `None`.
  - C#'s `int` is the newtype `Int32`. Nothing does arithmetic on it, so no wrap-around arises.
- `Builders` (`Builders.dfy`): the builder family and the meaning of each setter.
  - Each setter call is a `Setter` value, and `Assign` says what it does to a `PersonState`.
  - The class `PersonBuilder` stands for all four C# builder classes. Its immutable `facet` tag
    (`Root`, `Job`, `Address`, `CommonInfo`) records which class an object is. A facet's setters
    require that tag, in the place of the C# static type check. The accessors and `Build` are
    available on every tag, as inheritance makes them available in the source.
  - Each setter's postcondition gives the whole new state of the shared person: the old state
    with its one field replaced, so the six other fields are unchanged. `Assign` is the same
    write as a function on values, and the chain lemmas use it.
  - A builder's `person` is a `const`. In the source it is a protected field that only the
    constructors assign, so no method can rebind it.
  - The two methods named `At` are one `At` here. It writes the company name on a job builder and
    the street address on an address builder. That is how C# picks between them, since the static
    type is fixed when the builder is constructed.
- `Chains` (`Chains.dfy`): fluent chains as values. A `Call` is an accessor or a setter.
  - `Effect` is what a chain does to the person.
  - `WellTyped` says that every setter is called on a builder of its own facet.
  - `LastWrite` is the last value a chain stores into a field.
  - The lemmas here give "last write wins", facet independence, that accessors write nothing, and
    that any order of setters can be reached by switching facets.
  - The method `Run` executes any well-typed chain on the heap builders. Its postcondition says that
    the person's new state is the chain's `Effect` on the old state, so the lemmas about `Effect`
    hold of the objects the builders change, not only of values.
- `Demo` (`Demo.dfy`): the chain of `Main`, call for call, on the imperative builders.
  - In the source, `var person` takes the static type of the last call, which is `PersonJobBuilder`.
    So `Main` holds the job builder, and the conversion operator is not applied there. The model
    returns that builder as `last`, and it applies `Build` explicitly to get the person.
  - As written, the `Console.WriteLine` in the source receives the builder, not a `Person`. So it
    would print the builder's default `ToString` rather than the record's JSON. Printing is not
    modelled.

Aliasing is modelled directly on the heap:

- Accessors return `fresh` builders whose `person` is the receiver's `person`.
- Setters `modify` only that person and return `this`.
- `Build` returns the `person` reference and has no `modifies` clause, so it changes nothing. Two
  conversions give the same object with the same contents.

## Model

| member | source | states |
|---|---|---|
| `People.Person.constructor` | FacetedBuilderPatternDemo/Program.cs:7-17 | A new person has every string field unset (null) and `AnnualIncome` and `Age` equal to 0. |
| `People.StateExtensionality` | FacetedBuilderPatternDemo/Program.cs:10-17 | A person's state is exactly its seven fields: two states that agree on every field are equal. |
| `Builders.Assign` | FacetedBuilderPatternDemo/Program.cs:75-134 | A setter stores its argument in its one target field, unvalidated, and leaves the six other fields unchanged. |
| `Builders.Target` | FacetedBuilderPatternDemo/Program.cs:75-134 | The one field each setter writes (lines 77, 94, 100, 106, 120, 126, 132). It is an integer field exactly when the setter takes an `int`. |
| `Builders.DeclaringFacet` | FacetedBuilderPatternDemo/Program.cs:68-135 | The builder class that declares each setter is never the root builder, and it is the facet that owns the field the setter writes. |
| `Builders.AssignOverwrites` | FacetedBuilderPatternDemo/Program.cs:75-134 | Calling a setter of a field twice leaves the second value (last write wins), whatever the first was. |
| `Builders.AssignCommutes` | FacetedBuilderPatternDemo/Program.cs:92-134 | Setters that write different fields commute. |
| `Builders.PersonBuilder.constructor` | FacetedBuilderPatternDemo/Program.cs:55-58 | `new PersonBuilder()` is a root builder that owns a freshly allocated, empty person. |
| `Builders.PersonBuilder.PersonJobBuilder` | FacetedBuilderPatternDemo/Program.cs:87-90 | A job builder is bound to exactly the person it is given. |
| `Builders.PersonBuilder.PersonAddressBuilder` | FacetedBuilderPatternDemo/Program.cs:113-116 | An address builder is bound to exactly the person it is given. |
| `Builders.PersonBuilder.CommonInfoPersonBuilder` | FacetedBuilderPatternDemo/Program.cs:70-73 | A common-info builder is bound to exactly the person it is given. |
| `Builders.PersonBuilder.Works` | FacetedBuilderPatternDemo/Program.cs:59 | Returns a newly allocated job builder sharing the receiver's person reference, and leaves that person unchanged. |
| `Builders.PersonBuilder.Lives` | FacetedBuilderPatternDemo/Program.cs:60 | Returns a newly allocated address builder sharing the receiver's person reference, and leaves that person unchanged. |
| `Builders.PersonBuilder.CommonInfors` | FacetedBuilderPatternDemo/Program.cs:61 | Returns a newly allocated common-info builder sharing the receiver's person reference, and leaves that person unchanged. |
| `Builders.PersonBuilder.Build` | FacetedBuilderPatternDemo/Program.cs:63-66 | The conversion to `Person` returns exactly the builder's person reference and modifies nothing. |
| `Builders.PersonBuilder.WithAge` | FacetedBuilderPatternDemo/Program.cs:75-79 | Writes only `Age` of the shared person (any 32-bit value) and returns the receiver. |
| `Builders.PersonBuilder.At` | FacetedBuilderPatternDemo/Program.cs:92-96 | On a job builder it writes only the company name. On an address builder (lines 118-122) it writes only the street address. Either way it returns the receiver. |
| `Builders.PersonBuilder.WorkAsA` | FacetedBuilderPatternDemo/Program.cs:98-102 | Writes only `Position` of the shared person and returns the receiver. |
| `Builders.PersonBuilder.Earning` | FacetedBuilderPatternDemo/Program.cs:104-108 | Writes only `AnnualIncome` (any 32-bit value, negatives included) and returns the receiver. |
| `Builders.PersonBuilder.WithPostalCode` | FacetedBuilderPatternDemo/Program.cs:124-128 | Writes only `PostalCode` of the shared person and returns the receiver. |
| `Builders.PersonBuilder.In` | FacetedBuilderPatternDemo/Program.cs:130-134 | Writes only `City` of the shared person and returns the receiver. |
| `Chains.Next` | FacetedBuilderPatternDemo/Program.cs:59-61 | The builder a call returns: a setter returns its receiver, so the facet stays; an accessor returns a facet builder, never a root builder. |
| `Chains.FacetAfter` | FacetedBuilderPatternDemo/Program.cs:59-61 | The facet a chain ends on. No chain leads back to the root builder: a chain ends on the root only if it started there. |
| `Chains.WellTyped` | FacetedBuilderPatternDemo/Program.cs:141-151 | Every setter in the chain is called on a builder of the class that declares it. The root builder has no setters, so a well-typed chain on it begins with an accessor. |
| `Chains.Effect` | FacetedBuilderPatternDemo/Program.cs:141-151 | What a chain does to the shared person: its setters' writes in order. A chain without setter calls leaves the person as it was. |
| `Chains.Run` | FacetedBuilderPatternDemo/Program.cs:141-151 | Running any well-typed chain on the heap builders ends on a builder bound to the same person, with the facet `FacetAfter` predicts. The person's new state is the chain's `Effect` on its old state. |
| `Chains.SettersOfSets` | FacetedBuilderPatternDemo/Program.cs:141-151 | A chain made only of setter calls calls exactly those setters, in order. |
| `Chains.EffectByLastWrite` | FacetedBuilderPatternDemo/Program.cs:141-151 | After any chain, each field holds the value of the last setter that wrote it, or its earlier value if none did, whatever facets were visited in between. |
| `Chains.SameLastWritesSameEffect` | FacetedBuilderPatternDemo/Program.cs:141-151 | Two chains whose last writes agree on every field build the same person, so the order of facet switches does not matter. |
| `Chains.FacetIndependence` | FacetedBuilderPatternDemo/Program.cs:84-135 | A chain whose setters all belong to one facet leaves every field of the other facets unchanged. |
| `Chains.AccessorsWriteNothing` | FacetedBuilderPatternDemo/Program.cs:59-61 | A chain has exactly the effect of its setter calls alone: the facet accessors contribute no write. |
| `Chains.ExpandWellTyped` | FacetedBuilderPatternDemo/Program.cs:59-61 | Facets can be switched at will. Calling each setter's facet accessor before it gives a well-typed chain from any builder, the root included, for any sequence of setters in any order. |
| `Chains.ExpandSetters` | FacetedBuilderPatternDemo/Program.cs:141-151 | That chain calls exactly the given setters, in the given order. Together with `AccessorsWriteNothing`, its effect is theirs. |
| `Chains.DemoChainBuildsDemoPerson` | FacetedBuilderPatternDemo/Program.cs:141-151 | The chain of `Main` type-checks from the root builder and ends on a job builder. From an empty person it yields age 21, "Street Address", "050822", "HCM City", "MoMo", "Backend Developer" and income 0. |
| `Demo.BuildDemoPerson` | FacetedBuilderPatternDemo/Program.cs:139-151 | Running `Main`'s chain on the builders leaves the root builder, the final job builder and the built person all bound to one fresh person, whose fields are exactly the demo values. |

## Left out

- `Person.ToString` (Program.cs:19-23) is left out. It delegates to `System.Text.Json.JsonSerializer`, a library whose output is not part of this model.
- `FormatJsonText` (Program.cs:26-52) is left out. It is JSON parsing and writing through library streams, and nothing calls it.
- `Console.WriteLine` in `Main` (Program.cs:153) is left out: it is console output.
- The field initializer `new Person()` (Program.cs:58) also runs when a facet builder is constructed, and the constructor then overwrites it at once. That extra, unreachable allocation is not modelled. The facet-builder constructors bind the given person directly.
- Nullable annotations are not modelled. The setters' `string` parameters are taken as non-null, since C# only warns when null is passed. Unset fields are `None`.
- Inheritance is not modelled as classes. The four builder classes are one class with a facet tag, and a facet's setters require its tag where C# relies on the static type.
- Names follow Dafny style: the property `ComponayName` is the field `companyName`, and the method `withPostalCode` is `WithPostalCode`.

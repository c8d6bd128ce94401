# Selenium configuration accessor, modelled in Dafny

SpecFlow.Actions.Selenium reads its browser settings from a JSON document that a
loader supplies as text. `SeleniumConfiguration` keeps the loader and a
`Lazy<SpecFlowActionJson>` cell. On the first property read the cell's factory,
`LoadSpecFlowJson`, asks the loader for the text once:

- null, empty or white-space-only text gives the default document;
- any other text goes to the JSON deserializer;
- a null result from the deserializer (the text `null`) also gives the default document;
- a document from the deserializer is kept as it is;
- an exception from the deserializer is kept by the cell and rethrown on every later read.

Six read-only properties project the document's `Selenium` section:
`Browser`, `Arguments`, `Capabilities`, `DefaultTimeout`, `PollingInterval` and
`TestPlatform`. Only `TestPlatform` applies a default (`"local"` for null).

Files:

- `wrappers.dfy`: `Option` (a nullable value) and `Result` (a value or an exception).
- `dotnet_string.dfy`: `string.IsNullOrWhiteSpace` and the `char.IsWhiteSpace` set behind it.
- `selenium_configuration.dfy`: the document types, `LoadOutcome` (what the factory
  yields, as a function of the loader's text and the deserializer), the six
  projections, and the class `SeleniumConfiguration` with the cache cell, ghost counters
  of loader and deserializer calls, and one method per property.
- `selenium_properties.dfy`: lemmas relating loader text, deserializer answer and
  property values, concrete scenarios, and a client that reads every property twice.

Modelling choices:

- The loader is the value `loaded: Option<string>` given to the constructor. The `Load`
  method returns it and counts the call.
- The deserializer is a function value of type `string -> Result<Option<SpecFlowActionJson>, JsonException>`.
  Its internals are not modelled: case-insensitive names, string enums, unknown keys, duplicate capability keys.
- The deserializer can set the document's `Selenium` property to null (for
  `{"selenium": null}`), because the property has a private setter marked for
  deserialization. The source does not guard this case, so every property read then
  fails with a null reference. The model keeps this as `Failure.NullReference`.
- `Browser` is an integer-backed enum whose members are not shown. The model keeps the
  integer, and `default(Browser)` is ordinal 0.
- A `double?` is an `Option<Double>` holding the 64 IEEE-754 bits.
- The class invariant `Valid()` states the compute-once rule:
  - at most one load;
  - the cell is empty exactly when nothing was loaded;
  - a filled cell holds `LoadOutcome(loaded, deserialize)`;
  - the deserializer ran once exactly when one load saw non-blank text.
- Every property method ensures `Loaded()`: the cell is filled and the loader ran exactly
  once. When the cell was already filled, the method changes nothing (`unchanged(this)`).

## Model

| member | source | states |
|---|---|---|
| DotNetString.AllWhiteSpace | SpecFlow.Actions.Selenium/SpecFlow.Actions.Selenium/SeleniumConfiguration.cs:61 | true exactly when every character of the text is a .NET white-space character |
| DotNetString.IsNullOrWhiteSpace | SpecFlow.Actions.Selenium/SpecFlow.Actions.Selenium/SeleniumConfiguration.cs:61 | true exactly when the text is null or every character is white space; false exactly when the text is non-null and has a non-white-space character |
| Selenium.LoadOutcome | SpecFlow.Actions.Selenium/SpecFlow.Actions.Selenium/SeleniumConfiguration.cs:57-76 | blank text gives the default document; failure exactly when the text is non-blank and the deserializer throws, with its exception; a document the deserializer returns is the outcome unchanged, and conversely any non-default outcome is such a document; a null deserializer result gives the default document; a null section only comes from the deserializer |
| Selenium.SeleniumConfiguration.constructor | SpecFlow.Actions.Selenium/SpecFlow.Actions.Selenium/SeleniumConfiguration.cs:82-86 | stores the loader text and deserializer; the cell is empty and nothing has been loaded or deserialized |
| Selenium.SeleniumConfiguration.Load | SpecFlow.Actions.Selenium/SpecFlow.Actions.Selenium/SeleniumConfiguration.cs:59 | returns the loader's text and counts one loader call |
| Selenium.SeleniumConfiguration.LoadSpecFlowJson | SpecFlow.Actions.Selenium/SpecFlow.Actions.Selenium/SeleniumConfiguration.cs:57-76 | runs only while the cell is empty; returns LoadOutcome of the loader's text; afterwards the loader has run once and the deserializer once exactly when the text is non-blank |
| Selenium.SeleniumConfiguration.Value | SpecFlow.Actions.Selenium/SpecFlow.Actions.Selenium/SeleniumConfiguration.cs:85 | the cell ends filled with LoadOutcome after exactly one load in the instance's life; a read of a filled cell changes nothing, so a cached exception is returned again without reloading |
| Selenium.SeleniumConfiguration.Browser | SpecFlow.Actions.Selenium/SpecFlow.Actions.Selenium/SeleniumConfiguration.cs:91 | returns the section's Browser from the single cached load; later reads change nothing |
| Selenium.SeleniumConfiguration.Arguments | SpecFlow.Actions.Selenium/SpecFlow.Actions.Selenium/SeleniumConfiguration.cs:96 | returns the section's Arguments from the single cached load; later reads change nothing |
| Selenium.SeleniumConfiguration.Capabilities | SpecFlow.Actions.Selenium/SpecFlow.Actions.Selenium/SeleniumConfiguration.cs:101 | returns the section's Capabilities from the single cached load; later reads change nothing |
| Selenium.SeleniumConfiguration.DefaultTimeout | SpecFlow.Actions.Selenium/SpecFlow.Actions.Selenium/SeleniumConfiguration.cs:106 | returns the section's DefaultTimeout from the single cached load; later reads change nothing |
| Selenium.SeleniumConfiguration.PollingInterval | SpecFlow.Actions.Selenium/SpecFlow.Actions.Selenium/SeleniumConfiguration.cs:111 | returns the section's PollingInterval from the single cached load; later reads change nothing |
| Selenium.SeleniumConfiguration.TestPlatform | SpecFlow.Actions.Selenium/SpecFlow.Actions.Selenium/SeleniumConfiguration.cs:116 | returns the section's TestPlatform, or "local" when it is null, from the single cached load; later reads change nothing |
| SeleniumProperties.BlankTextSkipsDeserializer | SpecFlow.Actions.Selenium/SpecFlow.Actions.Selenium/SeleniumConfiguration.cs:59-64 | for blank text the outcome is the default document whatever the deserializer is |
| SeleniumProperties.OutcomeDependsOnDeserializerAnswer | SpecFlow.Actions.Selenium/SpecFlow.Actions.Selenium/SeleniumConfiguration.cs:73-75 | for non-blank text two deserializers give the same outcome exactly when their answers for that text agree, where null and the default document count as the same |
| SeleniumProperties.DocumentKeptUnchanged | SpecFlow.Actions.Selenium/SpecFlow.Actions.Selenium/SeleniumConfiguration.cs:73-75 | a document the deserializer returns is the cached value unchanged |
| SeleniumProperties.NothingConfigured | SpecFlow.Actions.Selenium/SpecFlow.Actions.Selenium/SeleniumConfiguration.cs:28-53 | blank text or a null deserializer result: Browser is the enum default, TestPlatform is "local", the other four properties are null |
| SeleniumProperties.FieldsPassThrough | SpecFlow.Actions.Selenium/SpecFlow.Actions.Selenium/SeleniumConfiguration.cs:91-111 | Browser, Arguments, Capabilities, DefaultTimeout and PollingInterval return the section's fields unchanged |
| SeleniumProperties.AbsentAndEmptyStayApart | SpecFlow.Actions.Selenium/SpecFlow.Actions.Selenium/SeleniumConfiguration.cs:96-101 | an absent Arguments or Capabilities reads as null, a present-but-empty one reads as empty, and the two differ |
| SeleniumProperties.TestPlatformDefaultsToLocal | SpecFlow.Actions.Selenium/SpecFlow.Actions.Selenium/SeleniumConfiguration.cs:116 | TestPlatform is "local" exactly when the field is null or "local"; a non-null field is returned unchanged |
| SeleniumProperties.FailureReachesEveryRead | SpecFlow.Actions.Selenium/SpecFlow.Actions.Selenium/SeleniumConfiguration.cs:91-116 | a cached exception or a null section makes all six properties fail with the same failure |
| SeleniumProperties.ReadSucceedsIff | SpecFlow.Actions.Selenium/SpecFlow.Actions.Selenium/SeleniumConfiguration.cs:57-116 | a property read succeeds exactly when the text is blank, or the deserializer returns null, or it returns a document with a non-null section; all six properties succeed or fail together |
| SeleniumProperties.DeserializationFailureReachesEveryRead | SpecFlow.Actions.Selenium/SpecFlow.Actions.Selenium/SeleniumConfiguration.cs:73 | when the deserializer throws on the loaded text, all six properties report that exception |
| SeleniumProperties.EmptyTextScenario | SpecFlow.Actions.Selenium/SpecFlow.Actions.Selenium/SeleniumConfiguration.cs:61-64 | empty text gives the default document: "local", the default browser, null arguments |
| SeleniumProperties.WhiteSpaceTextScenario | SpecFlow.Actions.Selenium/SpecFlow.Actions.Selenium/SeleniumConfiguration.cs:61-64 | text made of spaces, tab, CR, LF, U+00A0 and U+3000 gives the default document |
| SeleniumProperties.MalformedTextScenario | SpecFlow.Actions.Selenium/SpecFlow.Actions.Selenium/SeleniumConfiguration.cs:73 | the truncated text {"selenium": reaches the deserializer, and its exception is what all six properties report |
| SeleniumProperties.ConfiguredDocumentScenario | SpecFlow.Actions.Selenium/SpecFlow.Actions.Selenium/SeleniumConfiguration.cs:91-116 | a document with browser, one argument and a timeout but no platform reads back those values and "local" |
| SeleniumProperties.ReadAll | SpecFlow.Actions.Selenium/SpecFlow.Actions.Selenium/SeleniumConfiguration.cs:91-116 | reading all six properties yields the projections of the single cached load |
| SeleniumProperties.ReadTwice | SpecFlow.Actions.Selenium/SpecFlow.Actions.Selenium/SeleniumConfiguration.cs:85 | two rounds of reads on one fresh accessor give equal values, equal to the projections of the first load, after exactly one loader call and at most one deserializer call |

## Left out

- Thread safety of `Lazy<T>` when two threads race on the first read: the model is single-threaded.
- The deserializer's internals are a library call. These are not modelled: JSON syntax,
  case-insensitive name matching, string-to-enum conversion, unknown keys, duplicate
  capability keys, and null elements inside `Arguments` or `Capabilities`.
- The deserializer options are rebuilt on every load (lines 66-71). They have no observable
  effect here, because the deserializer is a parameter.
- Arguments and Capabilities in the source return the cached document's own mutable `string[]` and `Dictionary<string, string>` (lines 40, 43, 96, 101). A caller that writes into them changes what every later read on that instance returns. The model holds these as immutable `seq` and `map` values, so this aliasing is not captured: "repeated reads return equal values" holds in the model, and in the source only while callers do not mutate the returned objects.
- The loader's I/O, and any exception the loader throws, are not modelled: the loader's text is a value.
- `char.IsWhiteSpace` is modelled as a fixed list of characters, taken from the Unicode
  categories Zs, Zl and Zp plus U+0009 to U+000D and U+0085. The list is an assumption about
  the runtime's Unicode tables.
- C# strings are UTF-16. Dafny strings hold Unicode scalar values. The two agree for
  white-space tests, because no surrogate is white space.
- The members of the `Browser` enum are not shown, so the model keeps only the enum's integer value.
- DefaultTimeout and PollingInterval are doubles with no arithmetic, so the model keeps their bits.
- The `ISeleniumConfiguration` interface (lines 9-22) has no behaviour of its own. Its
  `TestPlatform` is nullable, but the class never returns null.
- Example/PageObjects/CalculatorElementLocators.cs holds only a URL constant and Selenium
  locator factories, with no behaviour to verify.

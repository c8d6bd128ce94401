/**
 * The Selenium configuration accessor of SpecFlow.Actions.Selenium: a settings
 * document read once from a loader, deserialized once, cached in a `Lazy<T>`
 * cell, and exposed through six read-only properties.
 */
module Selenium {
  import opened Wrappers
  import opened DotNetString

  // ---------------------------------------------------------------------------
  // The settings document (the private classes SpecFlowActionJson and
  // SeleniumSpecFlowJsonPart).  A nullable field is an Option.
  // ---------------------------------------------------------------------------

  /**
   * The `Browser` enum.  Its members are not part of this model; like every
   * .NET enum it is an integer underneath, and `default(Browser)` is the value 0.
   */
  datatype Browser = Browser(ordinal: int)

  const DefaultBrowser: Browser := Browser(0)

  /** A .NET `double`, kept as its 64 IEEE-754 bits: the accessor passes it through untouched. */
  datatype Double = Double(bits: bv64)

  /** SeleniumSpecFlowJsonPart: the `selenium` object of the settings document. */
  datatype SeleniumSpecFlowJsonPart = SeleniumSpecFlowJsonPart(
    browser: Browser,
    arguments: Option<seq<string>>,
    capabilities: Option<map<string, string>>,
    defaultTimeout: Option<Double>,
    pollingInterval: Option<Double>,
    testPlatform: Option<string>)

  /**
   * SpecFlowActionJson: the root document.  Its `Selenium` property has a
   * private setter that the deserializer may use, so it can end up null.
   */
  datatype SpecFlowActionJson = SpecFlowActionJson(selenium: Option<SeleniumSpecFlowJsonPart>)

  /** `new SeleniumSpecFlowJsonPart()`: every property at its .NET default. */
  const DefaultSeleniumPart: SeleniumSpecFlowJsonPart :=
    SeleniumSpecFlowJsonPart(DefaultBrowser, None, None, None, None, None)

  /** `new SpecFlowActionJson()`: the property initializer supplies a fresh section. */
  const DefaultDocument: SpecFlowActionJson := SpecFlowActionJson(Some(DefaultSeleniumPart))

  /** The one field with an accessor-level default. */
  const DefaultTestPlatform: string := "local"

  /** The exception `JsonSerializer.Deserialize` throws on text it cannot read. */
  datatype JsonException = JsonException(message: string)

  /**
   * `JsonSerializer.Deserialize<SpecFlowActionJson>` with case-insensitive names and
   * string enums: a document, null (for the text `null`), or a thrown exception.
   */
  type Deserializer = string -> Result<Option<SpecFlowActionJson>, JsonException>

  /** What a property read can throw. */
  datatype Failure =
    | Deserialization(exception: JsonException)  // rethrown by Lazy<T>.Value on every read
    | NullReference                              // the document's Selenium property is null

  // ---------------------------------------------------------------------------
  // LoadSpecFlowJson, as a function of the loader's text and the deserializer:
  // the value (or the exception) the Lazy<T> factory produces.
  // ---------------------------------------------------------------------------

  function LoadOutcome(json: Option<string>, deserialize: Deserializer): (r: Result<SpecFlowActionJson, JsonException>)
    // blank text never reaches the deserializer and yields the default document
    ensures IsNullOrWhiteSpace(json) ==> r == Ok(DefaultDocument)
    // the only failure is the deserializer's own, for the text the loader gave
    ensures r.Err? <==> !IsNullOrWhiteSpace(json) && deserialize(json.value).Err?
    ensures r.Err? ==> deserialize(json.value) == Err(r.error)
    // any other document is the deserializer's output, unchanged
    ensures r.Ok? && r.value != DefaultDocument ==>
              !IsNullOrWhiteSpace(json) && deserialize(json.value) == Ok(Some(r.value))
    // a document the deserializer returns for non-blank text is the outcome, unchanged
    ensures !IsNullOrWhiteSpace(json) && deserialize(json.value).Ok? && deserialize(json.value).value.Some? ==>
              r == Ok(deserialize(json.value).value.value)
    // a null result from the deserializer gives the default document
    ensures !IsNullOrWhiteSpace(json) && deserialize(json.value) == Ok(None) ==> r == Ok(DefaultDocument)
    // a null Selenium section can only come from the deserializer
    ensures r.Ok? && r.value.selenium.None? ==> !IsNullOrWhiteSpace(json)
  {
    if IsNullOrWhiteSpace(json) then
      Ok(DefaultDocument)
    else
      match deserialize(json.value)
      case Err(e) => Err(e)
      case Ok(None) => Ok(DefaultDocument)
      case Ok(Some(document)) => Ok(document)
  }

  // ---------------------------------------------------------------------------
  // The six properties, as functions of the cached Lazy<T> outcome.
  // ---------------------------------------------------------------------------

  /** `_specflowJsonPart.Value.Selenium`: rethrows a cached exception, fails on a null section. */
  function SectionOf(value: Result<SpecFlowActionJson, JsonException>): (r: Result<SeleniumSpecFlowJsonPart, Failure>)
  {
    match value
    case Err(e) => Err(Deserialization(e))
    case Ok(document) =>
      match document.selenium
      case None => Err(NullReference)
      case Some(part) => Ok(part)
  }

  function BrowserOf(value: Result<SpecFlowActionJson, JsonException>): (r: Result<Browser, Failure>)
  {
    match SectionOf(value)
    case Err(f) => Err(f)
    case Ok(part) => Ok(part.browser)
  }

  function ArgumentsOf(value: Result<SpecFlowActionJson, JsonException>): (r: Result<Option<seq<string>>, Failure>)
  {
    match SectionOf(value)
    case Err(f) => Err(f)
    case Ok(part) => Ok(part.arguments)
  }

  function CapabilitiesOf(value: Result<SpecFlowActionJson, JsonException>): (r: Result<Option<map<string, string>>, Failure>)
  {
    match SectionOf(value)
    case Err(f) => Err(f)
    case Ok(part) => Ok(part.capabilities)
  }

  function DefaultTimeoutOf(value: Result<SpecFlowActionJson, JsonException>): (r: Result<Option<Double>, Failure>)
  {
    match SectionOf(value)
    case Err(f) => Err(f)
    case Ok(part) => Ok(part.defaultTimeout)
  }

  function PollingIntervalOf(value: Result<SpecFlowActionJson, JsonException>): (r: Result<Option<Double>, Failure>)
  {
    match SectionOf(value)
    case Err(f) => Err(f)
    case Ok(part) => Ok(part.pollingInterval)
  }

  /** `Selenium.TestPlatform ?? "local"`. */
  function TestPlatformOf(value: Result<SpecFlowActionJson, JsonException>): (r: Result<string, Failure>)
  {
    match SectionOf(value)
    case Err(f) => Err(f)
    case Ok(part) =>
      match part.testPlatform
      case None => Ok(DefaultTestPlatform)
      case Some(platform) => Ok(platform)
  }

  // ---------------------------------------------------------------------------
  // The accessor object: the loader's answer, the deserializer, the Lazy<T> cell.
  // ---------------------------------------------------------------------------

  class SeleniumConfiguration {
    /** What the loader's `Load()` returns (None for null). */
    const loaded: Option<string>
    const deserialize: Deserializer

    /** The `Lazy<SpecFlowActionJson>` cell: None until first read, then the factory's value or exception. */
    var cache: Option<Result<SpecFlowActionJson, JsonException>>

    /** How often the loader and the deserializer have been called on behalf of this instance. */
    ghost var loadCalls: nat
    ghost var deserializeCalls: nat

    /** The compute-once invariant: at most one load, and a filled cell holds what that load produced. */
    ghost predicate Valid()
      reads this
    {
      && loadCalls <= 1
      && (cache.None? <==> loadCalls == 0)
      && (cache.Some? ==> cache.value == LoadOutcome(loaded, deserialize))
      && deserializeCalls == (if loadCalls == 1 && !IsNullOrWhiteSpace(loaded) then 1 else 0)
    }

    /** The state after the first property read: the cell is filled, by exactly one load. */
    ghost predicate Loaded()
      reads this
    {
      Valid() && cache == Some(LoadOutcome(loaded, deserialize)) && loadCalls == 1
    }

    /** The constructor stores the loader and creates the cell; nothing is loaded yet. */
    constructor (loaded: Option<string>, deserialize: Deserializer)
      ensures Valid()
      ensures this.loaded == loaded && this.deserialize == deserialize
      ensures cache.None? && loadCalls == 0 && deserializeCalls == 0
    {
      this.loaded := loaded;
      this.deserialize := deserialize;
      cache := None;
      loadCalls := 0;
      deserializeCalls := 0;
    }

    /** The loader collaborator's `Load()`. */
    method Load() returns (json: Option<string>)
      modifies this`loadCalls
      ensures json == loaded
      ensures loadCalls == old(loadCalls) + 1
    {
      json := loaded;
      loadCalls := loadCalls + 1;
    }

    /** The Lazy<T> factory: load once, default on blank text or a null result, else the deserializer's answer. */
    method LoadSpecFlowJson() returns (r: Result<SpecFlowActionJson, JsonException>)
      requires Valid() && cache.None?  // runs only from Value, on the first read
      modifies this`loadCalls, this`deserializeCalls
      ensures r == LoadOutcome(loaded, deserialize)
      ensures loadCalls == 1
      ensures deserializeCalls == (if IsNullOrWhiteSpace(loaded) then 0 else 1)
    {
      var json := Load();
      if IsNullOrWhiteSpace(json) {
        return Ok(DefaultDocument);
      }
      var parsed := deserialize(json.value);
      deserializeCalls := deserializeCalls + 1;
      match parsed
      case Err(e) =>
        r := Err(e);
      case Ok(None) =>
        r := Ok(DefaultDocument);
      case Ok(Some(document)) =>
        r := Ok(document);
    }

    /** `Lazy<T>.Value`: runs the factory on the first read only; a cached exception is kept too. */
    method Value() returns (r: Result<SpecFlowActionJson, JsonException>)
      requires Valid()
      modifies this
      ensures Loaded() && r == LoadOutcome(loaded, deserialize)
      ensures old(cache).Some? ==> unchanged(this)
    {
      if cache.None? {
        var outcome := LoadSpecFlowJson();
        cache := Some(outcome);
      }
      r := cache.value;
    }

    method Browser() returns (r: Result<Browser, Failure>)
      requires Valid()
      modifies this
      ensures Loaded() && r == BrowserOf(LoadOutcome(loaded, deserialize))
      ensures old(cache).Some? ==> unchanged(this)
    {
      var value := Value();
      r := BrowserOf(value);
    }

    method Arguments() returns (r: Result<Option<seq<string>>, Failure>)
      requires Valid()
      modifies this
      ensures Loaded() && r == ArgumentsOf(LoadOutcome(loaded, deserialize))
      ensures old(cache).Some? ==> unchanged(this)
    {
      var value := Value();
      r := ArgumentsOf(value);
    }

    method Capabilities() returns (r: Result<Option<map<string, string>>, Failure>)
      requires Valid()
      modifies this
      ensures Loaded() && r == CapabilitiesOf(LoadOutcome(loaded, deserialize))
      ensures old(cache).Some? ==> unchanged(this)
    {
      var value := Value();
      r := CapabilitiesOf(value);
    }

    method DefaultTimeout() returns (r: Result<Option<Double>, Failure>)
      requires Valid()
      modifies this
      ensures Loaded() && r == DefaultTimeoutOf(LoadOutcome(loaded, deserialize))
      ensures old(cache).Some? ==> unchanged(this)
    {
      var value := Value();
      r := DefaultTimeoutOf(value);
    }

    method PollingInterval() returns (r: Result<Option<Double>, Failure>)
      requires Valid()
      modifies this
      ensures Loaded() && r == PollingIntervalOf(LoadOutcome(loaded, deserialize))
      ensures old(cache).Some? ==> unchanged(this)
    {
      var value := Value();
      r := PollingIntervalOf(value);
    }

    method TestPlatform() returns (r: Result<string, Failure>)
      requires Valid()
      modifies this
      ensures Loaded() && r == TestPlatformOf(LoadOutcome(loaded, deserialize))
      ensures old(cache).Some? ==> unchanged(this)
    {
      var value := Value();
      r := TestPlatformOf(value);
    }
  }
}

/**
 * What the configuration accessor promises its callers: defaults for absent
 * configuration, pass-through of configured fields, the `"local"` default of
 * TestPlatform, sticky failures, and one load per instance.
 */
module SeleniumProperties {
  import opened Wrappers
  import opened DotNetString
  import opened Selenium

  /** Blank loader text is never handed to the deserializer: any two deserializers give the default document. */
  lemma BlankTextSkipsDeserializer(json: Option<string>, d1: Deserializer, d2: Deserializer)
    requires IsNullOrWhiteSpace(json)
    ensures LoadOutcome(json, d1) == LoadOutcome(json, d2) == Ok(DefaultDocument)
  {
  }

  /** Non-blank text: the outcome is determined by the deserializer's answer for that text alone. */
  lemma OutcomeDependsOnDeserializerAnswer(json: Option<string>, d1: Deserializer, d2: Deserializer)
    requires !IsNullOrWhiteSpace(json)
    ensures LoadOutcome(json, d1) == LoadOutcome(json, d2) <==>
              (d1(json.value) == d2(json.value) ||
               (d1(json.value) in {Ok(None), Ok(Some(DefaultDocument))} &&
                d2(json.value) in {Ok(None), Ok(Some(DefaultDocument))}))
  {
  }

  /** A document the deserializer returns for non-blank text is cached as it is. */
  lemma DocumentKeptUnchanged(json: Option<string>, d: Deserializer, document: SpecFlowActionJson)
    requires json.Some? && !IsNullOrWhiteSpace(json) && d(json.value) == Ok(Some(document))
    ensures LoadOutcome(json, d) == Ok(document)
  {
  }

  /**
   * No configuration (blank text, or text the deserializer reads as null):
   * Browser is the enum's default, TestPlatform is "local", every other property is null.
   */
  lemma NothingConfigured(json: Option<string>, d: Deserializer)
    requires IsNullOrWhiteSpace(json) || (json.Some? && d(json.value) == Ok(None))
    ensures var value := LoadOutcome(json, d);
            && BrowserOf(value) == Ok(DefaultBrowser)
            && ArgumentsOf(value) == Ok(None)
            && CapabilitiesOf(value) == Ok(None)
            && DefaultTimeoutOf(value) == Ok(None)
            && PollingIntervalOf(value) == Ok(None)
            && TestPlatformOf(value) == Ok("local")
  {
  }

  /** Browser, Arguments, Capabilities, DefaultTimeout and PollingInterval return the section's fields as they are. */
  lemma FieldsPassThrough(value: Result<SpecFlowActionJson, JsonException>, part: SeleniumSpecFlowJsonPart)
    requires value.Ok? && value.value.selenium == Some(part)
    ensures BrowserOf(value) == Ok(part.browser)
    ensures ArgumentsOf(value) == Ok(part.arguments)
    ensures CapabilitiesOf(value) == Ok(part.capabilities)
    ensures DefaultTimeoutOf(value) == Ok(part.defaultTimeout)
    ensures PollingIntervalOf(value) == Ok(part.pollingInterval)
  {
  }

  /** An absent and a present-but-empty argument list or capability map stay distinguishable. */
  lemma AbsentAndEmptyStayApart(value: Result<SpecFlowActionJson, JsonException>, part: SeleniumSpecFlowJsonPart)
    requires value.Ok? && value.value.selenium == Some(part)
    ensures part.arguments == Some([]) ==> ArgumentsOf(value) == Ok(Some([])) != Ok(None)
    ensures part.capabilities == Some(map[]) ==> CapabilitiesOf(value) == Ok(Some(map[])) != Ok(None)
    ensures part.arguments.None? ==> ArgumentsOf(value) == Ok(None)
    ensures part.capabilities.None? ==> CapabilitiesOf(value) == Ok(None)
  {
  }

  /** TestPlatform is "local" exactly when the field is null or literally "local"; otherwise the field as written. */
  lemma TestPlatformDefaultsToLocal(value: Result<SpecFlowActionJson, JsonException>, part: SeleniumSpecFlowJsonPart)
    requires value.Ok? && value.value.selenium == Some(part)
    ensures TestPlatformOf(value) == Ok("local") <==> part.testPlatform in {None, Some("local")}
    ensures part.testPlatform.None? ==> TestPlatformOf(value) == Ok(DefaultTestPlatform)
    ensures part.testPlatform.Some? ==> TestPlatformOf(value) == Ok(part.testPlatform.value)
  {
  }

  /** Whatever makes the section unreadable makes every property read fail in the same way. */
  lemma FailureReachesEveryRead(value: Result<SpecFlowActionJson, JsonException>)
    requires value.Err? || value.value.selenium.None?
    ensures var f := if value.Err? then Deserialization(value.error) else NullReference;
            && BrowserOf(value) == Err(f)
            && ArgumentsOf(value) == Err(f)
            && CapabilitiesOf(value) == Err(f)
            && DefaultTimeoutOf(value) == Err(f)
            && PollingIntervalOf(value) == Err(f)
            && TestPlatformOf(value) == Err(f)
  {
  }

  /** A property read succeeds exactly when the document was read and has a non-null section. */
  lemma ReadSucceedsIff(json: Option<string>, d: Deserializer)
    ensures TestPlatformOf(LoadOutcome(json, d)).Ok? <==>
              IsNullOrWhiteSpace(json) ||
              (json.Some? && (d(json.value) == Ok(None) ||
                              (d(json.value).Ok? && d(json.value).value.Some? && d(json.value).value.value.selenium.Some?)))
    ensures var value := LoadOutcome(json, d);
            && (TestPlatformOf(value).Ok? <==> BrowserOf(value).Ok?)
            && (TestPlatformOf(value).Ok? <==> ArgumentsOf(value).Ok?)
            && (TestPlatformOf(value).Ok? <==> CapabilitiesOf(value).Ok?)
            && (TestPlatformOf(value).Ok? <==> DefaultTimeoutOf(value).Ok?)
            && (TestPlatformOf(value).Ok? <==> PollingIntervalOf(value).Ok?)
  {
  }

  /**
   * A deserialization failure of the loaded text is what all six properties report.
   * That later reads on one instance report it again, without reloading, is
   * SeleniumConfiguration.Value's `unchanged(this)`.
   */
  lemma DeserializationFailureReachesEveryRead(json: Option<string>, d: Deserializer)
    requires json.Some? && !IsNullOrWhiteSpace(json) && d(json.value).Err?
    ensures SnapshotOf(LoadOutcome(json, d)) == FailedSnapshot(Deserialization(d(json.value).error))
  {
  }

  // ---------------------------------------------------------------------------
  // Concrete texts.
  // ---------------------------------------------------------------------------

  /** Empty text: the default document, whatever the deserializer would have said. */
  lemma EmptyTextScenario(d: Deserializer)
    ensures LoadOutcome(Some(""), d) == Ok(DefaultDocument)
    ensures TestPlatformOf(LoadOutcome(Some(""), d)) == Ok("local")
    ensures BrowserOf(LoadOutcome(Some(""), d)) == Ok(DefaultBrowser)
    ensures ArgumentsOf(LoadOutcome(Some(""), d)) == Ok(None)
  {
  }

  /** Text of spaces, tabs, line breaks and non-breaking spaces counts as blank. */
  lemma WhiteSpaceTextScenario(d: Deserializer)
    ensures LoadOutcome(Some(" \t\r\n\U{00A0}\U{3000}"), d) == Ok(DefaultDocument)
  {
  }

  /** Malformed text reaches the deserializer, and its exception is what every property reports. */
  lemma MalformedTextScenario(d: Deserializer)
    requires d("{\"selenium\":").Err?
    ensures SnapshotOf(LoadOutcome(Some("{\"selenium\":"), d)) == FailedSnapshot(Deserialization(d("{\"selenium\":").error))
  {
  }

  /**
   * A document naming a browser, one argument and a timeout, but no test platform:
   * the configured fields come back as written and TestPlatform is "local".
   */
  lemma ConfiguredDocumentScenario(json: string, d: Deserializer, chrome: Browser, thirty: Double)
    requires exists i :: 0 <= i < |json| && !IsWhiteSpace(json[i])
    requires d(json) == Ok(Some(SpecFlowActionJson(Some(
               SeleniumSpecFlowJsonPart(chrome, Some(["--headless"]), None, Some(thirty), None, None)))))
    ensures BrowserOf(LoadOutcome(Some(json), d)) == Ok(chrome)
    ensures ArgumentsOf(LoadOutcome(Some(json), d)) == Ok(Some(["--headless"]))
    ensures DefaultTimeoutOf(LoadOutcome(Some(json), d)) == Ok(Some(thirty))
    ensures TestPlatformOf(LoadOutcome(Some(json), d)) == Ok("local")
  {
  }

  // ---------------------------------------------------------------------------
  // A client of the accessor object.
  // ---------------------------------------------------------------------------

  /** The six property values as one read sees them. */
  datatype Snapshot = Snapshot(
    browser: Result<Browser, Failure>,
    arguments: Result<Option<seq<string>>, Failure>,
    capabilities: Result<Option<map<string, string>>, Failure>,
    defaultTimeout: Result<Option<Double>, Failure>,
    pollingInterval: Result<Option<Double>, Failure>,
    testPlatform: Result<string, Failure>)

  function SnapshotOf(value: Result<SpecFlowActionJson, JsonException>): (s: Snapshot)
  {
    Snapshot(BrowserOf(value), ArgumentsOf(value), CapabilitiesOf(value),
             DefaultTimeoutOf(value), PollingIntervalOf(value), TestPlatformOf(value))
  }

  /** Every property failing with `f`. */
  function FailedSnapshot(f: Failure): (s: Snapshot)
  {
    Snapshot(Err(f), Err(f), Err(f), Err(f), Err(f), Err(f))
  }

  /** Reads every property of an accessor. */
  method ReadAll(c: SeleniumConfiguration) returns (s: Snapshot)
    requires c.Valid()
    modifies c
    ensures c.Loaded() && s == SnapshotOf(LoadOutcome(c.loaded, c.deserialize))
    ensures old(c.cache).Some? ==> unchanged(c)
  {
    var browser := c.Browser();
    var arguments := c.Arguments();
    var capabilities := c.Capabilities();
    var defaultTimeout := c.DefaultTimeout();
    var pollingInterval := c.PollingInterval();
    var testPlatform := c.TestPlatform();
    s := Snapshot(browser, arguments, capabilities, defaultTimeout, pollingInterval, testPlatform);
  }

  /**
   * Two full rounds of reads on one fresh accessor agree, and agree with what the
   * first load produced; the loader ran once and the deserializer at most once.
   */
  method ReadTwice(loaded: Option<string>, d: Deserializer)
    returns (first: Snapshot, second: Snapshot, ghost loads: nat, ghost deserializations: nat)
    ensures first == second
    ensures first == SnapshotOf(LoadOutcome(loaded, d))
    ensures loads == 1
    ensures deserializations == (if IsNullOrWhiteSpace(loaded) then 0 else 1)
  {
    var c := new SeleniumConfiguration(loaded, d);
    first := ReadAll(c);
    second := ReadAll(c);
    loads, deserializations := c.loadCalls, c.deserializeCalls;
  }
}

/** The interaction helpers `waitForElement`, `safeClick`, `safeType`, `getText` and
    `elementExists`, over an abstract remote app. Only their control shape is modelled:
    which commands they issue, in which order, and what they do with each failure. */
module Interaction {
  import opened Wrappers

  /** The timeout every waiting helper uses when its caller gives none. */
  const DefaultTimeout: nat := 10000

  /** A handle on a located element. */
  datatype Element = Element(id: nat)

  /** The commands a helper can send on an open session. */
  datatype Command =
    | Locate(selector: string)
    | WaitForDisplayed(element: Element, timeout: nat)
    | Click(element: Element)
    | ClearValue(element: Element)
    | SetValue(element: Element, text: string)
    | GetText(element: Element)
    | IsDisplayed(element: Element)

  /** How the remote app answers each command, given every command issued before it (the
      screen may change between calls). Any answer may be a failure. */
  datatype App = App(
    locate: (seq<Command>, string) -> Result<Element, string>,
    settle: (seq<Command>, Command) -> Outcome<string>,
    text: (seq<Command>, Element) -> Result<string, string>,
    displayed: (seq<Command>, Element) -> Result<bool, string>)

  /** A helper's effect: what it resolves or rejects with, and the commands it issued. */
  datatype Run<T> = Run(result: Result<T, string>, issued: seq<Command>)

  /** `elementExists`'s effect: its answer and the commands it issued. */
  datatype Probe = Probe(present: bool, issued: seq<Command>)

  /** `waitForElement` after history `h`: locate, then wait for the element to be displayed. */
  function WaitRun(app: App, h: seq<Command>, selector: string, timeout: nat): (r: Run<Element>)
  {
    match app.locate(h, selector)
    case Failure(e) => Run(Failure(e), [Locate(selector)])
    case Success(element) =>
      var issued := [Locate(selector), WaitForDisplayed(element, timeout)];
      match app.settle(h + [Locate(selector)], WaitForDisplayed(element, timeout))
      case Fail(e) => Run(Failure(e), issued)
      case Pass => Run(Success(element), issued)
  }

  /** `safeClick`: wait, then click the element found. */
  function ClickRun(app: App, h: seq<Command>, selector: string, timeout: nat): (r: Run<()>)
  {
    var wait := WaitRun(app, h, selector, timeout);
    match wait.result
    case Failure(e) => Run(Failure(e), wait.issued)
    case Success(element) =>
      var issued := wait.issued + [Click(element)];
      match app.settle(h + wait.issued, Click(element))
      case Fail(e) => Run(Failure(e), issued)
      case Pass => Run(Success(()), issued)
  }

  /** `safeType`: wait, clear the element, then set its value. */
  function TypeRun(app: App, h: seq<Command>, selector: string, text: string, timeout: nat): (r: Run<()>)
  {
    var wait := WaitRun(app, h, selector, timeout);
    match wait.result
    case Failure(e) => Run(Failure(e), wait.issued)
    case Success(element) =>
      var cleared := wait.issued + [ClearValue(element)];
      match app.settle(h + wait.issued, ClearValue(element))
      case Fail(e) => Run(Failure(e), cleared)
      case Pass =>
        var issued := cleared + [SetValue(element, text)];
        match app.settle(h + cleared, SetValue(element, text))
        case Fail(e) => Run(Failure(e), issued)
        case Pass => Run(Success(()), issued)
  }

  /** `getText`: wait, then read the element's text. */
  function TextRun(app: App, h: seq<Command>, selector: string, timeout: nat): (r: Run<string>)
  {
    var wait := WaitRun(app, h, selector, timeout);
    match wait.result
    case Failure(e) => Run(Failure(e), wait.issued)
    case Success(element) =>
      Run(app.text(h + wait.issued, element), wait.issued + [GetText(element)])
  }

  /** `elementExists`: locate without waiting, then ask whether the element is displayed;
      any failure answers `false`. */
  function ExistsProbe(app: App, h: seq<Command>, selector: string): (r: Probe)
  {
    match app.locate(h, selector)
    case Failure(_) => Probe(false, [Locate(selector)])
    case Success(element) =>
      var issued := [Locate(selector), IsDisplayed(element)];
      match app.displayed(h + [Locate(selector)], element)
      case Failure(_) => Probe(false, issued)
      case Success(shown) => Probe(shown, issued)
  }

  /** A helper that waits first: its commands start with those of `waitForElement`; if the
      wait fails, it rejects with the wait's error and issues nothing more; otherwise its one
      further command is `act` applied to the element the wait resolved with. */
  ghost predicate WaitsThenActs<T>(wait: Run<Element>, run: Run<T>, act: Element -> Command)
  {
    && |wait.issued| <= |run.issued|
    && run.issued[..|wait.issued|] == wait.issued
    && (wait.result.Failure? ==> run.result == Failure(wait.result.error) && run.issued == wait.issued)
    && (wait.result.Success? ==>
          |run.issued| > |wait.issued| && run.issued[|wait.issued|] == act(wait.result.value))
  }

  /** `waitForElement` resolves only with the element it located, after waiting on it with the
      given timeout, and rejects exactly when locating or waiting fails. */
  lemma WaitResolvesWithLocated(app: App, h: seq<Command>, selector: string, timeout: nat)
    ensures var run := WaitRun(app, h, selector, timeout);
      && run.issued[0] == Locate(selector)
      && (run.result.Success? <==>
            app.locate(h, selector).Success? &&
            app.settle(h + [Locate(selector)], WaitForDisplayed(app.locate(h, selector).value, timeout)).Pass?)
      && (run.result.Success? ==>
            run.result.value == app.locate(h, selector).value &&
            run.issued == [Locate(selector), WaitForDisplayed(run.result.value, timeout)])
  {
  }

  /** `safeClick` clicks only after the wait succeeds and lets a wait failure propagate. */
  lemma ClickWaitsFirst(app: App, h: seq<Command>, selector: string, timeout: nat)
    ensures WaitsThenActs(WaitRun(app, h, selector, timeout), ClickRun(app, h, selector, timeout),
                          e => Click(e))
  {
  }

  /** `getText` reads only after the wait succeeds and lets a wait failure propagate. */
  lemma TextWaitsFirst(app: App, h: seq<Command>, selector: string, timeout: nat)
    ensures WaitsThenActs(WaitRun(app, h, selector, timeout), TextRun(app, h, selector, timeout),
                          e => GetText(e))
  {
  }

  /** `safeType` clears only after the wait succeeds, lets a wait failure propagate, and
      every value it sets is set right after the same element was cleared. */
  lemma TypeWaitsAndClearsFirst(app: App, h: seq<Command>, selector: string, text: string, timeout: nat)
    ensures WaitsThenActs(WaitRun(app, h, selector, timeout), TypeRun(app, h, selector, text, timeout),
                          e => ClearValue(e))
    ensures var issued := TypeRun(app, h, selector, text, timeout).issued;
      forall k :: 0 <= k < |issued| && issued[k].SetValue? ==>
        k > 0 && issued[k - 1] == ClearValue(issued[k].element) && issued[k].text == text
    ensures TypeRun(app, h, selector, text, timeout).result.Success? ==>
      SetValue(WaitRun(app, h, selector, timeout).result.value, text)
        in TypeRun(app, h, selector, text, timeout).issued
  {
  }

  /** `elementExists` never waits, and answers `true` exactly when the element was located
      and reported itself displayed; every failure answers `false`. */
  lemma ExistsNeverWaits(app: App, h: seq<Command>, selector: string)
    ensures var probe := ExistsProbe(app, h, selector);
      && (forall k :: 0 <= k < |probe.issued| ==> !probe.issued[k].WaitForDisplayed?)
      && (probe.present <==>
            app.locate(h, selector).Success? &&
            app.displayed(h + [Locate(selector)], app.locate(h, selector).value) == Success(true))
  {
  }

  /** An app whose answers do not depend on what was issued before. */
  ghost predicate Unchanging(app: App)
  {
    && (forall h: seq<Command>, selector: string :: app.locate(h, selector) == app.locate([], selector))
    && (forall h: seq<Command>, element: Element :: app.displayed(h, element) == app.displayed([], element))
  }

  /** Asking `elementExists` again, with nothing changed in between, gives the same answer. */
  lemma ExistsIdempotent(app: App, h: seq<Command>, selector: string)
    requires Unchanging(app)
    ensures var first := ExistsProbe(app, h, selector);
      ExistsProbe(app, h + first.issued, selector).present == first.present
  {
  }

  /** One open session: the app behind it and the commands sent on it so far. */
  class Driver {
    const app: App
    var issued: seq<Command>

    constructor (app: App)
      ensures this.app == app && issued == []
    {
      this.app := app;
      issued := [];
    }

    /** `driver.$(selector)`. */
    method Locate(selector: string) returns (r: Result<Element, string>)
      modifies this`issued
      ensures issued == old(issued) + [Command.Locate(selector)]
      ensures r == app.locate(old(issued), selector)
    {
      r := app.locate(issued, selector);
      issued := issued + [Command.Locate(selector)];
    }

    /** `waitForDisplayed`, `click`, `clearValue` or `setValue` on an element. */
    method Settle(command: Command) returns (r: Outcome<string>)
      modifies this`issued
      ensures issued == old(issued) + [command]
      ensures r == app.settle(old(issued), command)
    {
      r := app.settle(issued, command);
      issued := issued + [command];
    }

    /** `element.getText()`. */
    method Text(element: Element) returns (r: Result<string, string>)
      modifies this`issued
      ensures issued == old(issued) + [GetText(element)]
      ensures r == app.text(old(issued), element)
    {
      r := app.text(issued, element);
      issued := issued + [GetText(element)];
    }

    /** `element.isDisplayed()`. */
    method Displayed(element: Element) returns (r: Result<bool, string>)
      modifies this`issued
      ensures issued == old(issued) + [IsDisplayed(element)]
      ensures r == app.displayed(old(issued), element)
    {
      r := app.displayed(issued, element);
      issued := issued + [IsDisplayed(element)];
    }
  }

  method WaitForElement(driver: Driver, selector: string, timeout: nat := DefaultTimeout)
    returns (r: Result<Element, string>)
    modifies driver`issued
    ensures var run := WaitRun(driver.app, old(driver.issued), selector, timeout);
      r == run.result && driver.issued == old(driver.issued) + run.issued
  {
    var located := driver.Locate(selector);
    if located.Failure? {
      return Failure(located.error);
    }
    var waited := driver.Settle(WaitForDisplayed(located.value, timeout));
    if waited.Fail? {
      return Failure(waited.error);
    }
    r := Success(located.value);
  }

  method SafeClick(driver: Driver, selector: string, timeout: nat := DefaultTimeout)
    returns (r: Result<(), string>)
    modifies driver`issued
    ensures var run := ClickRun(driver.app, old(driver.issued), selector, timeout);
      r == run.result && driver.issued == old(driver.issued) + run.issued
  {
    var found := WaitForElement(driver, selector, timeout);
    if found.Failure? {
      return Failure(found.error);
    }
    var clicked := driver.Settle(Click(found.value));
    r := if clicked.Fail? then Failure(clicked.error) else Success(());
  }

  method SafeType(driver: Driver, selector: string, text: string, timeout: nat := DefaultTimeout)
    returns (r: Result<(), string>)
    modifies driver`issued
    ensures var run := TypeRun(driver.app, old(driver.issued), selector, text, timeout);
      r == run.result && driver.issued == old(driver.issued) + run.issued
  {
    var found := WaitForElement(driver, selector, timeout);
    if found.Failure? {
      return Failure(found.error);
    }
    ghost var wait := WaitRun(driver.app, old(driver.issued), selector, timeout);
    var cleared := driver.Settle(ClearValue(found.value));
    assert driver.issued == old(driver.issued) + (wait.issued + [ClearValue(found.value)]);
    if cleared.Fail? {
      return Failure(cleared.error);
    }
    var typed := driver.Settle(SetValue(found.value, text));
    r := if typed.Fail? then Failure(typed.error) else Success(());
  }

  method ReadText(driver: Driver, selector: string, timeout: nat := DefaultTimeout)
    returns (r: Result<string, string>)
    modifies driver`issued
    ensures var run := TextRun(driver.app, old(driver.issued), selector, timeout);
      r == run.result && driver.issued == old(driver.issued) + run.issued
  {
    var found := WaitForElement(driver, selector, timeout);
    if found.Failure? {
      return Failure(found.error);
    }
    r := driver.Text(found.value);
  }

  method ElementExists(driver: Driver, selector: string) returns (present: bool)
    modifies driver`issued
    ensures var probe := ExistsProbe(driver.app, old(driver.issued), selector);
      present == probe.present && driver.issued == old(driver.issued) + probe.issued
  {
    var located := driver.Locate(selector);
    if located.Failure? {
      return false;
    }
    var shown := driver.Displayed(located.value);
    present := shown.Success? && shown.value;
  }
}

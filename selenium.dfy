/**
 * The Selenium WebDriver as the model sees it: a browser whose page is an
 * oracle. What a lookup finds depends only on everything the browser has been
 * asked to do so far (its `trace`), so a click can change what later lookups
 * find without the model knowing how.
 */
module Selenium {

  /** How a lookup names an element: `By.ID` or `By.CLASS_NAME`. */
  datatype Locator = ById(id: string) | ByClassName(name: string)

  /**
   * What a lookup finds: nothing (`NoSuchElementException` from
   * `find_element`, `TimeoutException` from `WebDriverWait(...).until`), or an
   * element that is displayed or not.
   */
  datatype Lookup = Missing | Located(displayed: bool)

  /** One request made of the browser. */
  datatype Action =
    | Visit(url: string)                     // driver.get(url)
    | ImplicitWait(seconds: int)             // driver.implicitly_wait(seconds)
    | Find(locator: Locator)                 // driver.find_element(...)
    | WaitFor(locator: Locator, seconds: int) // WebDriverWait(driver, seconds).until(presence_of_element_located)
    | SendKeys(locator: Locator, text: string)
    | Click(locator: Locator)

  /** Number of clicks among `actions`. */
  function Clicks(actions: seq<Action>): nat
    decreases |actions|
  {
    if actions == [] then 0
    else Clicks(actions[..|actions| - 1]) + (if actions[|actions| - 1].Click? then 1 else 0)
  }

  /** Number of explicit waits for `locator` among `actions`. */
  function WaitsFor(actions: seq<Action>, locator: Locator): nat
    decreases |actions|
  {
    if actions == [] then 0
    else
      var last := actions[|actions| - 1];
      WaitsFor(actions[..|actions| - 1], locator) + (if last.WaitFor? && last.locator == locator then 1 else 0)
  }

  lemma {:induction false} ClicksAppend(a: seq<Action>, b: seq<Action>)
    ensures Clicks(a + b) == Clicks(a) + Clicks(b)
    decreases |b|
  {
    if b != [] {
      var b' := b[..|b| - 1];
      assert (a + b)[..|a + b| - 1] == a + b';
      ClicksAppend(a, b');
    } else {
      assert a + b == a;
    }
  }

  lemma {:induction false} WaitsForAppend(a: seq<Action>, b: seq<Action>, locator: Locator)
    ensures WaitsFor(a + b, locator) == WaitsFor(a, locator) + WaitsFor(b, locator)
    decreases |b|
  {
    if b != [] {
      var b' := b[..|b| - 1];
      assert (a + b)[..|a + b| - 1] == a + b';
      WaitsForAppend(a, b', locator);
    } else {
      assert a + b == a;
    }
  }

  /** A browser session driven by Selenium. */
  class Browser {
    /** Every request made of this browser, oldest first. */
    var trace: seq<Action>
    /** What a lookup of a locator finds after a given history of requests. */
    const dom: (seq<Action>, Locator) -> Lookup

    constructor (dom: (seq<Action>, Locator) -> Lookup)
      ensures this.dom == dom && trace == []
    {
      this.dom := dom;
      trace := [];
    }

    method Get(url: string)
      modifies this
      ensures trace == old(trace) + [Visit(url)]
    {
      trace := trace + [Visit(url)];
    }

    method ImplicitlyWait(seconds: int)
      modifies this
      ensures trace == old(trace) + [ImplicitWait(seconds)]
    {
      trace := trace + [ImplicitWait(seconds)];
    }

    /** `find_element`: what the page holds now; `Missing` stands for `NoSuchElementException`. */
    method FindElement(locator: Locator) returns (found: Lookup)
      modifies this
      ensures found == dom(old(trace), locator)
      ensures trace == old(trace) + [Find(locator)]
    {
      found := dom(trace, locator);
      trace := trace + [Find(locator)];
    }

    /** `WebDriverWait(driver, seconds).until(presence_of_element_located(locator))`; `Missing` stands for `TimeoutException`. */
    method WaitUntilPresent(locator: Locator, seconds: int) returns (found: Lookup)
      modifies this
      ensures found == dom(old(trace), locator)
      ensures trace == old(trace) + [WaitFor(locator, seconds)]
    {
      found := dom(trace, locator);
      trace := trace + [WaitFor(locator, seconds)];
    }

    method SendKeysTo(locator: Locator, text: string)
      modifies this
      ensures trace == old(trace) + [SendKeys(locator, text)]
    {
      trace := trace + [SendKeys(locator, text)];
    }

    method ClickOn(locator: Locator)
      modifies this
      ensures trace == old(trace) + [Click(locator)]
    {
      trace := trace + [Click(locator)];
    }
  }
}

/** Retries nested inside retries: `clickWaitForTitleAndNavigate` retries a
    closure that calls `click` and `waitForPageTitle`, each of which retries
    its own body. The two inner bodies are oracles indexed by how many times
    that body has been invoked so far, over the whole navigation call. */
module Pages {
  import opened Effects
  import opened ActionUtils

  /** The oracle of a body from its `offset`-th invocation on. */
  function Shift(body: nat -> Outcome<()>, offset: nat): nat -> Outcome<()> {
    (n: nat) => body(offset + n)
  }

  /** `click(element, elementName)` when its body has already run `offset` times. */
  function ClickRun(cls: string, clickBody: nat -> Outcome<()>, elementName: string, offset: nat): Run<()> {
    Retry(cls, Shift(clickBody, offset), "Clicked on " + elementName, "Failed to click on " + elementName)
  }

  /** `waitForPageTitle(pageTitle)` when its body has already run `offset` times. */
  function TitleRun(cls: string, titleBody: nat -> Outcome<()>, pageTitle: string, offset: nat): Run<()> {
    Retry(cls, Shift(titleBody, offset), "Page title is correct: " + pageTitle,
          "Failed to wait for page title to be equal to " + pageTitle)
  }

  /** How many times each inner body has run. */
  datatype Tally = Tally(clicks: nat, titles: nat)

  /** The inner invocations made by the first `i` attempts of the navigation
      closure: each attempt clicks and, if the click went through, waits for
      the title. */
  function Before(cls: string, clickBody: nat -> Outcome<()>, titleBody: nat -> Outcome<()>,
                  elementName: string, pageTitle: string, i: nat): Tally
  {
    if i == 0 then Tally(0, 0)
    else
      var t := Before(cls, clickBody, titleBody, elementName, pageTitle, i - 1);
      var click := ClickRun(cls, clickBody, elementName, t.clicks);
      if click.result.Throws? then Tally(t.clicks + click.calls, t.titles)
      else Tally(t.clicks + click.calls, t.titles + TitleRun(cls, titleBody, pageTitle, t.titles).calls)
  }

  /** How attempt `i` of the navigation closure completes: the click's
      failure if it failed, otherwise the title wait's outcome. */
  function NavigateAttempt(cls: string, clickBody: nat -> Outcome<()>, titleBody: nat -> Outcome<()>,
                           elementName: string, pageTitle: string, i: nat): Outcome<()>
  {
    var t := Before(cls, clickBody, titleBody, elementName, pageTitle, i);
    var click := ClickRun(cls, clickBody, elementName, t.clicks);
    if click.result.Throws? then click.result else TitleRun(cls, titleBody, pageTitle, t.titles).result
  }

  /** `clickWaitForTitleAndNavigate(element, elementName, pageTitle, nextClassPage)`. */
  function NavigateRun(cls: string, clickBody: nat -> Outcome<()>, titleBody: nat -> Outcome<()>,
                       elementName: string, pageTitle: string, nextClassPage: string): Run<()>
  {
    Retry(cls, (i: nat) => NavigateAttempt(cls, clickBody, titleBody, elementName, pageTitle, i),
          "Navigated to " + nextClassPage, "Failed to navigate to " + nextClassPage)
  }

  /** Each navigation attempt runs the click body at least once and at most
      three times, and the title body at most three times. */
  lemma {:induction false} BeforeBounds(cls: string, clickBody: nat -> Outcome<()>, titleBody: nat -> Outcome<()>,
                                        elementName: string, pageTitle: string, i: nat)
    ensures var t := Before(cls, clickBody, titleBody, elementName, pageTitle, i);
      i <= t.clicks <= MaxAttempts * i && t.titles <= MaxAttempts * i
  {
    if i > 0 {
      BeforeBounds(cls, clickBody, titleBody, elementName, pageTitle, i - 1);
    }
  }

  /** One navigation call runs the click body at most 3 x 3 = 9 times, and the
      title-wait body at most 9 times. */
  lemma NavigateBounded(cls: string, clickBody: nat -> Outcome<()>, titleBody: nat -> Outcome<()>,
                        elementName: string, pageTitle: string, nextClassPage: string)
    ensures var n := NavigateRun(cls, clickBody, titleBody, elementName, pageTitle, nextClassPage).calls;
      var t := Before(cls, clickBody, titleBody, elementName, pageTitle, n);
      1 <= n <= MaxAttempts && n <= t.clicks <= MaxAttempts * MaxAttempts && t.titles <= MaxAttempts * MaxAttempts
  {
    var n := NavigateRun(cls, clickBody, titleBody, elementName, pageTitle, nextClassPage).calls;
    BeforeBounds(cls, clickBody, titleBody, elementName, pageTitle, n);
  }
}
